/** The citizen's report form (src/components/FormularioDenuncia.jsx): its
    state, the attachment checks, the location handlers, and the submission
    split at its one await into the part that issues the write and the part
    that runs when the write settles. */
module FormularioDenuncia {
  import opened Js
  import opened Store

  /** `1 * 1024 * 1024` */
  const MaxBytes: nat := 1048576

  const MsgMuyGrande := "La imagen es muy grande. Máximo 1MB para este método"
  const MsgNoImagen := "Solo se permiten imágenes"
  const MsgConversion := "Error al procesar la imagen"
  const MsgSinGeolocalizacion := "Tu navegador no soporta geolocalización"
  const MsgCampos := "Por favor completa todos los campos obligatorios"
  const MsgSinSesion := "Debes iniciar sesión para enviar una denuncia"
  const PrefijoEnvio := "Error al enviar la denuncia: "
  const PrefijoUbicacion := "No se pudo obtener la ubicación. "

  /** A picked file: its size in bytes and its MIME type. */
  datatype Archivo = Archivo(nombre: string, size: nat, tipo: string)

  /** One coordinate of the form's `ubicacion` state: the empty string until
      the browser reports a position, then a number. */
  datatype Coordenada = Vacia | En(n: real)

  /** JS truthiness of a coordinate: '' and 0 are falsy. */
  predicate CoordVerdadera(c: Coordenada)
  {
    c.En? && c.n != 0.0
  }

  /** `${c}` for a coordinate; how a number is printed is a parameter. */
  function TextoCoord(c: Coordenada, numText: real -> string): string
  {
    match c
    case Vacia => ""
    case En(n) => numText(n)
  }

  /** The checks of manejarCambioFoto, in their order: size first, then the
      type prefix. None means the file is accepted. */
  function RevisarArchivo(a: Archivo): (r: Option<string>)
    ensures r.None? <==> a.size <= MaxBytes && StartsWith(a.tipo, "image/")
    ensures a.size > MaxBytes ==> r == Some(MsgMuyGrande)
    ensures a.size <= MaxBytes && !StartsWith(a.tipo, "image/") ==> r == Some(MsgNoImagen)
  {
    if a.size > MaxBytes then Some(MsgMuyGrande)
    else if !StartsWith(a.tipo, "image/") then Some(MsgNoImagen)
    else None
  }

  /** The limit is inclusive, and size is judged before type: an oversized
      file that is not an image gets the size message. */
  lemma LimiteDeTamano(nombre: string)
    ensures RevisarArchivo(Archivo(nombre, MaxBytes, "image/png")).None?
    ensures RevisarArchivo(Archivo(nombre, MaxBytes + 1, "image/png")) == Some(MsgMuyGrande)
    ensures RevisarArchivo(Archivo(nombre, MaxBytes + 1, "text/plain")) == Some(MsgMuyGrande)
    ensures RevisarArchivo(Archivo(nombre, MaxBytes, "text/plain")) == Some(MsgNoImagen)
  {
    assert !StartsWith("text/plain", "image/") by {
      assert "text/plain"[0] != "image/"[0];
    }
  }

  /** Codes of the W3C Geolocation API's GeolocationPositionError. */
  const PermissionDenied := 1
  const PositionUnavailable := 2
  const Timeout := 3

  const SufijoPermiso := "Permiso denegado. En Brave: Click en el escudo 🛡️ → Configuración avanzada → Permitir Ubicación"
  const SufijoNoDisponible := "Información de ubicación no disponible"
  const SufijoTiempo := "Tiempo de espera agotado"
  const SufijoDesconocido := "Error desconocido"

  function SufijoUbicacion(codigo: int): string
  {
    if codigo == PermissionDenied then SufijoPermiso
    else if codigo == PositionUnavailable then SufijoNoDisponible
    else if codigo == Timeout then SufijoTiempo
    else SufijoDesconocido
  }

  /** The geolocation error callback's message. */
  function MensajeUbicacion(codigo: int): (m: string)
    ensures StartsWith(m, PrefijoUbicacion)
    ensures m[|PrefijoUbicacion|..] == SufijoUbicacion(codigo)
  {
    PrefijoUbicacion + SufijoUbicacion(codigo)
  }

  /** The three known codes and the default give four different messages,
      and every unknown code gives the default one. */
  lemma MensajesUbicacionDistintos(a: int, b: int)
    ensures (a !in {1, 2, 3} && b !in {1, 2, 3}) ==> MensajeUbicacion(a) == MensajeUbicacion(b)
    ensures (a in {1, 2, 3} || b in {1, 2, 3}) && a != b ==> MensajeUbicacion(a) != MensajeUbicacion(b)
  {
    if (a in {1, 2, 3} || b in {1, 2, 3}) && a != b {
      var ma := MensajeUbicacion(a);
      var mb := MensajeUbicacion(b);
      assert ma[|PrefijoUbicacion|..] == SufijoUbicacion(a);
      assert mb[|PrefijoUbicacion|..] == SufijoUbicacion(b);
      assert SufijoUbicacion(a) != SufijoUbicacion(b);
    }
  }

  /** The object manejarSubmit hands to `addDoc`. */
  function NuevaDenuncia(titulo: string, descripcion: string, categoria: string, imagenBase64: string,
                         lat: Coordenada, lng: Coordenada, u: UsuarioAuth, numText: real -> string): Doc
  {
    map[
      "titulo" := Str(titulo),
      "descripcion" := Str(descripcion),
      "categoria" := Str(categoria),
      "imagenBase64" := Or(Str(imagenBase64), Str("")),
      "ubicacion" := if CoordVerdadera(lat) then Str(TextoCoord(lat, numText) + ", " + TextoCoord(lng, numText)) else Str("Sin ubicación"),
      "latitud" := if CoordVerdadera(lat) then Num(lat.n) else Null,
      "longitud" := if CoordVerdadera(lng) then Num(lng.n) else Null,
      "estado" := Str("pendiente"),
      "fecharegistro" := ServerTimestamp,
      "usuarioId" := Str(u.uid),
      "nombreUsuario" := Or(u.email, Str("Usuario Anónimo"))
    ]
  }

  /** The stored record: a new report is 'pendiente', belongs to the signed
      in uid, carries the chosen category, the author's email or 'Usuario
      Anónimo', the inline image or '', and a server timestamp; it has no
      `id` field of its own. */
  lemma RegistroCampos(titulo: string, descripcion: string, categoria: string, imagenBase64: string,
                       lat: Coordenada, lng: Coordenada, u: UsuarioAuth, numText: real -> string)
    ensures var d := NuevaDenuncia(titulo, descripcion, categoria, imagenBase64, lat, lng, u, numText);
      && Get(d, "estado") == Str("pendiente")
      && Get(d, "usuarioId") == Str(u.uid)
      && Get(d, "categoria") == Str(categoria)
      && Get(d, "titulo") == Str(titulo) && Get(d, "descripcion") == Str(descripcion)
      && Get(d, "nombreUsuario") == (if Truthy(u.email) then u.email else Str("Usuario Anónimo"))
      && Get(d, "imagenBase64") == Str(imagenBase64)
      && Get(d, "fecharegistro") == ServerTimestamp
      && "id" !in d
      && d.Keys == {"titulo", "descripcion", "categoria", "imagenBase64", "ubicacion", "latitud",
                    "longitud", "estado", "fecharegistro", "usuarioId", "nombreUsuario"}
  {
  }

  /** The location encoding: a truthy latitude gives the text "lat, lng" and
      a numeric `latitud`; otherwise the text is 'Sin ubicación' and
      `latitud` is null. `longitud` follows its own coordinate, so a zero
      latitude with a non-zero longitude stores 'Sin ubicación' next to a
      number. */
  lemma UbicacionCodificada(titulo: string, descripcion: string, categoria: string, imagenBase64: string,
                            lat: Coordenada, lng: Coordenada, u: UsuarioAuth, numText: real -> string)
    ensures var d := NuevaDenuncia(titulo, descripcion, categoria, imagenBase64, lat, lng, u, numText);
      && (CoordVerdadera(lat) ==> Get(d, "ubicacion") == Str(numText(lat.n) + ", " + TextoCoord(lng, numText)) && Get(d, "latitud") == Num(lat.n))
      && (!CoordVerdadera(lat) ==> Get(d, "ubicacion") == Str("Sin ubicación") && Get(d, "latitud") == Null)
      && Get(d, "longitud") == (if CoordVerdadera(lng) then Num(lng.n) else Null)
    ensures var d := NuevaDenuncia(titulo, descripcion, categoria, imagenBase64, En(0.0), En(1.0), u, numText);
      Get(d, "ubicacion") == Str("Sin ubicación") && Get(d, "longitud") == Num(1.0)
  {
  }

  class Formulario {
    var titulo: string
    var descripcion: string
    var categoria: string
    var archivoFoto: Option<Archivo>
    var previsualizacion: string
    var imagenBase64: string
    var lat: Coordenada
    var lng: Coordenada
    var cargando: bool
    var error: string
    /** The record of the submission whose write has not settled yet. */
    var enVuelo: Option<Doc>

    /** The input fields as the form starts and as a successful submission
        leaves them. */
    predicate Limpio()
      reads this
    {
      && titulo == "" && descripcion == "" && categoria == "baches"
      && archivoFoto.None? && previsualizacion == "" && imagenBase64 == ""
      && lat == Vacia && lng == Vacia
    }

    twostate predicate MismosTextos()
      reads this
    {
      titulo == old(titulo) && descripcion == old(descripcion) && categoria == old(categoria)
    }

    twostate predicate MismaFoto()
      reads this
    {
      archivoFoto == old(archivoFoto) && previsualizacion == old(previsualizacion) && imagenBase64 == old(imagenBase64)
    }

    twostate predicate MismaUbicacion()
      reads this
    {
      lat == old(lat) && lng == old(lng)
    }

    constructor()
      ensures Limpio() && !cargando && error == "" && enVuelo.None?
    {
      titulo := "";
      descripcion := "";
      categoria := "baches";
      archivoFoto := None;
      previsualizacion := "";
      imagenBase64 := "";
      lat := Vacia;
      lng := Vacia;
      cargando := false;
      error := "";
      enVuelo := None;
    }

    /** The submit button's `disabled`. */
    predicate BotonDeshabilitado(usuario: Option<UsuarioAuth>)
      reads this
    {
      cargando || usuario.None?
    }

    /** manejarCambioFoto, given the picked file, the outcome of the base64
        conversion and the object URL the browser would create. A rejected
        file, or a failed conversion, alerts and changes nothing. */
    method CambiarFoto(archivo: Option<Archivo>, base64: Option<string>, url: string) returns (alerta: Option<string>)
      modifies this
      ensures MismosTextos() && MismaUbicacion()
      ensures cargando == old(cargando) && error == old(error) && enVuelo == old(enVuelo)
      ensures archivo.None? ==> alerta.None? && MismaFoto()
      ensures archivo.Some? && RevisarArchivo(archivo.value).Some? ==> alerta == RevisarArchivo(archivo.value) && MismaFoto()
      ensures archivo.Some? && RevisarArchivo(archivo.value).None? && base64.None? ==> alerta == Some(MsgConversion) && MismaFoto()
      ensures archivo.Some? && RevisarArchivo(archivo.value).None? && base64.Some? ==>
        alerta.None? && archivoFoto == archivo && previsualizacion == url && imagenBase64 == base64.value
    {
      alerta := None;
      if archivo.Some? {
        var a := archivo.value;
        if a.size > MaxBytes {
          alerta := Some(MsgMuyGrande);
          return;
        }
        if !StartsWith(a.tipo, "image/") {
          alerta := Some(MsgNoImagen);
          return;
        }
        if base64.None? {
          alerta := Some(MsgConversion);
          return;
        }
        archivoFoto := archivo;
        previsualizacion := url;
        imagenBase64 := base64.value;
      }
    }

    /** eliminarFoto */
    method EliminarFoto()
      modifies this
      ensures archivoFoto.None? && previsualizacion == "" && imagenBase64 == ""
      ensures MismosTextos() && MismaUbicacion()
      ensures cargando == old(cargando) && error == old(error) && enVuelo == old(enVuelo)
    {
      archivoFoto := None;
      previsualizacion := "";
      imagenBase64 := "";
    }

    /** manejarUbicacion up to the position request: the error is cleared,
        and a browser without geolocation gets an error and an alert. */
    method SolicitarUbicacion(soportada: bool) returns (alerta: Option<string>)
      modifies this
      ensures soportada ==> error == "" && alerta.None?
      ensures !soportada ==> error == MsgSinGeolocalizacion && alerta == Some(MsgSinGeolocalizacion)
      ensures MismosTextos() && MismaFoto() && MismaUbicacion()
      ensures cargando == old(cargando) && enVuelo == old(enVuelo)
    {
      error := "";
      alerta := None;
      if !soportada {
        error := MsgSinGeolocalizacion;
        alerta := Some(MsgSinGeolocalizacion);
      }
    }

    /** The position callback. */
    method UbicacionObtenida(latitude: real, longitude: real)
      modifies this
      ensures lat == En(latitude) && lng == En(longitude)
      ensures MismosTextos() && MismaFoto()
      ensures cargando == old(cargando) && error == old(error) && enVuelo == old(enVuelo)
    {
      lat := En(latitude);
      lng := En(longitude);
    }

    /** The geolocation error callback. */
    method UbicacionFallida(codigo: int) returns (alerta: string)
      modifies this
      ensures error == MensajeUbicacion(codigo) && alerta == error
      ensures MismosTextos() && MismaFoto() && MismaUbicacion()
      ensures cargando == old(cargando) && enVuelo == old(enVuelo)
    {
      var mensaje := PrefijoUbicacion;
      mensaje := mensaje + SufijoUbicacion(codigo);
      error := mensaje;
      alerta := mensaje;
    }

    /** manejarSubmit up to its await. Empty fields are checked before the
        session; either failure sets its error and issues no write.
        Otherwise exactly one `addDoc` of the assembled record is issued and
        the form is busy until it settles. The input fields are never
        touched here. */
    method Enviar(usuario: Option<UsuarioAuth>, numText: real -> string) returns (w: Option<Escritura>)
      modifies this
      ensures MismosTextos() && MismaFoto() && MismaUbicacion()
      ensures titulo == "" || descripcion == "" ==>
        error == MsgCampos && w.None? && cargando == old(cargando) && enVuelo == old(enVuelo)
      ensures titulo != "" && descripcion != "" && usuario.None? ==>
        error == MsgSinSesion && w.None? && cargando == old(cargando) && enVuelo == old(enVuelo)
      ensures titulo != "" && descripcion != "" && usuario.Some? ==>
        var r := NuevaDenuncia(titulo, descripcion, categoria, imagenBase64, lat, lng, usuario.value, numText);
        error == "" && cargando && w == Some(Agregar("denuncias", r)) && enVuelo == Some(r)
      ensures w.Some? ==> BotonDeshabilitado(usuario)
    {
      error := "";
      w := None;
      if titulo == "" || descripcion == "" {
        error := MsgCampos;
        return;
      }
      if usuario.None? {
        error := MsgSinSesion;
        return;
      }
      cargando := true;
      var registro := NuevaDenuncia(titulo, descripcion, categoria, imagenBase64, lat, lng, usuario.value, numText);
      enVuelo := Some(registro);
      w := Some(Agregar("denuncias", registro));
    }

    /** The rest of manejarSubmit once `addDoc` settled: on success the
        callback, when there is one, receives the record with its new id and
        the form is cleared; on failure the error names the message and every
        field is kept. The form is idle again either way. */
    method EnvioTerminado(resultado: Result<string, string>, hayCallback: bool) returns (entregado: Option<Doc>)
      requires enVuelo.Some?
      modifies this
      ensures !cargando && enVuelo.None?
      ensures resultado.Ok? ==> (Limpio() && error == old(error) &&
                                 entregado == (if hayCallback then Some(old(enVuelo).value["id" := Str(resultado.value)]) else None))
      ensures resultado.Err? ==> (error == PrefijoEnvio + resultado.error && entregado.None? &&
                                  MismosTextos() && MismaFoto() && MismaUbicacion())
    {
      var registro := enVuelo.value;
      entregado := None;
      match resultado {
        case Ok(id) =>
          if hayCallback {
            entregado := Some(registro["id" := Str(id)]);
          }
          titulo := "";
          descripcion := "";
          categoria := "baches";
          EliminarFoto();
          lat := Vacia;
          lng := Vacia;
        case Err(mensaje) =>
          error := PrefijoEnvio + mensaje;
      }
      cargando := false;
      enVuelo := None;
    }
  }

  /** A submission that goes through with nothing in between leaves the
      form exactly as it started: clear fields, no error, idle. */
  method EnvioCompleto(f: Formulario, u: UsuarioAuth, numText: real -> string, id: string) returns (entregado: Option<Doc>)
    requires f.titulo != "" && f.descripcion != ""
    modifies f
    ensures f.Limpio() && f.error == "" && !f.cargando && f.enVuelo.None?
    ensures entregado.Some? && Get(entregado.value, "id") == Str(id) && Get(entregado.value, "estado") == Str("pendiente")
  {
    var w := f.Enviar(Some(u), numText);
    entregado := f.EnvioTerminado(Ok(id), true);
  }
}
