/** How the views read one another's documents. Each view uses its own
    status literals and its own idea of a missing estado; these lemmas state
    what a report written by one view looks like in the others. */
module Coherencia {
  import opened Js
  import opened Seqs
  import opened Store
  import Ayudantes
  import Administracion
  import InicioAdmin
  import InicioAutoridad
  import ListaDenuncias
  import FormularioDenuncia

  /** 'Sin ubicación' contains no comma, so no "lat, lng" text equals it. */
  lemma NoEsSinUbicacion(a: string, b: string)
    ensures a + ", " + b != "Sin ubicación"
  {
    var s := a + ", " + b;
    assert s[|a|] == ',';
    var t := "Sin ubicación";
    assert forall i :: 0 <= i < |t| ==> t[i] != ',';
  }

  /** A report the form stores, once the store gives it its id, comes
      back through the citizen listener exactly as stored. */
  lemma RegistroNuevoRecibido(titulo: string, descripcion: string, categoria: string, imagenBase64: string,
                              lat: FormularioDenuncia.Coordenada, lng: FormularioDenuncia.Coordenada,
                              u: UsuarioAuth, numText: real -> string, id: string)
    ensures var r := FormularioDenuncia.NuevaDenuncia(titulo, descripcion, categoria, imagenBase64, lat, lng, u, numText);
      Normalizar(DocSnap(id, r)) == ConId(id, r) && Get(ConId(id, r), "id") == Str(id)
  {
    var r := FormularioDenuncia.NuevaDenuncia(titulo, descripcion, categoria, imagenBase64, lat, lng, u, numText);
    FormularioDenuncia.RegistroCampos(titulo, descripcion, categoria, imagenBase64, lat, lng, u, numText);
    assert !TieneClave(Get(r, "latitud"), "_lat") && !TieneClave(Get(r, "longitud"), "_long");
  }

  /** A stored new report is pending in every view: the authority may start
      it, the administrator may moderate it, the citizen card paints it
      yellow. */
  lemma RegistroNuevoPendiente(titulo: string, descripcion: string, categoria: string, imagenBase64: string,
                               lat: FormularioDenuncia.Coordenada, lng: FormularioDenuncia.Coordenada,
                               u: UsuarioAuth, numText: real -> string, id: string)
    ensures var d := ConId(id, FormularioDenuncia.NuevaDenuncia(titulo, descripcion, categoria, imagenBase64, lat, lng, u, numText));
      && InicioAutoridad.EsPendiente(d)
      && InicioAutoridad.Ofrece(d, Null, InicioAutoridad.MarcarEnProceso)
      && InicioAdmin.OfreceModeracion(d)
      && ListaDenuncias.ColorEstado(Get(d, "estado")) == ListaDenuncias.Amarillo
  {
    var r := FormularioDenuncia.NuevaDenuncia(titulo, descripcion, categoria, imagenBase64, lat, lng, u, numText);
    var d := ConId(id, r);
    FormularioDenuncia.RegistroCampos(titulo, descripcion, categoria, imagenBase64, lat, lng, u, numText);
    assert Get(d, "estado") == Str("pendiente");
    InicioAutoridad.AccionesDisponibles(d, Null);
    LowerSinMayusculas("pendiente");
  }

  /** Where a stored new report's location and image show: the
      administrator's cell reads 'N/A', because the form stores the location
      as text; the citizen card shows the location line exactly when the
      latitude is truthy, the map link exactly when both coordinates are,
      and an image exactly when one was attached. */
  lemma RegistroNuevoUbicacion(titulo: string, descripcion: string, categoria: string, imagenBase64: string,
                               lat: FormularioDenuncia.Coordenada, lng: FormularioDenuncia.Coordenada,
                               u: UsuarioAuth, numText: real -> string, id: string)
    ensures var d := ConId(id, FormularioDenuncia.NuevaDenuncia(titulo, descripcion, categoria, imagenBase64, lat, lng, u, numText));
      && InicioAdmin.Ubicacion(d) == InicioAdmin.NoDisponible
      && (ListaDenuncias.MuestraUbicacion(d) <==> FormularioDenuncia.CoordVerdadera(lat))
      && (ListaDenuncias.MuestraEnlaceMapa(d) <==> FormularioDenuncia.CoordVerdadera(lat) && FormularioDenuncia.CoordVerdadera(lng))
      && (ListaDenuncias.FuenteImagen(d).Some? <==> imagenBase64 != "")
  {
    var r := FormularioDenuncia.NuevaDenuncia(titulo, descripcion, categoria, imagenBase64, lat, lng, u, numText);
    FormularioDenuncia.UbicacionCodificada(titulo, descripcion, categoria, imagenBase64, lat, lng, u, numText);
    FormularioDenuncia.RegistroCampos(titulo, descripcion, categoria, imagenBase64, lat, lng, u, numText);
    assert "imagenURL"[0] != "imagenBase64"[5];
    UbicacionEnVistas(id, ConId(id, r), r, lat, lng, numText, imagenBase64);
  }

  /** The same facts for any stored document that carries the form's
      location encoding and image field. */
  lemma UbicacionEnVistas(id: string, d: Doc, r: Doc, lat: FormularioDenuncia.Coordenada, lng: FormularioDenuncia.Coordenada,
                          numText: real -> string, imagenBase64: string)
    requires d == ConId(id, r) && "id" !in r
    requires "imagenURL" !in r && Get(r, "imagenBase64") == Str(imagenBase64)
    requires FormularioDenuncia.CoordVerdadera(lat) ==>
      Get(r, "ubicacion") == Str(numText(lat.n) + ", " + FormularioDenuncia.TextoCoord(lng, numText)) && Get(r, "latitud") == Num(lat.n)
    requires !FormularioDenuncia.CoordVerdadera(lat) ==> Get(r, "ubicacion") == Str("Sin ubicación") && Get(r, "latitud") == Null
    requires Truthy(Get(r, "longitud")) <==> FormularioDenuncia.CoordVerdadera(lng)
    ensures InicioAdmin.Ubicacion(d) == InicioAdmin.NoDisponible
    ensures ListaDenuncias.MuestraUbicacion(d) <==> FormularioDenuncia.CoordVerdadera(lat)
    ensures ListaDenuncias.MuestraEnlaceMapa(d) <==> FormularioDenuncia.CoordVerdadera(lat) && FormularioDenuncia.CoordVerdadera(lng)
    ensures ListaDenuncias.FuenteImagen(d).Some? <==> imagenBase64 != ""
  {
    if FormularioDenuncia.CoordVerdadera(lat) {
      NoEsSinUbicacion(FormularioDenuncia.TextoCoord(lat, numText), FormularioDenuncia.TextoCoord(lng, numText));
    }
    InicioAdmin.UbicacionCasos(d);
  }

  /** The administrator's table reads `usuarioNombre` and `foto`, the form
      writes `nombreUsuario` and `imagenBase64`: a report from the form shows
      no author and 'Sin foto' there, whatever was attached. */
  lemma RegistroNuevoEnTablaAdmin(titulo: string, descripcion: string, categoria: string, imagenBase64: string,
                                  lat: FormularioDenuncia.Coordenada, lng: FormularioDenuncia.Coordenada,
                                  u: UsuarioAuth, numText: real -> string, id: string)
    ensures var d := ConId(id, FormularioDenuncia.NuevaDenuncia(titulo, descripcion, categoria, imagenBase64, lat, lng, u, numText));
      InicioAdmin.Autor(d) == Undefined && InicioAdmin.Foto(d).None? &&
      ListaDenuncias.Autor(d) == (if Truthy(u.email) then u.email else Str("Usuario Anónimo"))
  {
    var r := FormularioDenuncia.NuevaDenuncia(titulo, descripcion, categoria, imagenBase64, lat, lng, u, numText);
    FormularioDenuncia.RegistroCampos(titulo, descripcion, categoria, imagenBase64, lat, lng, u, numText);
    assert "usuarioNombre"[0] != "nombreUsuario"[0] && "usuarioNombre"[0] != "fecharegistro"[0];
    assert "usuarioNombre" !in r && "foto" !in r;
  }

  /** A report without estado: the authority counts it as pending, the
      administrator counts it nowhere. */
  lemma SinEstadoSegunLaVista(usuarios: seq<Doc>, d: Doc)
    requires Get(d, "estado") == Undefined
    ensures InicioAutoridad.CalcularEstadisticas([d]).pendientes == 1
    ensures InicioAdmin.Suma(InicioAdmin.CalcularEstadisticas(usuarios, [d])) == 0
  {
    InicioAdmin.SinEstadoNoModerable(usuarios, d);
    assert Filter([d], InicioAutoridad.EsPendiente) == [d] + Filter([d][1..], InicioAutoridad.EsPendiente);
  }

  /** The authority writes 'resuelto', the administrator and the panel look for
      'resuelta': a report the authority resolved is in none of the
      administrator's counts, stays in the panel's pending list and does not
      count towards its percentage, while the citizen card paints it green. */
  lemma ResueltoNoEsResuelta(usuarios: seq<Doc>, c: Coleccion, id: string, ahora: string)
    requires id in c
    ensures var r := AplicarActualizacion(c, Str(id), InicioAutoridad.CamposCambio("resuelto", ahora));
      && r.Ok?
      && !Ayudantes.EsResuelta(r.value[id])
      && Administracion.Pendientes([r.value[id]]) == [r.value[id]]
      && InicioAdmin.Suma(InicioAdmin.CalcularEstadisticas(usuarios, [r.value[id]])) == 0
      && ListaDenuncias.ColorEstado(Get(r.value[id], "estado")) == ListaDenuncias.Verde
      && InicioAutoridad.EsResuelto(r.value[id])
  {
    var r := AplicarActualizacion(c, Str(id), InicioAutoridad.CamposCambio("resuelto", ahora));
    InicioAutoridad.CambioSoloEstado(c, id, "resuelto", ahora);
    var d := r.value[id];
    InicioAdmin.EstadisticasAlAgregar(usuarios, [], d);
    assert [] + [d] == [d];
    assert Filter([d], Administracion.NoResuelta) == [d] + Filter([d][1..], Administracion.NoResuelta);
    LowerSinMayusculas("resuelto");
  }

  /** The authority's 'en_proceso' is gray on the citizen card, which only
      knows 'en proceso' and 'enproceso', and is in none of the
      administrator's counts. */
  lemma EnProcesoSegunLaVista(usuarios: seq<Doc>, d: Doc)
    requires Get(d, "estado") == Str("en_proceso")
    ensures ListaDenuncias.ColorEstado(Get(d, "estado")) == ListaDenuncias.Gris
    ensures InicioAdmin.Suma(InicioAdmin.CalcularEstadisticas(usuarios, [d])) == 0
    ensures InicioAutoridad.EsEnProceso(d)
  {
    ListaDenuncias.ColoresDeOtrasVistas();
    InicioAdmin.EstadisticasAlAgregar(usuarios, [], d);
    assert [] + [d] == [d];
  }
}
