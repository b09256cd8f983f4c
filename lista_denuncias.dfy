/** The citizen report cards (src/components/ListaDenuncias.jsx): status
    colour, category emoji, image source, optional location and map link,
    text fallbacks and the empty state. */
module ListaDenuncias {
  import opened Js

  const Amarillo := "bg-yellow-100 text-yellow-800 border-yellow-300"
  const Azul := "bg-blue-100 text-blue-800 border-blue-300"
  const Verde := "bg-green-100 text-green-800 border-green-300"
  const Rojo := "bg-red-100 text-red-800 border-red-300"
  const Gris := "bg-gray-100 text-gray-800 border-gray-300"

  /** obtenerColorEstado: `switch (estado?.toLowerCase())`. */
  function ColorEstado(estado: Value): string
    requires TextOrAbsent(estado)
  {
    if !estado.Str? then Gris
    else
      var e := Lower(estado.s);
      if e == "pendiente" then Amarillo
      else if e == "en proceso" || e == "enproceso" then Azul
      else if e == "resuelto" then Verde
      else if e == "rechazado" then Rojo
      else Gris
  }

  /** The colour ignores case, and 'en proceso' and 'enproceso' share
      blue. */
  lemma ColoresEstado(s: string)
    ensures ColorEstado(Str(s)) == ColorEstado(Str(Lower(s)))
    ensures ColorEstado(Str("en proceso")) == ColorEstado(Str("enproceso")) == Azul
    ensures ColorEstado(Str("PENDIENTE")) == Amarillo && ColorEstado(Str("Resuelto")) == Verde
  {
    LowerIdempotent(s);
    LowerSinMayusculas("en proceso");
    LowerSinMayusculas("enproceso");
    assert Lower("PENDIENTE") == "pendiente";
    assert Lower("Resuelto") == "resuelto";
  }

  /** The literals the other views write ('en_proceso', 'resuelta',
      'aprobada', 'rechazada') and a missing estado all fall to gray. */
  lemma ColoresDeOtrasVistas()
    ensures ColorEstado(Str("en_proceso")) == ColorEstado(Str("resuelta")) == ColorEstado(Str("aprobada")) == Gris
    ensures ColorEstado(Str("rechazada")) == ColorEstado(Undefined) == ColorEstado(Null) == Gris
  {
    LowerSinMayusculas("en_proceso");
    LowerSinMayusculas("resuelta");
    LowerSinMayusculas("aprobada");
    LowerSinMayusculas("rechazada");
  }

  const Emojis: map<string, string> := map[
    "baches" := "🕳️",
    "alumbrado" := "💡",
    "basura" := "🗑️",
    "agua" := "💧",
    "señalizacion" := "🚦",
    "seguridad" := "🚨",
    "otro" := "📌"
  ]

  /** obtenerEmojiCategoria: `emojis[categoria?.toLowerCase()] || '📌'`. */
  function EmojiCategoria(categoria: Value): string
    requires TextOrAbsent(categoria)
  {
    if categoria.Str? && Lower(categoria.s) in Emojis then Emojis[Lower(categoria.s)] else "📌"
  }

  /** The lookup lowercases its key; an unknown or missing category gets the
      pin. */
  lemma EmojisCategoria(s: string)
    ensures EmojiCategoria(Str(s)) == EmojiCategoria(Str(Lower(s)))
    ensures Lower(s) !in Emojis ==> EmojiCategoria(Str(s)) == "📌"
    ensures EmojiCategoria(Undefined) == EmojiCategoria(Null) == "📌"
    ensures EmojiCategoria(Str("BACHES")) == "🕳️" && EmojiCategoria(Str("otro")) == "📌"
  {
    LowerIdempotent(s);
    LowerSinMayusculas("otro");
    assert Lower("BACHES") == "baches";
  }

  /** The card's image: `imagenURL` if truthy, else `imagenBase64` if
      truthy, else none. */
  function FuenteImagen(d: Doc): Option<Value>
  {
    if Truthy(Get(d, "imagenURL")) then Some(Get(d, "imagenURL"))
    else if Truthy(Get(d, "imagenBase64")) then Some(Get(d, "imagenBase64"))
    else None
  }

  /** `!denuncia.imagenURL && !denuncia.imagenBase64` */
  predicate MuestraMarcador(d: Doc)
  {
    !Truthy(Get(d, "imagenURL")) && !Truthy(Get(d, "imagenBase64"))
  }

  /** The URL wins over the inline image, and the placeholder appears
      exactly when there is no image to show. */
  lemma ImagenOMarcador(d: Doc)
    ensures MuestraMarcador(d) <==> FuenteImagen(d).None?
    ensures Truthy(Get(d, "imagenURL")) ==> FuenteImagen(d) == Some(Get(d, "imagenURL"))
    ensures FuenteImagen(d).Some? ==> Truthy(FuenteImagen(d).value)
  {
  }

  /** `denuncia.ubicacion && denuncia.ubicacion !== 'Sin ubicación'` */
  predicate MuestraUbicacion(d: Doc)
  {
    Truthy(Get(d, "ubicacion")) && Get(d, "ubicacion") != Str("Sin ubicación")
  }

  /** `denuncia.latitud && denuncia.longitud`: a zero coordinate hides the
      link. */
  predicate MuestraEnlaceMapa(d: Doc)
  {
    Truthy(Get(d, "latitud")) && Truthy(Get(d, "longitud"))
  }

  function Titulo(d: Doc): Value
  {
    Or(Get(d, "titulo"), Str("Sin título"))
  }

  function Descripcion(d: Doc): Value
  {
    Or(Get(d, "descripcion"), Str("Sin descripción"))
  }

  function Autor(d: Doc): Value
  {
    Or(Get(d, "nombreUsuario"), Str("Usuario anónimo"))
  }

  function EtiquetaCategoria(d: Doc): Value
  {
    Or(Get(d, "categoria"), Str("Sin categoría"))
  }

  /** The status badge: `(denuncia.estado || 'Pendiente').toUpperCase()`. */
  function Insignia(d: Doc): string
    requires TextOrAbsent(Get(d, "estado"))
  {
    var e := Or(Get(d, "estado"), Str("Pendiente"));
    Upper(e.s)
  }

  /** Every text slot of the card shows something: the field when truthy,
      its fallback otherwise; the badge of a report without estado reads
      'PENDIENTE'. */
  lemma TextosDeRespaldo(d: Doc)
    ensures Truthy(Titulo(d)) && Truthy(Descripcion(d)) && Truthy(Autor(d)) && Truthy(EtiquetaCategoria(d))
    ensures !Truthy(Get(d, "titulo")) ==> Titulo(d) == Str("Sin título")
    ensures !Truthy(Get(d, "descripcion")) ==> Descripcion(d) == Str("Sin descripción")
    ensures !Truthy(Get(d, "nombreUsuario")) ==> Autor(d) == Str("Usuario anónimo")
    ensures !Truthy(Get(d, "categoria")) ==> EtiquetaCategoria(d) == Str("Sin categoría")
    ensures Truthy(Get(d, "titulo")) ==> Titulo(d) == Get(d, "titulo")
    ensures Truthy(Get(d, "descripcion")) ==> Descripcion(d) == Get(d, "descripcion")
    ensures Truthy(Get(d, "nombreUsuario")) ==> Autor(d) == Get(d, "nombreUsuario")
    ensures Truthy(Get(d, "categoria")) ==> EtiquetaCategoria(d) == Get(d, "categoria")
    ensures TextOrAbsent(Get(d, "estado")) && !Truthy(Get(d, "estado")) ==> Insignia(d) == "PENDIENTE"
  {
  }

  /** The empty state's two lines, or None when there are cards to show. */
  function MensajeVacio(ds: Option<seq<Doc>>, filtro: string): Option<(string, string)>
  {
    if ds.None? || |ds.value| == 0 then
      if filtro == "mias" then Some(("📝 No tienes denuncias aún", "Crea tu primera denuncia usando el formulario de arriba"))
      else Some(("📝 No hay denuncias registradas", "Sé el primero en reportar un problema"))
    else None
  }

  /** A missing or empty list gives the empty state, worded by whether the
      filter is 'mias'; a non-empty list gives cards. */
  lemma EstadoVacio(ds: Option<seq<Doc>>, filtro: string)
    ensures MensajeVacio(ds, filtro).Some? <==> (ds.None? || ds.value == [])
    ensures MensajeVacio(ds, filtro).Some? ==>
      (MensajeVacio(ds, filtro).value.0 == "📝 No tienes denuncias aún" <==> filtro == "mias")
  {
  }
}
