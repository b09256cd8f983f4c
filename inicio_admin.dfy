/** The administrator's dashboard (src/pages/InicioAdmin.jsx): one load of
    users and reports, exact-literal statistics, approve/reject writes that
    trigger a reload, and the report table's location cell. */
module InicioAdmin {
  import opened Js
  import opened Seqs
  import opened Store

  datatype Estadisticas = Estadisticas(
    totalUsuarios: nat,
    totalDenuncias: nat,
    denunciasPendientes: nat,
    denunciasResueltas: nat,
    denunciasAprobadas: nat,
    denunciasRechazadas: nat)

  /** `d.estado === e` */
  function EstadoEs(e: string): Doc -> bool
  {
    d => Get(d, "estado") == Str(e)
  }

  function Cuenta(ds: seq<Doc>, e: string): nat
  {
    |Filter(ds, EstadoEs(e))|
  }

  /** The statistics of cargarDatos: the two list lengths and, for each of
      'pendiente', 'resuelta', 'aprobada' and 'rechazada', the reports whose
      estado is exactly that string. */
  function CalcularEstadisticas(usuarios: seq<Doc>, denuncias: seq<Doc>): (e: Estadisticas)
    ensures e.totalUsuarios == |usuarios| && e.totalDenuncias == |denuncias|
    ensures e.denunciasPendientes <= e.totalDenuncias && e.denunciasResueltas <= e.totalDenuncias
    ensures e.denunciasAprobadas <= e.totalDenuncias && e.denunciasRechazadas <= e.totalDenuncias
  {
    Estadisticas(|usuarios|, |denuncias|,
      Cuenta(denuncias, "pendiente"), Cuenta(denuncias, "resuelta"),
      Cuenta(denuncias, "aprobada"), Cuenta(denuncias, "rechazada"))
  }

  function Incremento(d: Doc, e: string): nat
  {
    if Get(d, "estado") == Str(e) then 1 else 0
  }

  /** One more report raises exactly the count its estado names, and only
      when it is one of the four literals; a report without estado, or with
      'en_proceso', raises none of them. */
  lemma EstadisticasAlAgregar(usuarios: seq<Doc>, ds: seq<Doc>, d: Doc)
    ensures var a := CalcularEstadisticas(usuarios, ds); var b := CalcularEstadisticas(usuarios, ds + [d]);
      && b.totalDenuncias == a.totalDenuncias + 1
      && b.denunciasPendientes == a.denunciasPendientes + Incremento(d, "pendiente")
      && b.denunciasResueltas == a.denunciasResueltas + Incremento(d, "resuelta")
      && b.denunciasAprobadas == a.denunciasAprobadas + Incremento(d, "aprobada")
      && b.denunciasRechazadas == a.denunciasRechazadas + Incremento(d, "rechazada")
  {
    FilterAppend(ds, [d], EstadoEs("pendiente"));
    FilterAppend(ds, [d], EstadoEs("resuelta"));
    FilterAppend(ds, [d], EstadoEs("aprobada"));
    FilterAppend(ds, [d], EstadoEs("rechazada"));
  }

  function Suma(e: Estadisticas): nat
  {
    e.denunciasPendientes + e.denunciasResueltas + e.denunciasAprobadas + e.denunciasRechazadas
  }

  /** The four counts never add up to more than the reports: the literals
      exclude each other, and reports with any other estado are in none. */
  lemma {:induction false} EstadisticasAcotadas(usuarios: seq<Doc>, ds: seq<Doc>)
    ensures Suma(CalcularEstadisticas(usuarios, ds)) <= |ds|
    ensures Suma(CalcularEstadisticas(usuarios, ds)) == |ds| <==>
      forall i :: 0 <= i < |ds| ==> Get(ds[i], "estado") in {Str("pendiente"), Str("resuelta"), Str("aprobada"), Str("rechazada")}
    decreases |ds|
  {
    if ds != [] {
      var init := ds[..|ds| - 1];
      var d := ds[|ds| - 1];
      assert ds == init + [d];
      EstadisticasAcotadas(usuarios, init);
      EstadisticasAlAgregar(usuarios, init, d);
      if forall i :: 0 <= i < |ds| ==> Get(ds[i], "estado") in {Str("pendiente"), Str("resuelta"), Str("aprobada"), Str("rechazada")} {
        assert forall i :: 0 <= i < |init| ==> init[i] == ds[i];
      } else {
        var i :| 0 <= i < |ds| && Get(ds[i], "estado") !in {Str("pendiente"), Str("resuelta"), Str("aprobada"), Str("rechazada")};
        if i == |ds| - 1 {
          assert Incremento(d, "pendiente") + Incremento(d, "resuelta") + Incremento(d, "aprobada") + Incremento(d, "rechazada") == 0;
        } else {
          assert init[i] == ds[i];
        }
      }
    }
  }

  /** The outcome of cargarDatos' two reads: both lists, a failed user read
      (nothing is set), or a failed report read after the users arrived. */
  datatype Lectura =
    | Leidos(usuarios: seq<DocSnap>, denuncias: seq<DocSnap>)
    | FalloUsuarios
    | FalloDenuncias(usuarios: seq<DocSnap>)

  function ConIdDe(s: DocSnap): Doc
  {
    ConId(s.id, s.data)
  }

  /** `snap.docs.map(doc => ({ id: doc.id, ...doc.data() }))`: no
      coordinate normalisation here. */
  function Documentos(snap: seq<DocSnap>): (r: seq<Doc>)
    ensures |r| == |snap|
    ensures forall i :: 0 <= i < |snap| ==> r[i] == ConId(snap[i].id, snap[i].data)
  {
    Map(snap, ConIdDe)
  }

  /** The moderation write: `{ estado: 'aprobada' }` or `{ estado: 'rechazada' }`
      on the report with that id. */
  function Moderacion(id: Value, aprobar: bool): (w: Escritura)
    ensures w.Actualizar? && w.coleccion == "denuncias" && w.id == id
    ensures w.campos.Keys == {"estado"}
    ensures w.campos["estado"] == (if aprobar then Str("aprobada") else Str("rechazada"))
  {
    Actualizar("denuncias", id, map["estado" := if aprobar then Str("aprobada") else Str("rechazada")])
  }

  /** Moderation buttons are rendered only for an estado of exactly
      'pendiente'. */
  predicate OfreceModeracion(d: Doc)
  {
    Get(d, "estado") == Str("pendiente")
  }

  /** The status badge: `denuncia.estado || 'pendiente'`. */
  function EstadoMostrado(d: Doc): Value
  {
    Or(Get(d, "estado"), Str("pendiente"))
  }

  /** A report without estado is shown as 'pendiente' yet gets no
      moderation buttons and is in no count; an approved or rejected report
      is never offered moderation again. */
  lemma SinEstadoNoModerable(usuarios: seq<Doc>, d: Doc)
    requires Get(d, "estado") == Undefined
    ensures EstadoMostrado(d) == Str("pendiente")
    ensures !OfreceModeracion(d)
    ensures Suma(CalcularEstadisticas(usuarios, [d])) == 0
  {
    EstadisticasAlAgregar(usuarios, [], d);
    assert [] + [d] == [d];
  }

  /** Writing a moderation marks the report as moderated: no buttons are
      offered on the stored result. */
  lemma ModeracionCierra(c: Coleccion, id: Value, aprobar: bool)
    requires id.Str? && id.s in c
    ensures var w := Moderacion(id, aprobar); var r := AplicarActualizacion(c, id, w.campos);
      r.Ok? && !OfreceModeracion(r.value[id.s]) &&
      (forall k :: k != "estado" ==> Get(r.value[id.s], k) == Get(c[id.s], k))
  {
  }

  /** The author cell reads `usuarioNombre`. */
  function Autor(d: Doc): Value
  {
    Get(d, "usuarioNombre")
  }

  /** The photo cell: `denuncia.foto` when truthy, 'Sin foto' otherwise. */
  function Foto(d: Doc): Option<Value>
  {
    if Truthy(Get(d, "foto")) then Some(Get(d, "foto")) else None
  }

  /** The location cell. */
  datatype CeldaUbicacion =
    | Coordenadas(lat: real, lng: real)   // rendered with four decimals
    | NoDisponible                        // 'N/A'
    | ErrorDeRender                       // `toFixed` applied to a value that is not a number

  /** `ubicacion ? (ubicacion.latitude !== undefined ? ... : (typeof lat/lng
      === 'number' ? ... : 'N/A')) : 'N/A'`. */
  function Ubicacion(d: Doc): (c: CeldaUbicacion)
  {
    var u := Get(d, "ubicacion");
    if !Truthy(u) then NoDisponible
    else
      var la := Prop(u, "latitude");
      var lo := Prop(u, "longitude");
      if la != Undefined then
        if la.Num? && lo.Num? then Coordenadas(la.n, lo.n) else ErrorDeRender
      else
        var a := Prop(u, "lat");
        var b := Prop(u, "lng");
        if a.Num? && b.Num? then Coordenadas(a.n, b.n) else NoDisponible
  }

  /** The cell's three outcomes. Coordinates come from `latitude`/`longitude`
      when `latitude` is present, and from numeric `lat`/`lng` otherwise; a
      text location (which is what the report form stores) is 'N/A'. */
  lemma UbicacionCasos(d: Doc)
    ensures !Truthy(Get(d, "ubicacion")) ==> Ubicacion(d) == NoDisponible
    ensures Get(d, "ubicacion").Str? ==> Ubicacion(d) == NoDisponible
    ensures Ubicacion(d) == ErrorDeRender <==>
      (Truthy(Get(d, "ubicacion")) && Prop(Get(d, "ubicacion"), "latitude") != Undefined &&
       !(Prop(Get(d, "ubicacion"), "latitude").Num? && Prop(Get(d, "ubicacion"), "longitude").Num?))
    ensures forall a, b: real :: Ubicacion(map["ubicacion" := Obj(map["lat" := Num(a), "lng" := Num(b)])]) == Coordenadas(a, b)
  {
  }

  /** The dashboard's state. */
  class Panel {
    var usuarios: seq<Doc>
    var denuncias: seq<Doc>
    var estadisticas: Estadisticas
    var loading: bool

    constructor()
      ensures usuarios == [] && denuncias == [] && loading
      ensures estadisticas == Estadisticas(0, 0, 0, 0, 0, 0)
    {
      usuarios := [];
      denuncias := [];
      estadisticas := Estadisticas(0, 0, 0, 0, 0, 0);
      loading := true;
    }

    /** The state after cargarDatos settles with outcome `r`. */
    twostate predicate Cargado(r: Lectura)
      reads this
    {
      && !loading
      && match r
        case Leidos(u, ds) =>
          usuarios == Documentos(u) && denuncias == Documentos(ds) &&
          estadisticas == CalcularEstadisticas(Documentos(u), Documentos(ds))
        case FalloUsuarios =>
          usuarios == old(usuarios) && denuncias == old(denuncias) && estadisticas == old(estadisticas)
        case FalloDenuncias(u) =>
          usuarios == Documentos(u) && denuncias == old(denuncias) && estadisticas == old(estadisticas)
    }

    /** cargarDatos: users first, then reports; statistics only when both
      arrived; the spinner stops in every outcome. */
    method CargarDatos(r: Lectura)
      modifies this
      ensures Cargado(r)
      ensures estadisticas.totalDenuncias == |denuncias| || !r.Leidos?
    {
      match r {
        case FalloUsuarios =>
        case FalloDenuncias(u) =>
          usuarios := Documentos(u);
        case Leidos(u, ds) =>
          var usuariosData := Documentos(u);
          usuarios := usuariosData;
          var denunciasData := Documentos(ds);
          denuncias := denunciasData;
          estadisticas := CalcularEstadisticas(usuariosData, denunciasData);
      }
      loading := false;
    }

    /** aprobarDenuncia / rechazarDenuncia once the write settled: a
      successful write reloads everything, a failed one changes nothing. */
    method ModeracionTerminada(exito: bool, r: Lectura)
      modifies this
      ensures exito ==> Cargado(r)
      ensures !exito ==> (usuarios == old(usuarios) && denuncias == old(denuncias) &&
                          estadisticas == old(estadisticas) && loading == old(loading))
    {
      if exito {
        CargarDatos(r);
      }
    }
  }
}
