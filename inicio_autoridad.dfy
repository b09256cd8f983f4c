/** The authority dashboard (src/pages/InicioAutoridad.jsx): live list,
    status filter, search, statistics, the per-category tally, the actions
    offered per report and the single "updating" slot. */
module InicioAutoridad {
  import opened Js
  import opened Seqs
  import opened Store

  /** `d.estado || 'pendiente'`: a missing or empty estado reads as pending. */
  function EstadoOPendiente(d: Doc): Value
  {
    Or(Get(d, "estado"), Str("pendiente"))
  }

  // ---------------------------------------------------------------------
  // Status filter and search

  function PasaFiltro(filtro: string): Doc -> bool
  {
    d => filtro == "todas" || EstadoOPendiente(d) == Str(filtro)
  }

  /** The status filter: 'todas' keeps every report; any other value keeps
      the reports whose estado, read with the pending default, equals it. */
  function FiltrarPorEstado(ds: seq<Doc>, filtro: string): (r: seq<Doc>)
    ensures filtro == "todas" ==> r == ds
    ensures filtro != "todas" ==> forall i :: 0 <= i < |r| ==> r[i] in ds && EstadoOPendiente(r[i]) == Str(filtro)
    ensures filtro != "todas" ==> forall i :: 0 <= i < |ds| && EstadoOPendiente(ds[i]) == Str(filtro) ==> ds[i] in r
  {
    if filtro == "todas" then FilterKeepsAll(ds, PasaFiltro(filtro)); Filter(ds, PasaFiltro(filtro))
    else Filter(ds, PasaFiltro(filtro))
  }

  /** `(v?.toLowerCase() || '')`: the lowercased text of a string field and
      '' for an absent one. On a value that is neither, the call throws
      (see Lanza); the value here is then never used. */
  function Buscable(v: Value): string
  {
    if v.Str? then Lower(v.s) else ""
  }

  predicate CoincideBusqueda(d: Doc, term: string)
  {
    var t := Lower(term);
    Includes(Buscable(Get(d, "titulo")), t)
    || Includes(Buscable(Get(d, "descripcion")), t)
    || Includes(Buscable(Get(d, "nombreUsuario")), t)
  }

  /** Whether testing `d` against a non-empty term throws a TypeError: the
      three fields are read left to right and `||` stops at the first match,
      so a field that is neither text nor absent throws only when it is
      reached. */
  predicate Lanza(d: Doc, term: string)
  {
    var t := Lower(term);
    var ti, de, no := Get(d, "titulo"), Get(d, "descripcion"), Get(d, "nombreUsuario");
    term != "" &&
    (!TextOrAbsent(ti) ||
     (!Includes(Buscable(ti), t) &&
      (!TextOrAbsent(de) || (!Includes(Buscable(de), t) && !TextOrAbsent(no)))))
  }

  /** The search, or None when the search itself throws. An empty term
      narrows nothing and reads no field; otherwise the search throws exactly
      when some report throws, and a report stays exactly when its lowercased
      title, description or author name contains the lowercased term. */
  function Buscar(ds: seq<Doc>, term: string): (r: Option<seq<Doc>>)
    ensures term == "" ==> r == Some(ds)
    ensures r.None? <==> exists i :: 0 <= i < |ds| && Lanza(ds[i], term)
    ensures r.Some? ==> forall i :: 0 <= i < |r.value| ==> r.value[i] in ds && CoincideBusqueda(r.value[i], term)
    ensures r.Some? ==> forall i :: 0 <= i < |ds| && CoincideBusqueda(ds[i], term) ==> ds[i] in r.value
  {
    if term == "" then Some(ds)
    else if Filter(ds, d => Lanza(d, term)) != [] then
      var e := Filter(ds, d => Lanza(d, term));
      assert e[0] in ds && Lanza(e[0], term);
      None
    else
      Some(Filter(ds, d => CoincideBusqueda(d, term)))
  }

  /** What the list shows: the search applied to the status-filtered reports,
      in their original order; only a report that passes the status filter
      can make the render throw. */
  lemma VisiblesEnOrden(ds: seq<Doc>, filtro: string, term: string)
    ensures var r := Buscar(FiltrarPorEstado(ds, filtro), term);
      r.Some? ==> IsSubsequence(r.value, FiltrarPorEstado(ds, filtro)) && IsSubsequence(r.value, ds)
    ensures Buscar(FiltrarPorEstado(ds, filtro), term).None? ==>
      exists i :: 0 <= i < |ds| && Lanza(ds[i], term) && (filtro == "todas" || EstadoOPendiente(ds[i]) == Str(filtro))
  {
    var f := FiltrarPorEstado(ds, filtro);
    FilterIsSubsequence(ds, PasaFiltro(filtro));
    var r := Buscar(f, term);
    if r.Some? {
      if term == "" {
        FilterKeepsAll(f, d => true);
        FilterIsSubsequence(f, d => true);
      } else {
        FilterIsSubsequence(f, d => CoincideBusqueda(d, term));
      }
      SubsequenceTransitive(r.value, f, ds);
    } else {
      var i :| 0 <= i < |f| && Lanza(f[i], term);
      assert f[i] in ds;
    }
  }

  /** With title, description and author all text or absent, the search
      never throws. */
  lemma BuscarSinError(ds: seq<Doc>, term: string)
    requires forall i :: 0 <= i < |ds| ==>
      TextOrAbsent(Get(ds[i], "titulo")) && TextOrAbsent(Get(ds[i], "descripcion")) && TextOrAbsent(Get(ds[i], "nombreUsuario"))
    ensures Buscar(ds, term).Some?
  {
  }

  /** A non-text title throws as soon as the term is non-empty; a non-text
      description after a matching title does not. */
  lemma LanzaCortocircuito(term: string, texto: string)
    ensures term != "" ==> Lanza(map["titulo" := Num(1.0)], term)
    ensures !Lanza(map["titulo" := Num(1.0)], "")
    ensures Lower(term) == Lower(texto) ==> !Lanza(map["titulo" := Str(texto), "descripcion" := Num(1.0)], term)
  {
    if Lower(term) == Lower(texto) {
      assert StartsWith(Lower(texto), Lower(term));
    }
  }

  /** The filtered list grows one report at a time: each report is kept
      once, in place, exactly when it passes. */
  lemma FiltrarPorEstadoAlAgregar(ds: seq<Doc>, filtro: string, d: Doc)
    ensures FiltrarPorEstado([], filtro) == []
    ensures FiltrarPorEstado(ds + [d], filtro) ==
      FiltrarPorEstado(ds, filtro) + (if filtro == "todas" || EstadoOPendiente(d) == Str(filtro) then [d] else [])
  {
    FilterAppend(ds, [d], PasaFiltro(filtro));
    assert [d][1..] == [];
    if filtro == "todas" {
      FilterKeepsAll(ds, PasaFiltro(filtro));
      FilterKeepsAll(ds + [d], PasaFiltro(filtro));
    }
  }

  /** A missing estado is kept by the 'pendiente' filter. */
  lemma SinEstadoEsPendiente(ds: seq<Doc>, i: nat)
    requires i < |ds| && !Truthy(Get(ds[i], "estado"))
    ensures ds[i] in FiltrarPorEstado(ds, "pendiente")
  {
  }

  // ---------------------------------------------------------------------
  // Statistics and the per-category tally

  /** One row of counts; the statistics object and every category entry
      have this shape. */
  datatype Conteo = Conteo(total: nat, pendientes: nat, enProceso: nat, resueltas: nat)

  const Cero := Conteo(0, 0, 0, 0)

  predicate EsPendiente(d: Doc)
  {
    EstadoOPendiente(d) == Str("pendiente")
  }

  predicate EsEnProceso(d: Doc)
  {
    Get(d, "estado") == Str("en_proceso")
  }

  predicate EsResuelto(d: Doc)
  {
    Get(d, "estado") == Str("resuelto")
  }

  /** The `estadisticas` object. */
  function CalcularEstadisticas(ds: seq<Doc>): (e: Conteo)
    ensures e.total == |ds|
  {
    Conteo(|ds|, |Filter(ds, EsPendiente)|, |Filter(ds, EsEnProceso)|, |Filter(ds, EsResuelto)|)
  }

  /** One step of the tally loop: count `d` in `c`. */
  function Contar(c: Conteo, d: Doc): Conteo
  {
    var estado := EstadoOPendiente(d);
    var c1 := c.(total := c.total + 1);
    if estado == Str("pendiente") then c1.(pendientes := c1.pendientes + 1)
    else if estado == Str("en_proceso") then c1.(enProceso := c1.enProceso + 1)
    else if estado == Str("resuelto") then c1.(resueltas := c1.resueltas + 1)
    else c1
  }

  /** The statistics of a list grow by one tally step per added report. */
  lemma EstadisticasAlAgregar(ds: seq<Doc>, d: Doc)
    ensures CalcularEstadisticas(ds + [d]) == Contar(CalcularEstadisticas(ds), d)
  {
    FilterAppend(ds, [d], EsPendiente);
    FilterAppend(ds, [d], EsEnProceso);
    FilterAppend(ds, [d], EsResuelto);
  }

  /** Pending, in progress and resolved together never exceed the total. */
  lemma {:induction false} EstadisticasAcotadas(ds: seq<Doc>)
    ensures var e := CalcularEstadisticas(ds); e.pendientes + e.enProceso + e.resueltas <= e.total
    decreases |ds|
  {
    if ds != [] {
      var init := ds[..|ds| - 1];
      assert ds == init + [ds[|ds| - 1]];
      EstadisticasAcotadas(init);
      EstadisticasAlAgregar(init, ds[|ds| - 1]);
    }
  }

  /** `d.categoria || 'otro'` */
  function Categoria(d: Doc): Value
  {
    Or(Get(d, "categoria"), Str("otro"))
  }

  function EnCategoria(k: Value): Doc -> bool
  {
    d => Categoria(d) == k
  }

  function Entrada(m: map<Value, Conteo>, k: Value): Conteo
  {
    if k in m then m[k] else Cero
  }

  /** The `categorias` dictionary after the forEach over `ds`. */
  function Tabla(ds: seq<Doc>): map<Value, Conteo>
    decreases |ds|
  {
    if ds == [] then map[]
    else
      var m := Tabla(ds[..|ds| - 1]);
      var d := ds[|ds| - 1];
      m[Categoria(d) := Contar(Entrada(m, Categoria(d)), d)]
  }

  lemma TablaPaso(ds: seq<Doc>)
    requires ds != []
    ensures var init, d := ds[..|ds| - 1], ds[|ds| - 1];
      Tabla(ds) == Tabla(init)[Categoria(d) := Contar(Entrada(Tabla(init), Categoria(d)), d)]
  {
  }

  /** Each category entry is exactly the statistics of that category's
      reports, and a category has an entry exactly when it has a report. */
  lemma {:induction false} TablaPorCategoria(ds: seq<Doc>, k: Value)
    ensures Entrada(Tabla(ds), k) == CalcularEstadisticas(Filter(ds, EnCategoria(k)))
    ensures k in Tabla(ds) <==> Filter(ds, EnCategoria(k)) != []
    decreases |ds|
  {
    if ds != [] {
      var init := ds[..|ds| - 1];
      var d := ds[|ds| - 1];
      var p := EnCategoria(k);
      assert ds == init + [d];
      TablaPorCategoria(init, k);
      TablaPaso(ds);
      FilterAppend(init, [d], p);
      assert Filter(ds, p) == Filter(init, p) + Filter([d], p);
      if Categoria(d) == k {
        assert Filter([d], p) == [d];
        EstadisticasAlAgregar(Filter(init, p), d);
        assert Entrada(Tabla(ds), k) == Contar(Entrada(Tabla(init), k), d);
      } else {
        assert Filter([d], p) == [];
        assert Filter(ds, p) == Filter(init, p);
        assert Entrada(Tabla(ds), k) == Entrada(Tabla(init), k);
      }
    }
  }

  /** In every category, pending, in progress and resolved together never
      exceed the category's total. */
  lemma TablaAcotada(ds: seq<Doc>, k: Value)
    requires k in Tabla(ds)
    ensures Tabla(ds)[k].pendientes + Tabla(ds)[k].enProceso + Tabla(ds)[k].resueltas <= Tabla(ds)[k].total
  {
    TablaPorCategoria(ds, k);
    EstadisticasAcotadas(Filter(ds, EnCategoria(k)));
  }

  /** Some key of a non-empty table. */
  ghost function UnaClave(m: map<Value, Conteo>): (k: Value)
    requires |m| != 0
    ensures k in m
  {
    var k :| k in m; k
  }

  /** The sum of the category totals, taking the keys out one by one. */
  ghost function SumaTotales(m: map<Value, Conteo>): nat
    decreases |m|
  {
    if |m| == 0 then 0
    else
      var k := UnaClave(m);
      m[k].total + SumaTotales(m - {k})
  }

  lemma QuitarClave(m: map<Value, Conteo>, k: Value)
    requires k in m
    ensures |m - {k}| == |m| - 1
  {
    assert (m - {k}).Keys == m.Keys - {k};
  }

  lemma {:induction false} SumaSinClave(m: map<Value, Conteo>, k: Value)
    requires k in m
    ensures SumaTotales(m) == m[k].total + SumaTotales(m - {k})
    decreases |m|, 1
  {
    var j := UnaClave(m);
    if j != k {
      SumaIntercambio(m, j, k);
    }
  }

  /** Taking out either of two keys first gives the same sum. */
  lemma {:induction false} SumaIntercambio(m: map<Value, Conteo>, j: Value, k: Value)
    requires j in m && k in m && j != k
    ensures m[j].total + SumaTotales(m - {j}) == m[k].total + SumaTotales(m - {k})
    decreases |m|, 0
  {
    QuitarClave(m, j);
    QuitarClave(m, k);
    var mj, mk := m - {j}, m - {k};
    assert k in mj && j in mk;
    SumaSinClave(mj, k);
    SumaSinClave(mk, j);
    assert mj - {k} == mk - {j};
  }

  lemma SumaActualizar(m: map<Value, Conteo>, k: Value, c: Conteo)
    ensures SumaTotales(m[k := c]) + Entrada(m, k).total == SumaTotales(m) + c.total
  {
    SumaSinClave(m[k := c], k);
    assert m[k := c] - {k} == m - {k};
    if k in m {
      SumaSinClave(m, k);
    } else {
      assert m - {k} == m;
    }
  }

  /** Every report is counted once: the category totals add up to the
      number of reports. */
  lemma {:induction false} TablaSumaTotal(ds: seq<Doc>)
    ensures SumaTotales(Tabla(ds)) == |ds|
    decreases |ds|
  {
    if ds != [] {
      var init := ds[..|ds| - 1];
      var d := ds[|ds| - 1];
      TablaSumaTotal(init);
      var m := Tabla(init);
      SumaActualizar(m, Categoria(d), Contar(Entrada(m, Categoria(d)), d));
    }
  }

  /** The forEach loop that builds `categorias`. */
  method ContarCategorias(ds: seq<Doc>) returns (categorias: map<Value, Conteo>)
    ensures categorias == Tabla(ds)
  {
    categorias := map[];
    var i := 0;
    while i < |ds|
      invariant 0 <= i <= |ds|
      invariant categorias == Tabla(ds[..i])
    {
      var d := ds[i];
      var cat := Or(Get(d, "categoria"), Str("otro"));
      if cat !in categorias {
        categorias := categorias[cat := Conteo(0, 0, 0, 0)];
      }
      var c := categorias[cat];
      c := c.(total := c.total + 1);
      var estado := Or(Get(d, "estado"), Str("pendiente"));
      if estado == Str("pendiente") {
        c := c.(pendientes := c.pendientes + 1);
      } else if estado == Str("en_proceso") {
        c := c.(enProceso := c.enProceso + 1);
      } else if estado == Str("resuelto") {
        c := c.(resueltas := c.resueltas + 1);
      }
      categorias := categorias[cat := c];
      assert ds[..i + 1][..i] == ds[..i];
      i := i + 1;
    }
    assert ds[..|ds|] == ds;
  }

  // ---------------------------------------------------------------------
  // Actions offered per report

  datatype Accion = MarcarEnProceso | Resolver

  /** A button: the action, the estado it writes, and whether it is
      disabled. */
  datatype Boton = Boton(accion: Accion, nuevoEstado: string, deshabilitado: bool)

  /** The action buttons of one report card, given the `actualizando` slot. */
  function Botones(d: Doc, actualizando: Value): seq<Boton>
  {
    var e := Get(d, "estado");
    var ocupado := actualizando == Get(d, "id");
    if e == Str("resuelto") then []
    else
      (if e == Str("pendiente") || !Truthy(e) then [Boton(MarcarEnProceso, "en_proceso", ocupado)] else [])
      + [Boton(Resolver, "resuelto", ocupado)]
  }

  predicate Ofrece(d: Doc, actualizando: Value, a: Accion)
  {
    exists i :: 0 <= i < |Botones(d, actualizando)| && Botones(d, actualizando)[i].accion == a
  }

  /** Which actions a report offers: none when resolved; "En Proceso" only
      when missing or pending; "Resolver" for every other estado, approved
      and rejected included. Each button writes its own target estado and is
      disabled exactly while the slot holds this report's id. */
  lemma AccionesDisponibles(d: Doc, actualizando: Value)
    ensures Get(d, "estado") == Str("resuelto") ==> Botones(d, actualizando) == []
    ensures Ofrece(d, actualizando, MarcarEnProceso) <==> (Get(d, "estado") == Str("pendiente") || !Truthy(Get(d, "estado")))
    ensures Ofrece(d, actualizando, Resolver) <==> Get(d, "estado") != Str("resuelto")
    ensures forall b :: b in Botones(d, actualizando) ==>
      && b.nuevoEstado == (if b.accion == MarcarEnProceso then "en_proceso" else "resuelto")
      && (b.deshabilitado <==> actualizando == Get(d, "id"))
  {
    var bs := Botones(d, actualizando);
    var e := Get(d, "estado");
    if e != Str("resuelto") {
      assert bs[|bs| - 1].accion == Resolver;
      if e == Str("pendiente") || !Truthy(e) {
        assert bs[0].accion == MarcarEnProceso;
      } else {
        assert |bs| == 1;
      }
    }
  }

  /** The fields `cambiarEstado` writes. */
  function CamposCambio(nuevoEstado: string, ahora: string): Doc
  {
    map["estado" := Str(nuevoEstado), "fechaActualizacion" := Str(ahora)]
  }

  /** Applying the status change alters only estado and fechaActualizacion
      of the target report, and no other report. */
  lemma CambioSoloEstado(c: Coleccion, id: string, nuevoEstado: string, ahora: string)
    requires id in c
    ensures var r := AplicarActualizacion(c, Str(id), CamposCambio(nuevoEstado, ahora));
      && r.Ok?
      && Get(r.value[id], "estado") == Str(nuevoEstado)
      && Get(r.value[id], "fechaActualizacion") == Str(ahora)
      && (forall k :: k != "estado" && k != "fechaActualizacion" ==> Get(r.value[id], k) == Get(c[id], k))
      && (forall j :: j in c && j != id ==> r.value[j] == c[j])
  {
    var r := AplicarActualizacion(c, Str(id), CamposCambio(nuevoEstado, ahora));
    forall k | k != "estado" && k != "fechaActualizacion" ensures Get(r.value[id], k) == Get(c[id], k) {
      assert k !in CamposCambio(nuevoEstado, ahora);
    }
  }

  /** Marking a pending report in progress takes "En Proceso" off its card
      and keeps "Resolver". */
  lemma EnProcesoYaNoSeOfrece(c: Coleccion, id: string, ahora: string, actualizando: Value)
    requires id in c && Get(c[id], "estado") == Str("pendiente")
    ensures var r := AplicarActualizacion(c, Str(id), CamposCambio("en_proceso", ahora));
      r.Ok? && !Ofrece(r.value[id], actualizando, MarcarEnProceso) && Ofrece(r.value[id], actualizando, Resolver)
  {
    var r := AplicarActualizacion(c, Str(id), CamposCambio("en_proceso", ahora));
    AccionesDisponibles(r.value[id], actualizando);
  }

  /** `usuario?.tipo !== 'autoridad'` shows the access-denied view. */
  predicate AccesoPermitido(usuario: Option<Doc>)
  {
    usuario.Some? && Get(usuario.value, "tipo") == Str("autoridad")
  }

  // ---------------------------------------------------------------------
  // The component's state

  class Vista {
    var denuncias: seq<Doc>
    var filtro: string
    var searchTerm: string
    var loading: bool
    /** The single "updating" slot: the id of the report being written, or
        null. */
    var actualizando: Value

    constructor ()
      ensures denuncias == [] && filtro == "todas" && searchTerm == ""
      ensures loading && actualizando == Null
    {
      denuncias := [];
      filtro := "todas";
      searchTerm := "";
      loading := true;
      actualizando := Null;
    }

    /** The snapshot callback: the list becomes the normalised snapshot, in
        order, and loading ends. */
    method AlRecibirSnapshot(snap: seq<DocSnap>)
      modifies this
      ensures |denuncias| == |snap| && forall i :: 0 <= i < |snap| ==> denuncias[i] == Normalizar(snap[i])
      ensures !loading
      ensures filtro == old(filtro) && searchTerm == old(searchTerm) && actualizando == old(actualizando)
    {
      denuncias := NormalizarSnapshot(snap);
      loading := false;
    }

    /** The listener's error callback, or a failure to set it up: loading
        ends and the list is kept. */
    method AlFallarSuscripcion()
      modifies this
      ensures !loading
      ensures denuncias == old(denuncias) && filtro == old(filtro) && searchTerm == old(searchTerm) && actualizando == old(actualizando)
    {
      loading := false;
    }

    method CambiarFiltro(f: string)
      modifies this
      ensures filtro == f
      ensures denuncias == old(denuncias) && searchTerm == old(searchTerm) && loading == old(loading) && actualizando == old(actualizando)
    {
      filtro := f;
    }

    method CambiarBusqueda(t: string)
      modifies this
      ensures searchTerm == t
      ensures denuncias == old(denuncias) && filtro == old(filtro) && loading == old(loading) && actualizando == old(actualizando)
    {
      searchTerm := t;
    }

    /** `cambiarEstado` up to its await: the slot takes the report's id and
        the partial update is issued. */
    method CambiarEstado(id: Value, nuevoEstado: string, ahora: string) returns (w: Escritura)
      modifies this
      ensures actualizando == id
      ensures w == Actualizar("denuncias", id, CamposCambio(nuevoEstado, ahora))
      ensures denuncias == old(denuncias) && filtro == old(filtro) && searchTerm == old(searchTerm) && loading == old(loading)
    {
      actualizando := id;
      w := Actualizar("denuncias", id, map["estado" := Str(nuevoEstado), "fechaActualizacion" := Str(ahora)]);
    }

    /** The rest of `cambiarEstado`, when the write settles: on failure an
        alert with the message; in both cases the slot is emptied. */
    method CambioEstadoTerminado(fallo: Option<string>) returns (alerta: Option<string>)
      modifies this
      ensures actualizando == Null
      ensures alerta == (if fallo.Some? then Some("Error al actualizar la denuncia: " + fallo.value) else None)
      ensures denuncias == old(denuncias) && filtro == old(filtro) && searchTerm == old(searchTerm) && loading == old(loading)
    {
      if fallo.Some? {
        alerta := Some("Error al actualizar la denuncia: " + fallo.value);
      } else {
        alerta := None;
      }
      actualizando := Null;
    }

    /** The cards that pass the filter and the search, or None when the
        search throws. */
    function Visibles(): Option<seq<Doc>>
      reads this
    {
      Buscar(FiltrarPorEstado(denuncias, filtro), searchTerm)
    }
  }

  /** The slot is single: a second change started before the first settles
      takes the slot, so the first report's buttons are enabled again while
      its write is still in flight, and the first write to settle empties
      the slot for both. */
  method UnSoloCasillero(a: Value, b: Value, d: Doc) returns (tras1: seq<Boton>, tras2: seq<Boton>, alFinal: Value)
    requires a != b && Get(d, "id") == a
    ensures tras1 != [] ==> forall x :: x in tras1 ==> x.deshabilitado
    ensures forall x :: x in tras2 ==> !x.deshabilitado
    ensures alFinal == Null
    ensures Get(d, "estado") != Str("resuelto") ==> tras1 != [] && |tras1| == |tras2|
  {
    var v := new Vista();
    var w1 := v.CambiarEstado(a, "en_proceso", "t1");
    tras1 := Botones(d, v.actualizando);
    var w2 := v.CambiarEstado(b, "resuelto", "t2");
    tras2 := Botones(d, v.actualizando);
    var alerta := v.CambioEstadoTerminado(None);
    alFinal := v.actualizando;
  }
}
