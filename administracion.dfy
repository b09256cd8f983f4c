/** The authorities' dashboard page (src/pages/Administracion.jsx) and its
    panel (src/components/PanelAdmin.jsx): the local, immutable "set the
    estado of the report with this id" update, the list of unresolved
    reports and its "Resolver" action. */
module Administracion {
  import opened Js
  import opened Seqs
  import opened Ayudantes

  function Actualizado(id: Value, nuevoEstado: string): Doc -> Doc
  {
    d => if Get(d, "id") == id then d["estado" := Str(nuevoEstado)] else d
  }

  /** manejarActualizar: `prev.map(d => d.id === id ? { ...d, estado: nuevoEstado } : d)`.
      Same length and order; a report with a matching id gets the new
      estado and keeps every other field; any other report is unchanged. */
  function ActualizarEstado(ds: seq<Doc>, id: Value, nuevoEstado: string): (r: seq<Doc>)
    ensures |r| == |ds|
    ensures forall i :: 0 <= i < |ds| && Get(ds[i], "id") == id ==>
      Get(r[i], "estado") == Str(nuevoEstado) && forall k :: k != "estado" ==> Get(r[i], k) == Get(ds[i], k)
    ensures forall i :: 0 <= i < |ds| && Get(ds[i], "id") != id ==> r[i] == ds[i]
  {
    Map(ds, Actualizado(id, nuevoEstado))
  }

  /** Applying the same update twice is applying it once. */
  lemma ActualizarIdempotente(ds: seq<Doc>, id: Value, nuevoEstado: string)
    ensures ActualizarEstado(ActualizarEstado(ds, id, nuevoEstado), id, nuevoEstado) == ActualizarEstado(ds, id, nuevoEstado)
  {
    var once := ActualizarEstado(ds, id, nuevoEstado);
    var twice := ActualizarEstado(once, id, nuevoEstado);
    forall i | 0 <= i < |ds| ensures twice[i] == once[i] {
      if Get(ds[i], "id") == id {
        assert once[i] == ds[i]["estado" := Str(nuevoEstado)];
        assert Get(once[i], "id") == id;
        assert twice[i] == once[i]["estado" := Str(nuevoEstado)];
      }
    }
  }

  predicate NoResuelta(d: Doc)
  {
    !EsResuelta(d)
  }

  /** The panel's list: the reports whose estado is not exactly 'resuelta',
      in input order. */
  function Pendientes(ds: seq<Doc>): (r: seq<Doc>)
    ensures forall i :: 0 <= i < |r| ==> r[i] in ds && Get(r[i], "estado") != Str("resuelta")
    ensures forall i :: 0 <= i < |ds| && Get(ds[i], "estado") != Str("resuelta") ==> ds[i] in r
  {
    Filter(ds, NoResuelta)
  }

  lemma PendientesEnOrden(ds: seq<Doc>)
    ensures IsSubsequence(Pendientes(ds), ds)
  {
    FilterIsSubsequence(ds, NoResuelta);
  }

  /** The list grows one report at a time: each report is listed once, in
      place, exactly when its estado is not 'resuelta'. */
  lemma PendientesAlAgregar(ds: seq<Doc>, d: Doc)
    ensures Pendientes([]) == []
    ensures Pendientes(ds + [d]) == Pendientes(ds) + (if Get(d, "estado") != Str("resuelta") then [d] else [])
  {
    FilterAppend(ds, [d], NoResuelta);
    assert [d][1..] == [];
  }

  /** The "Resolver" button of a listed item: `onActualizarEstado(denuncia.id, 'resuelta')`. */
  function Resolver(d: Doc): (Value, string)
  {
    (Get(d, "id"), "resuelta")
  }

  lemma Divide(ds: seq<Doc>, i: nat)
    requires i < |ds|
    ensures ds == ds[..i] + [ds[i]] + ds[i + 1..]
  {
  }

  /** Resolving a listed item through the page's update: no report with
      that id is listed any more, and when the id is unique the panel's
      `resueltas` grows by exactly one. */
  lemma ResolverSacaDeLaLista(ds: seq<Doc>, i: nat)
    requires i < |ds| && NoResuelta(ds[i])
    ensures var (id, e) := Resolver(ds[i]); var ds' := ActualizarEstado(ds, id, e);
      forall j :: 0 <= j < |Pendientes(ds')| ==> Get(Pendientes(ds')[j], "id") != id
    ensures (forall j :: 0 <= j < |ds| && j != i ==> Get(ds[j], "id") != Get(ds[i], "id")) ==>
      var (id, e) := Resolver(ds[i]);
      ObtenerEstadisticas(ActualizarEstado(ds, id, e)).resueltas == ObtenerEstadisticas(ds).resueltas + 1
  {
    var (id, e) := Resolver(ds[i]);
    var ds' := ActualizarEstado(ds, id, e);
    forall j | 0 <= j < |Pendientes(ds')| ensures Get(Pendientes(ds')[j], "id") != id {
      var x := Pendientes(ds')[j];
      var k :| 0 <= k < |ds'| && ds'[k] == x;
      if Get(ds[k], "id") != id {
        assert x == ds[k];
      }
    }
    if forall j :: 0 <= j < |ds| && j != i ==> Get(ds[j], "id") != Get(ds[i], "id") {
      assert ds'[..i] == ds[..i];
      assert ds'[i + 1..] == ds[i + 1..];
      Divide(ds, i);
      Divide(ds', i);
      FilterAppend(ds[..i] + [ds[i]], ds[i + 1..], EsResuelta);
      FilterAppend(ds[..i], [ds[i]], EsResuelta);
      FilterAppend(ds'[..i] + [ds'[i]], ds'[i + 1..], EsResuelta);
      FilterAppend(ds'[..i], [ds'[i]], EsResuelta);
      assert EsResuelta(ds'[i]);
    }
  }
}
