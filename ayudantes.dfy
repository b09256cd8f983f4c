/** Shared helpers of the citizen views (src/utils/ayudantes.jsx):
    resolution statistics and the status filter. */
module Ayudantes {
  import opened Js
  import opened Seqs

  datatype Estadisticas = Estadisticas(total: nat, resueltas: nat, porcentaje: nat)

  /** `d.estado === 'resuelta'` */
  predicate EsResuelta(d: Doc)
  {
    Get(d, "estado") == Str("resuelta")
  }

  /** `Math.round(r / t * 100)` for `t > 0`, in exact arithmetic: a half
      rounds up. 0 when there is nothing to divide by. */
  function Porcentaje(r: nat, t: nat): (p: nat)
    ensures t == 0 ==> p == 0
    ensures t > 0 ==> 2 * t * p <= 200 * r + t < 2 * t * (p + 1)
    ensures r <= t ==> p <= 100
    ensures 0 < t == r ==> p == 100
  {
    if t > 0 then
      var p := (200 * r + t) / (2 * t);
      PorcentajeBounds(r, t, p);
      p
    else 0
  }

  lemma PorcentajeBounds(r: nat, t: nat, p: nat)
    requires t > 0 && p == (200 * r + t) / (2 * t)
    ensures 2 * t * p <= 200 * r + t < 2 * t * (p + 1)
    ensures r <= t ==> p <= 100
    ensures r == t ==> p == 100
  {
    var n := 200 * r + t;
    var q := 2 * t;
    DivBounds(n, q);
    if r <= t {
      assert n < q * 101;
      if p > 100 {
        MulMono(q, 101, p);
      }
    }
    if r == t {
      DivUnique(n, q, 100);
    }
  }

  lemma DivBounds(n: nat, q: nat)
    requires q > 0
    ensures q * (n / q) <= n < q * (n / q + 1)
  {
    assert n == q * (n / q) + n % q;
  }

  lemma MulMono(q: nat, a: nat, b: nat)
    requires a <= b
    ensures q * a <= q * b
  {
  }

  lemma DivUnique(n: nat, q: nat, k: nat)
    requires q > 0 && q * k <= n < q * k + q
    ensures n / q == k
  {
    DivBounds(n, q);
    if n / q < k {
      MulMono(q, n / q + 1, k);
    } else if n / q > k {
      MulMono(q, k + 1, n / q);
    }
  }

  /** obtenerEstadisticas: the total, the number of reports whose estado is
      exactly 'resuelta', and the rounded resolution percentage. */
  function ObtenerEstadisticas(ds: seq<Doc>): (e: Estadisticas)
    ensures e.total == |ds|
    ensures e.resueltas <= e.total
    ensures e.porcentaje <= 100
    ensures e.total == 0 ==> e.porcentaje == 0
    ensures e.total > 0 ==> 2 * e.total * e.porcentaje <= 200 * e.resueltas + e.total < 2 * e.total * (e.porcentaje + 1)
  {
    var total := |ds|;
    var resueltas := |Filter(ds, EsResuelta)|;
    Estadisticas(total, resueltas, Porcentaje(resueltas, total))
  }

  /** `resueltas` is the whole list exactly when every report is resolved,
      and then the percentage is 100. */
  lemma TodasResueltas(ds: seq<Doc>)
    ensures ObtenerEstadisticas(ds).resueltas == |ds| <==> forall i :: 0 <= i < |ds| ==> EsResuelta(ds[i])
    ensures |ds| > 0 && (forall i :: 0 <= i < |ds| ==> EsResuelta(ds[i])) ==> ObtenerEstadisticas(ds).porcentaje == 100
  {
    FilterAllIff(ds, EsResuelta);
  }

  /** A resolved report counts once: adding one to the list raises
      `resueltas` by one when it is resolved and leaves it when not. */
  lemma ResueltasAlAgregar(ds: seq<Doc>, d: Doc)
    ensures ObtenerEstadisticas(ds + [d]).resueltas == ObtenerEstadisticas(ds).resueltas + (if EsResuelta(d) then 1 else 0)
  {
    FilterAppend(ds, [d], EsResuelta);
  }

  /** Worked examples of the rounding: one of three resolved is 33 percent,
      one of eight (12.5) rounds up to 13. */
  lemma UnaDeTres()
    ensures Porcentaje(1, 3) == 33 && Porcentaje(0, 0) == 0 && Porcentaje(1, 2) == 50 && Porcentaje(1, 8) == 13
  {
  }

  /** `d.estado === filtro` */
  function ConEstado(filtro: string): Doc -> bool
  {
    d => Get(d, "estado") == Str(filtro)
  }

  /** filtrarDenuncias as written. Before it returns for any filter other
      than 'todas', the function evaluates a call to itself with the same
      arguments (inside a log statement). `pasos` bounds the number of nested
      calls the evaluation may make; None means that no value was produced
      within that bound. */
  function FiltrarDenuncias(ds: seq<Doc>, filtro: string, pasos: nat): (r: Option<seq<Doc>>)
    ensures filtro == "todas" ==> r == Some(ds)
    decreases pasos
  {
    if filtro == "todas" then Some(ds)
    else if pasos == 0 then None
    else
      match FiltrarDenuncias(ds, filtro, pasos - 1)
      case None => None
      case Some(_) => Some(Filter(ds, ConEstado(filtro)))
  }

  /** For any filter other than 'todas', no number of steps is enough:
      the call never returns. */
  lemma {:induction false} FiltrarDenunciasNoTermina(ds: seq<Doc>, filtro: string, pasos: nat)
    requires filtro != "todas"
    ensures FiltrarDenuncias(ds, filtro, pasos) == None
  {
    if pasos > 0 {
      FiltrarDenunciasNoTermina(ds, filtro, pasos - 1);
    }
  }

  /** What filtrarDenuncias evidently means to return: 'todas' keeps the
      list, any other filter keeps, in order, the reports whose estado is
      exactly that string. */
  function FiltrarDenunciasCorregida(ds: seq<Doc>, filtro: string): (r: seq<Doc>)
    ensures filtro == "todas" ==> r == ds
    ensures filtro != "todas" ==> forall i :: 0 <= i < |r| ==> r[i] in ds && Get(r[i], "estado") == Str(filtro)
    ensures filtro != "todas" ==> forall i :: 0 <= i < |ds| && Get(ds[i], "estado") == Str(filtro) ==> ds[i] in r
  {
    if filtro == "todas" then ds else Filter(ds, ConEstado(filtro))
  }

  /** The intended result grows one report at a time: each report is kept
      once, in place, exactly when it matches. */
  lemma FiltrarDenunciasCorregidaAlAgregar(ds: seq<Doc>, filtro: string, d: Doc)
    ensures FiltrarDenunciasCorregida([], filtro) == []
    ensures FiltrarDenunciasCorregida(ds + [d], filtro) ==
      FiltrarDenunciasCorregida(ds, filtro) + (if filtro == "todas" || Get(d, "estado") == Str(filtro) then [d] else [])
  {
    if filtro != "todas" {
      FilterAppend(ds, [d], ConEstado(filtro));
      assert [d][1..] == [];
    }
  }

  lemma FiltrarDenunciasCorregidaEnOrden(ds: seq<Doc>, filtro: string)
    ensures IsSubsequence(FiltrarDenunciasCorregida(ds, filtro), ds)
  {
    if filtro == "todas" {
      FilterKeepsAll(ds, d => true);
      FilterIsSubsequence(ds, d => true);
    } else {
      FilterIsSubsequence(ds, ConEstado(filtro));
    }
  }
}
