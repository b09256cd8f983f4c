/** The citizen's home page (src/pages/inicio.jsx): a live subscription to
    the reports, re-made whenever `filtro` changes, its snapshot and error
    callbacks, the reload trick and the role guard. The subscriptions made
    and cancelled are recorded in `historial`, so that the page's invariant
    can say that at most one listener is live at a time. */
module Inicio {
  import opened Js
  import opened Store

  /** A listener opened or cancelled on a query. */
  datatype Evento = Suscrita(q: Consulta) | Cancelada(q: Consulta)

  /** The query of the effect: 'mias' narrows to the user's own reports;
      both order by `fecharegistro`, newest first. */
  function ConsultaPara(filtro: string, uid: string): (q: Consulta)
    ensures q.coleccion == "denuncias" && q.ordenDesc == "fecharegistro"
    ensures q.usuarioId.Some? <==> filtro == "mias"
  {
    if filtro == "mias" then Consulta("denuncias", Some(uid), "fecharegistro")
    else Consulta("denuncias", None, "fecharegistro")
  }

  /** Under 'mias' only the user's own reports match; under any other filter
      every report does. */
  lemma ConsultaAlcance(filtro: string, uid: string, d: Doc)
    ensures filtro == "mias" ==> (Coincide(ConsultaPara(filtro, uid), d) <==> Get(d, "usuarioId") == Str(uid))
    ensures filtro != "mias" ==> Coincide(ConsultaPara(filtro, uid), d)
  {
  }

  /** The filter `recargarDenuncias` switches to for a moment. */
  function Alternar(filtro: string): (f: string)
    ensures f != filtro
  {
    if filtro == "todas" then "mias" else "todas"
  }

  /** `usuario?.tipo !== 'ciudadano'` shows the access-denied view. */
  predicate AccesoPermitido(usuario: Option<Doc>)
  {
    usuario.Some? && Get(usuario.value, "tipo") == Str("ciudadano")
  }

  const PrefijoCarga := "Error al cargar denuncias: "
  const PrefijoConfiguracion := "Error: "

  class Pagina {
    var denuncias: seq<Doc>
    var cargando: bool
    var error: string
    var filtro: string
    /** The live listener's query, if one is live. */
    var suscripcion: Option<Consulta>
    var historial: seq<Evento>

    /** Listeners open and close in turn, each cancellation closes the one
        opened just before it, and the live one is the last opened. */
    predicate Valid()
      reads this
    {
      && (forall i :: 0 <= i < |historial| ==> (historial[i].Suscrita? <==> i % 2 == 0))
      && (forall i :: 0 < i < |historial| && historial[i].Cancelada? ==> historial[i].q == historial[i - 1].q)
      && (suscripcion.Some? <==> |historial| % 2 == 1)
      && (suscripcion.Some? ==> historial[|historial| - 1] == Suscrita(suscripcion.value))
    }

    constructor()
      ensures Valid()
      ensures denuncias == [] && cargando && error == "" && filtro == "todas"
      ensures suscripcion.None? && historial == []
    {
      denuncias := [];
      cargando := true;
      error := "";
      filtro := "todas";
      suscripcion := None;
      historial := [];
    }

    /** The effect body for the current `filtro`. Without a signed-in user
        it only stops the spinner; if building the listener throws, the
        error is shown; otherwise one listener on the filter's query is
        opened. */
    method Efecto(usuario: Option<UsuarioAuth>, fallo: Option<string>)
      requires Valid() && suscripcion.None?
      modifies this
      ensures Valid()
      ensures denuncias == old(denuncias) && filtro == old(filtro)
      ensures usuario.None? ==> (!cargando && error == old(error) && suscripcion.None? && historial == old(historial))
      ensures usuario.Some? && fallo.Some? ==>
        (!cargando && error == PrefijoConfiguracion + fallo.value && suscripcion.None? && historial == old(historial))
      ensures usuario.Some? && fallo.None? ==>
        (cargando == old(cargando) && error == "" &&
         suscripcion == Some(ConsultaPara(filtro, usuario.value.uid)) &&
         historial == old(historial) + [Suscrita(ConsultaPara(filtro, usuario.value.uid))])
    {
      if usuario.None? {
        cargando := false;
        return;
      }
      error := "";
      if fallo.Some? {
        error := PrefijoConfiguracion + fallo.value;
        cargando := false;
      } else {
        var q := ConsultaPara(filtro, usuario.value.uid);
        suscripcion := Some(q);
        historial := historial + [Suscrita(q)];
      }
    }

    /** The effect's cleanup: the live listener, if any, is cancelled. */
    method Limpiar()
      requires Valid()
      modifies this
      ensures Valid() && suscripcion.None?
      ensures historial == old(historial) + (if old(suscripcion).Some? then [Cancelada(old(suscripcion).value)] else [])
      ensures denuncias == old(denuncias) && cargando == old(cargando) && error == old(error) && filtro == old(filtro)
    {
      if suscripcion.Some? {
        historial := historial + [Cancelada(suscripcion.value)];
        suscripcion := None;
      }
    }

    /** The first render runs the effect. */
    method Montar(usuario: Option<UsuarioAuth>, fallo: Option<string>)
      requires Valid() && historial == [] && suscripcion.None?
      modifies this
      ensures Valid()
      ensures denuncias == old(denuncias) && filtro == old(filtro)
      ensures usuario.Some? && fallo.None? ==>
        historial == [Suscrita(ConsultaPara(filtro, usuario.value.uid))] &&
        suscripcion == Some(ConsultaPara(filtro, usuario.value.uid)) && error == "" && cargando == old(cargando)
      ensures usuario.None? ==> !cargando && suscripcion.None? && historial == [] && error == old(error)
      ensures usuario.Some? && fallo.Some? ==>
        !cargando && suscripcion.None? && historial == [] && error == PrefijoConfiguracion + fallo.value
    {
      Efecto(usuario, fallo);
    }

    /** `setFiltro(f)`: a new value first cancels the live listener, then
        runs the effect for the new value; the same value changes nothing. */
    method CambiarFiltro(f: string, usuario: Option<UsuarioAuth>, fallo: Option<string>)
      requires Valid()
      modifies this
      ensures Valid() && filtro == f && denuncias == old(denuncias)
      ensures f == old(filtro) ==>
        (cargando == old(cargando) && error == old(error) && suscripcion == old(suscripcion) && historial == old(historial))
      ensures f != old(filtro) ==>
        var cierre := if old(suscripcion).Some? then [Cancelada(old(suscripcion).value)] else [];
        var apertura := if usuario.Some? && fallo.None? then [Suscrita(ConsultaPara(f, usuario.value.uid))] else [];
        historial == old(historial) + cierre + apertura &&
        (usuario.Some? && fallo.None? ==> suscripcion == Some(ConsultaPara(f, usuario.value.uid)) && error == "" && cargando == old(cargando)) &&
        (usuario.None? ==> suscripcion.None? && !cargando && error == old(error)) &&
        (usuario.Some? && fallo.Some? ==> suscripcion.None? && !cargando && error == PrefijoConfiguracion + fallo.value)
    {
      if f != filtro {
        Limpiar();
        filtro := f;
        Efecto(usuario, fallo);
      }
    }

    /** The snapshot callback: the list is replaced by the normalised
        documents, in snapshot order. Only the live listener delivers. */
    method AlRecibirSnapshot(snap: seq<DocSnap>)
      requires suscripcion.Some?
      modifies this
      ensures |denuncias| == |snap| && forall i :: 0 <= i < |snap| ==> denuncias[i] == Normalizar(snap[i])
      ensures !cargando
      ensures error == old(error) && filtro == old(filtro) && suscripcion == old(suscripcion) && historial == old(historial)
    {
      denuncias := NormalizarSnapshot(snap);
      cargando := false;
    }

    /** The listener's error callback. */
    method AlFallarSuscripcion(mensaje: string)
      requires suscripcion.Some?
      modifies this
      ensures error == PrefijoCarga + mensaje && !cargando
      ensures denuncias == old(denuncias) && filtro == old(filtro) && suscripcion == old(suscripcion) && historial == old(historial)
    {
      error := PrefijoCarga + mensaje;
      cargando := false;
    }

    /** manejarAgregar: the listener brings the new report, so nothing
        changes here. */
    method ManejarAgregar(nueva: Doc)
      ensures unchanged(this)
    {
    }

    /** recargarDenuncias up to its timer: spinner on, error cleared, and the
        other filter, which re-runs the effect. The original filter is
        returned; the timer hands it back to CambiarFiltro. */
    method Recargar(usuario: Option<UsuarioAuth>, fallo: Option<string>) returns (original: string)
      requires Valid()
      modifies this
      ensures Valid()
      ensures original == old(filtro) && filtro == Alternar(original)
      ensures usuario.Some? && fallo.None? ==>
        (cargando && error == "" && suscripcion == Some(ConsultaPara(filtro, usuario.value.uid)))
      ensures usuario.Some? && fallo.None? ==>
        historial == old(historial) + (if old(suscripcion).Some? then [Cancelada(old(suscripcion).value)] else [])
                                    + [Suscrita(ConsultaPara(filtro, usuario.value.uid))]
      ensures usuario.None? ==>
        !cargando && error == "" && suscripcion.None? &&
        historial == old(historial) + (if old(suscripcion).Some? then [Cancelada(old(suscripcion).value)] else [])
      ensures usuario.Some? && fallo.Some? ==>
        !cargando && error == PrefijoConfiguracion + fallo.value && suscripcion.None? &&
        historial == old(historial) + (if old(suscripcion).Some? then [Cancelada(old(suscripcion).value)] else [])
      ensures denuncias == old(denuncias)
    {
      cargando := true;
      error := "";
      original := filtro;
      CambiarFiltro(Alternar(filtro), usuario, fallo);
    }

    /** The page's unmount runs the cleanup. */
    method Desmontar()
      requires Valid()
      modifies this
      ensures Valid() && suscripcion.None?
      ensures historial == old(historial) + (if old(suscripcion).Some? then [Cancelada(old(suscripcion).value)] else [])
    {
      Limpiar();
    }
  }

  /** A whole reload with a signed-in user: the listener is cancelled and
      re-made twice, the page ends on its original filter and query, the
      spinner is on until the next snapshot, and the history records the
      four steps in order. */
  method RecargaCompleta(p: Pagina, u: UsuarioAuth)
    requires p.Valid() && p.suscripcion.Some? && p.suscripcion.value == ConsultaPara(p.filtro, u.uid)
    modifies p
    ensures p.Valid() && p.filtro == old(p.filtro) && p.cargando && p.error == ""
    ensures p.suscripcion == old(p.suscripcion)
    ensures p.historial == old(p.historial) + [
      Cancelada(old(p.suscripcion).value), Suscrita(ConsultaPara(Alternar(old(p.filtro)), u.uid)),
      Cancelada(ConsultaPara(Alternar(old(p.filtro)), u.uid)), Suscrita(old(p.suscripcion).value)]
  {
    var h0 := p.historial;
    var q0 := p.suscripcion.value;
    var original := p.Recargar(Some(u), None);
    var h1 := p.historial;
    assert h1 == h0 + [Cancelada(q0)] + [Suscrita(ConsultaPara(Alternar(original), u.uid))];
    p.CambiarFiltro(original, Some(u), None);
    assert p.historial == h1 + [Cancelada(ConsultaPara(Alternar(original), u.uid))] + [Suscrita(ConsultaPara(original, u.uid))];
  }
}
