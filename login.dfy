/** The sign-in page (src/pages/Login.jsx): the error table of
    `handleLogin` and its busy flag around the one auth call. */
module Login {
  import opened Js
  import opened Store

  const MsgCredenciales := "Email o contraseña incorrectos"
  const MsgEmailInvalido := "Email inválido"
  const MsgDemasiados := "Demasiados intentos. Intenta más tarde"
  const PrefijoOtro := "Error: "

  /** The codes that all mean "wrong email or password". */
  predicate CredencialesIncorrectas(code: string)
  {
    code == "auth/user-not-found" || code == "auth/wrong-password" || code == "auth/invalid-credential"
  }

  /** handleLogin's catch block. */
  function MensajeLogin(e: ErrorSdk): string
  {
    if CredencialesIncorrectas(e.code) then MsgCredenciales
    else if e.code == "auth/invalid-email" then MsgEmailInvalido
    else if e.code == "auth/too-many-requests" then MsgDemasiados
    else PrefijoOtro + e.message
  }

  /** The table: three codes share the credentials message, two codes have
      their own, and any other code shows the SDK's message behind
      'Error: ', which can never be mistaken for one of the fixed messages. */
  lemma MensajesLogin(e: ErrorSdk)
    ensures CredencialesIncorrectas(e.code) ==> MensajeLogin(e) == MsgCredenciales
    ensures e.code == "auth/invalid-email" ==> MensajeLogin(e) == MsgEmailInvalido
    ensures e.code == "auth/too-many-requests" ==> MensajeLogin(e) == MsgDemasiados
    ensures !CredencialesIncorrectas(e.code) && e.code != "auth/invalid-email" && e.code != "auth/too-many-requests" ==>
      && MensajeLogin(e) == PrefijoOtro + e.message
      && MensajeLogin(e) != MsgCredenciales && MensajeLogin(e) != MsgEmailInvalido && MensajeLogin(e) != MsgDemasiados
  {
    var m := PrefijoOtro + e.message;
    assert m[1] == 'r';
    assert MsgCredenciales[1] == 'm' && MsgEmailInvalido[1] == 'm' && MsgDemasiados[1] == 'e';
  }

  class Pantalla {
    var error: string
    var loading: bool

    constructor()
      ensures error == "" && !loading
    {
      error := "";
      loading := false;
    }

    /** handleLogin up to its await. */
    method Iniciar()
      modifies this
      ensures error == "" && loading
    {
      error := "";
      loading := true;
    }

    /** handleLogin once the sign-in settled: success leaves the error as it
        was (the auth observer takes over), failure shows the table's
        message; the busy flag drops either way. */
    method Terminar(fallo: Option<ErrorSdk>)
      modifies this
      ensures !loading
      ensures fallo.None? ==> error == old(error)
      ensures fallo.Some? ==> error == MensajeLogin(fallo.value)
    {
      if fallo.Some? {
        error := MensajeLogin(fallo.value);
      }
      loading := false;
    }
  }

  /** One sign-in attempt from any state: the busy flag ends down, and the
      error is empty on success. */
  method Intento(p: Pantalla, fallo: Option<ErrorSdk>)
    modifies p
    ensures !p.loading
    ensures p.error == (if fallo.Some? then MensajeLogin(fallo.value) else "")
  {
    p.Iniciar();
    p.Terminar(fallo);
  }
}
