/** The sign-up page (src/pages/Registro.jsx): the user document it writes,
    the SDK calls of `handleRegistro` in their order, and its error table. */
module Registro {
  import opened Js
  import opened Store

  /** The account types the form's select offers; the first is the
      default. */
  const Tipos: seq<string> := ["ciudadano", "admin", "autoridad"]

  const MsgEmailEnUso := "Este email ya está registrado"
  const MsgClaveDebil := "La contraseña debe tener al menos 6 caracteres"
  const MsgEmailInvalido := "Email inválido"
  const MsgGenerico := "Error al registrar usuario"
  const MsgExito := "Cuenta creada exitosamente. Por favor inicia sesión."

  /** The document written to `usuarios/<uid>`. */
  function DocumentoUsuario(nombre: string, apellido: string, dni: string, email: string, tipo: string): Doc
  {
    map[
      "nombre" := Str(nombre),
      "apellido" := Str(apellido),
      "dni" := Str(dni),
      "email" := Str(email),
      "tipo" := Str(tipo),
      "fecharegistro" := ServerTimestamp
    ]
  }

  /** The document copies the five form fields and stamps the server time;
      nothing else is stored, in particular not the password. */
  lemma DocumentoCampos(nombre: string, apellido: string, dni: string, email: string, tipo: string)
    ensures var d := DocumentoUsuario(nombre, apellido, dni, email, tipo);
      && d.Keys == {"nombre", "apellido", "dni", "email", "tipo", "fecharegistro"}
      && d["nombre"] == Str(nombre) && d["apellido"] == Str(apellido) && d["dni"] == Str(dni)
      && d["email"] == Str(email) && d["tipo"] == Str(tipo) && d["fecharegistro"] == ServerTimestamp
      && "password" !in d
  {
  }

  /** handleRegistro's catch block. */
  function MensajeRegistro(e: ErrorSdk): string
  {
    if e.code == "auth/email-already-in-use" then MsgEmailEnUso
    else if e.code == "auth/weak-password" then MsgClaveDebil
    else if e.code == "auth/invalid-email" then MsgEmailInvalido
    else MsgGenerico
  }

  /** Three codes have their own message, all different, and every other
      failure, whichever step it came from, gets the generic one. */
  lemma MensajesRegistro(e: ErrorSdk)
    ensures e.code !in {"auth/email-already-in-use", "auth/weak-password", "auth/invalid-email"} ==> MensajeRegistro(e) == MsgGenerico
    ensures e.code in {"auth/email-already-in-use", "auth/weak-password", "auth/invalid-email"} ==> MensajeRegistro(e) != MsgGenerico
    ensures MensajeRegistro(ErrorSdk("auth/email-already-in-use", e.message)) != MensajeRegistro(ErrorSdk("auth/weak-password", e.message))
  {
  }

  /** A call handleRegistro makes, in the order it makes them. */
  datatype Llamada =
    | CrearCuenta(email: string, password: string)
    | Escribir(w: Escritura)
    | CerrarSesion
    | Avisar(mensaje: string)
    | Navegar(ruta: string)

  /** How far handleRegistro got: the step that threw, with the uid once the
      account exists, or the end. */
  datatype Desenlace =
    | FalloCuenta(e: ErrorSdk)
    | FalloDocumento(uid: string, e: ErrorSdk)
    | FalloCierre(uid: string, e: ErrorSdk)
    | Completo(uid: string)

  function Uid(d: Desenlace): string
  {
    if d.FalloCuenta? then "" else d.uid
  }

  /** The whole sequence of a registration that goes through. */
  function Secuencia(email: string, password: string, uid: string, documento: Doc): seq<Llamada>
  {
    [CrearCuenta(email, password), Escribir(Fijar("usuarios", uid, documento)), CerrarSesion,
     Avisar(MsgExito), Navegar("/login")]
  }

  /** How many of those calls a run with that outcome makes. */
  function Alcance(d: Desenlace): nat
  {
    match d
    case FalloCuenta(_) => 1
    case FalloDocumento(_, _) => 2
    case FalloCierre(_, _) => 3
    case Completo(_) => 5
  }

  class Formulario {
    var nombre: string
    var apellido: string
    var dni: string
    var email: string
    var password: string
    var tipo: string
    var loading: bool
    var error: string

    constructor()
      ensures nombre == "" && apellido == "" && dni == "" && email == "" && password == ""
      ensures tipo == Tipos[0] == "ciudadano" && !loading && error == ""
    {
      nombre := "";
      apellido := "";
      dni := "";
      email := "";
      password := "";
      tipo := "ciudadano";
      loading := false;
      error := "";
    }

    /** The select: any of the three types, including the privileged ones. */
    method ElegirTipo(t: string)
      requires t in Tipos
      modifies this
      ensures tipo == t && tipo in {"ciudadano", "admin", "autoridad"}
      ensures nombre == old(nombre) && apellido == old(apellido) && dni == old(dni) && email == old(email)
      ensures password == old(password) && loading == old(loading) && error == old(error)
    {
      tipo := t;
    }

    /** handleRegistro up to its first await. */
    method Iniciar()
      modifies this
      ensures loading && error == ""
      ensures nombre == old(nombre) && apellido == old(apellido) && dni == old(dni) && email == old(email)
      ensures password == old(password) && tipo == old(tipo)
    {
      loading := true;
      error := "";
    }

    /** The rest of handleRegistro: the calls it makes are the fixed
        sequence cut at the step that threw; a failure shows the table's
        message; the busy flag drops either way. */
    method Terminar(d: Desenlace) returns (llamadas: seq<Llamada>)
      modifies this
      ensures var documento := DocumentoUsuario(nombre, apellido, dni, email, tipo);
        llamadas == Secuencia(email, password, Uid(d), documento)[..Alcance(d)]
      ensures !loading
      ensures d.Completo? ==> error == old(error)
      ensures !d.Completo? ==> error == MensajeRegistro(d.e)
      ensures nombre == old(nombre) && apellido == old(apellido) && dni == old(dni) && email == old(email)
      ensures password == old(password) && tipo == old(tipo)
    {
      llamadas := [CrearCuenta(email, password)];
      match d {
        case FalloCuenta(e) =>
          error := MensajeRegistro(e);
        case FalloDocumento(uid, e) =>
          llamadas := llamadas + [Escribir(Fijar("usuarios", uid, DocumentoUsuario(nombre, apellido, dni, email, tipo)))];
          error := MensajeRegistro(e);
        case FalloCierre(uid, e) =>
          llamadas := llamadas + [Escribir(Fijar("usuarios", uid, DocumentoUsuario(nombre, apellido, dni, email, tipo)))];
          llamadas := llamadas + [CerrarSesion];
          error := MensajeRegistro(e);
        case Completo(uid) =>
          llamadas := llamadas + [Escribir(Fijar("usuarios", uid, DocumentoUsuario(nombre, apellido, dni, email, tipo)))];
          llamadas := llamadas + [CerrarSesion];
          llamadas := llamadas + [Avisar(MsgExito), Navegar("/login")];
      }
      loading := false;
    }
  }

  /** In every outcome: the account is created first; sign-out happens only
      right after the user document was written; the login page is reached
      only after sign-out, and only when nothing threw. */
  lemma OrdenDeLlamadas(email: string, password: string, documento: Doc, d: Desenlace)
    ensures var ll := Secuencia(email, password, Uid(d), documento)[..Alcance(d)];
      && ll[0] == CrearCuenta(email, password)
      && (forall i :: 0 <= i < |ll| && ll[i] == CerrarSesion ==> i > 0 && ll[i - 1] == Escribir(Fijar("usuarios", Uid(d), documento)))
      && (Navegar("/login") in ll <==> d.Completo?)
      && (Navegar("/login") in ll ==> CerrarSesion in ll)
  {
    var ll := Secuencia(email, password, Uid(d), documento)[..Alcance(d)];
    if Navegar("/login") in ll {
      var k :| 0 <= k < |ll| && ll[k] == Navegar("/login");
      assert k == 4;
      assert ll[2] == CerrarSesion;
    }
    if d.Completo? {
      assert ll[4] == Navegar("/login");
    }
  }
}
