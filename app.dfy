/** The application shell (src/App.jsx): the auth observer that turns the
    signed-in account into the `usuario` record, and the routes chosen from
    `loading`, `usuario` and its `tipo`. */
module App {
  import opened Js
  import opened Store
  import Inicio
  import InicioAutoridad

  /** The outcome of the `getDoc` on `usuarios/<uid>`. */
  datatype LecturaUsuario = Encontrado(datos: Doc) | NoExiste | FalloLectura

  /** `{ uid: user.uid, email: user.email, ...docSnap.data() }`: stored fields
      come last, so a stored `uid` or `email` wins. */
  function UsuarioDe(u: UsuarioAuth, datos: Doc): (r: Doc)
    ensures forall k :: k in datos ==> Get(r, k) == datos[k]
    ensures "uid" !in datos ==> Get(r, "uid") == Str(u.uid)
    ensures "email" !in datos ==> Get(r, "email") == u.email
    ensures r.Keys == datos.Keys + {"uid", "email"}
  {
    map["uid" := Str(u.uid), "email" := u.email] + datos
  }

  const MsgSinDatos := "Error: No se encontraron datos del usuario en la base de datos. Por favor contacta al administrador."
  const MsgErrorLectura := "Error al cargar datos del usuario"

  class Aplicacion {
    var usuario: Option<Doc>
    var loading: bool

    constructor()
      ensures usuario.None? && loading
    {
      usuario := None;
      loading := true;
    }

    /** The observer callback, given the account (or none) and, for an
        account, the outcome of reading its user document. An account without
        a document is signed out again; the spinner stops after every
        callback. */
    method AlCambiarSesion(u: Option<UsuarioAuth>, lectura: LecturaUsuario) returns (cerrarSesion: bool, alerta: Option<string>)
      modifies this
      ensures !loading
      ensures usuario.Some? <==> u.Some? && lectura.Encontrado?
      ensures usuario.Some? ==> usuario.value == UsuarioDe(u.value, lectura.datos)
      ensures cerrarSesion <==> u.Some? && lectura.NoExiste?
      ensures alerta == (if u.Some? && lectura.NoExiste? then Some(MsgSinDatos)
                         else if u.Some? && lectura.FalloLectura? then Some(MsgErrorLectura) else None)
    {
      cerrarSesion := false;
      alerta := None;
      if u.Some? {
        match lectura {
          case Encontrado(datos) =>
            usuario := Some(UsuarioDe(u.value, datos));
          case NoExiste =>
            alerta := Some(MsgSinDatos);
            cerrarSesion := true;
            usuario := None;
          case FalloLectura =>
            alerta := Some(MsgErrorLectura);
            usuario := None;
        }
      } else {
        usuario := None;
      }
      loading := false;
    }
  }

  /** What the router renders. */
  datatype Destino =
    | Cargando
    | PantallaLogin
    | PantallaRegistro
    | Redirigir(a: string)
    | VistaAdmin
    | VistaAutoridad
    | VistaCiudadano

  /** The route table for one path. */
  function Enrutar(loading: bool, usuario: Option<Doc>, ruta: string): Destino
  {
    if loading then Cargando
    else if usuario.None? then
      if ruta == "/login" then PantallaLogin
      else if ruta == "/registro" then PantallaRegistro
      else Redirigir("/login")
    else
      var tipo := Get(usuario.value, "tipo");
      if ruta != "/" then Redirigir("/")
      else if tipo == Str("admin") then VistaAdmin
      else if tipo == Str("autoridad") then VistaAutoridad
      else VistaCiudadano
  }

  /** While the first callback has not run, every path shows the spinner.
      Signed out, only '/login' and '/registro' are pages and everything
      else goes to '/login'. Signed in, '/' is the role's page and everything
      else goes to '/'. */
  lemma Rutas(loading: bool, usuario: Option<Doc>, ruta: string)
    ensures loading ==> Enrutar(loading, usuario, ruta) == Cargando
    ensures !loading && usuario.None? ==>
      ((Enrutar(loading, usuario, ruta) in {PantallaLogin, PantallaRegistro} <==> ruta in {"/login", "/registro"}) &&
       (ruta !in {"/login", "/registro"} ==> Enrutar(loading, usuario, ruta) == Redirigir("/login")))
    ensures !loading && usuario.Some? ==>
      ((ruta != "/" <==> Enrutar(loading, usuario, ruta) == Redirigir("/")) &&
       Enrutar(loading, usuario, ruta) !in {PantallaLogin, PantallaRegistro})
  {
  }

  /** Role dispatch on '/': 'admin' and 'autoridad' get their dashboards,
      every other value, a missing `tipo` included, gets the citizen page. */
  lemma Despacho(usuario: Doc)
    ensures Get(usuario, "tipo") == Str("admin") ==> Enrutar(false, Some(usuario), "/") == VistaAdmin
    ensures Get(usuario, "tipo") == Str("autoridad") ==> Enrutar(false, Some(usuario), "/") == VistaAutoridad
    ensures Get(usuario, "tipo") !in {Str("admin"), Str("autoridad")} ==> Enrutar(false, Some(usuario), "/") == VistaCiudadano
  {
  }

  /** The pages' own guards agree with the dispatch for authorities and
      citizens; a user whose `tipo` is missing or unknown is sent to the
      citizen page and that page then denies access. */
  lemma GuardasCoherentes(usuario: Doc)
    ensures Enrutar(false, Some(usuario), "/") == VistaAutoridad ==> InicioAutoridad.AccesoPermitido(Some(usuario))
    ensures Enrutar(false, Some(usuario), "/") == VistaCiudadano ==>
      (Inicio.AccesoPermitido(Some(usuario)) <==> Get(usuario, "tipo") == Str("ciudadano"))
    ensures Get(usuario, "tipo") !in {Str("admin"), Str("autoridad"), Str("ciudadano")} ==>
      Enrutar(false, Some(usuario), "/") == VistaCiudadano && !Inicio.AccesoPermitido(Some(usuario))
  {
  }

  /** After the first callback an account with a user document lands on the
      page its stored `tipo` names. */
  method PrimerArranque(u: UsuarioAuth, datos: Doc) returns (destino: Destino)
    ensures Get(datos, "tipo") == Str("autoridad") ==> destino == VistaAutoridad
    ensures Get(datos, "tipo") == Str("admin") ==> destino == VistaAdmin
    ensures Get(datos, "tipo") !in {Str("admin"), Str("autoridad")} ==> destino == VistaCiudadano
  {
    var app := new Aplicacion();
    var cerrar, alerta := app.AlCambiarSesion(Some(u), Encontrado(datos));
    destino := Enrutar(app.loading, app.usuario, "/");
  }
}
