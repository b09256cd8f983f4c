# Denuncia-app: the rules behind the report views

Denuncia-app is a React front end over Firebase. Citizens file incident
reports ("denuncias"). Authorities move those reports through their states.
Administrators moderate them. All of the application's logic sits inside
component bodies and event handlers. This project lifts that logic out and
states what it does.

The model has these parts:

- **Shared values.** JavaScript values as the documents carry them, with
  JavaScript truthiness, `a || b`, property access, `toLowerCase`,
  `toUpperCase`, `startsWith` and `includes` (module `Js`). Generic filter
  and map over sequences, with the subsequence relation (module `Seqs`).
- **The store as the views use it** (module `Store`). This covers
  `updateDoc`'s merge, the queries, and the normalisation of a snapshot's
  GeoPoint coordinates into plain numbers.
- **One module per core file:**
  - `Ayudantes`: the shared helpers.
  - `InicioAutoridad`: the authority dashboard.
  - `InicioAdmin`: the administrator dashboard.
  - `Administracion`: the local update page with its panel.
  - `FormularioDenuncia`: the citizen report form.
  - `Inicio`: the citizen home page and its live subscription.
  - `ListaDenuncias`: the report cards.
  - `Login` and `Registro`: the sign-in and sign-up pages.
  - `App`: the auth observer and the router.
- **`Coherencia`.** What a report written by one view looks like in the
  others.

Each view's status literals and its reading of a missing `estado` are kept
as the code has them:

- The authority view writes `en_proceso` and `resuelto`. It reads a missing
  `estado` as `pendiente`.
- The administrator view counts `resuelta`, `aprobada` and `rechazada`
  exactly. It counts a missing `estado` nowhere.
- The cards colour `en proceso`, `enproceso`, `resuelto` and `rechazado`.

Components whose fields change in place are classes:

- the authority view (`Vista`);
- the admin dashboard (`Panel`);
- the report form (`Formulario`);
- the citizen page (`Pagina`);
- the login and sign-up screens (`Pantalla`, `Registro.Formulario`);
- the shell (`Aplicacion`).

Each asynchronous handler is split at its `await`. One method runs to the
call and returns the write it issues. A second method runs when the call
settles, and its outcome is a parameter. The citizen page records each
listener it opens and closes in `historial`. Its class invariant says that
at most one listener is live, and that every cancellation closes the
listener opened just before it.

The SDK's answers are parameters of the methods that receive them. These
are the auth account, `getDoc`/`getDocs` results, snapshots, and rejected
calls with their `code` and `message`. So are the browser's answers: file
metadata, the base64 text, the object URL, the geolocation outcome, and how
a number prints (`numText`).

The sign-up page offers `ciudadano`, `admin` and `autoridad` in its select,
defaulting to `ciudadano`, and stores whichever was chosen, so anyone can
register a privileged account (`Registro.Formulario.ElegirTipo`,
`Registro.DocumentoCampos`).

## Model

| member | source | states |
|---|---|---|
| Js.IncludesIff | src/pages/InicioAutoridad.jsx:110-112 | `includes` holds exactly when the searched text occurs at some position of the string |
| Ayudantes.Porcentaje | src/utils/ayudantes.jsx:18 | 0 with nothing to divide by. Otherwise the percentage rounded half up: 2t·p ≤ 200r + t < 2t·(p+1). At most 100 when r ≤ t, and exactly 100 when every report is resolved |
| Ayudantes.ObtenerEstadisticas | src/utils/ayudantes.jsx:15-20 | total is the list length, resueltas ≤ total, the percentage lies in 0..100, is 0 for an empty list, and is resueltas/total·100 rounded half up |
| Ayudantes.TodasResueltas | src/utils/ayudantes.jsx:17-18 | resueltas equals the total exactly when every estado is 'resuelta'; then the percentage is 100 |
| Ayudantes.ResueltasAlAgregar | src/utils/ayudantes.jsx:17 | adding a report raises resueltas by one exactly when its estado is 'resuelta' |
| Ayudantes.UnaDeTres | src/utils/ayudantes.jsx:18 | concrete percentages: 1 of 3 is 33, 1 of 2 is 50, 1 of 8 is 13, nothing is 0 |
| Ayudantes.FiltrarDenuncias | src/utils/ayudantes.jsx:6-13 | the function as written: 'todas' returns the list unchanged; any other filter first evaluates the same call again |
| Ayudantes.FiltrarDenunciasNoTermina | src/utils/ayudantes.jsx:10 | for every filter other than 'todas', no bound on nested calls lets the function return |
| Ayudantes.FiltrarDenunciasCorregida | src/utils/ayudantes.jsx:6-13 | the intended result: 'todas' keeps the list; any other filter keeps exactly the reports whose estado equals it |
| Ayudantes.FiltrarDenunciasCorregidaAlAgregar | src/utils/ayudantes.jsx:12 | the corrected filter of an empty list is empty; one more report adds itself once, at the end, exactly when it passes |
| Ayudantes.FiltrarDenunciasCorregidaEnOrden | src/utils/ayudantes.jsx:12 | the intended result is a subsequence of the input, so order is kept |
| Store.AplicarActualizacion | src/pages/InicioAutoridad.jsx:64-67 | `updateDoc` overwrites the named fields, keeps every other field and every other document, and fails when the document does not exist |
| Store.NormalizarCampos | src/pages/InicioAutoridad.jsx:29-45 | `latitud` with `_lat` becomes that value and `longitud` with `_long` becomes that value. Every other field is kept. `id` is added, and a stored `id` field wins |
| Store.NormalizarNumeros | src/pages/InicioAutoridad.jsx:34-39 | plain numeric coordinates pass through normalisation unchanged |
| Store.NormalizarSnapshot | src/pages/InicioAutoridad.jsx:29-45 | the loop yields one normalised document per snapshot document, in snapshot order |
| InicioAutoridad.FiltrarPorEstado | src/pages/InicioAutoridad.jsx:103-106 | 'todas' keeps every report; any other value keeps exactly the reports whose estado, with the pending default, equals it |
| InicioAutoridad.Buscar | src/pages/InicioAutoridad.jsx:108-114 | an empty term keeps the list and reads no field. Otherwise the search throws (None) exactly when some report reaches a field that is neither text nor absent, checked in the `||` order title, description, author. Without a throw it keeps exactly the reports whose lowercased title, description or author name contains the lowercased term |
| InicioAutoridad.BuscarSinError | src/pages/InicioAutoridad.jsx:108-114 | when every report's three fields are text or absent, the search never throws |
| InicioAutoridad.LanzaCortocircuito | src/pages/InicioAutoridad.jsx:109-113 | a numeric title throws for any non-empty term and not for the empty one; a numeric description behind a matching title is never read |
| InicioAutoridad.VisiblesEnOrden | src/pages/InicioAutoridad.jsx:103-114 | for any term: the searched list is a subsequence of the status-filtered list and of the whole list; a throw comes from a report that passed the status filter |
| InicioAutoridad.FiltrarPorEstadoAlAgregar | src/pages/InicioAutoridad.jsx:103-106 | the filtered list of an empty list is empty; one more report adds itself once, at the end, exactly when it passes the filter |
| InicioAutoridad.SinEstadoEsPendiente | src/pages/InicioAutoridad.jsx:105 | a report with a missing or empty estado passes the 'pendiente' filter |
| InicioAutoridad.CalcularEstadisticas | src/pages/InicioAutoridad.jsx:116-121 | total is the number of reports |
| InicioAutoridad.EstadisticasAlAgregar | src/pages/InicioAutoridad.jsx:116-121 | one more report changes the statistics by exactly one tally step on its estado |
| InicioAutoridad.EstadisticasAcotadas | src/pages/InicioAutoridad.jsx:116-121 | pendientes + enProceso + resueltas ≤ total |
| InicioAutoridad.TablaPorCategoria | src/pages/InicioAutoridad.jsx:123-134 | each category entry equals the statistics of that category's reports, with key `categoria` or 'otro'. A category has an entry exactly when it has a report |
| InicioAutoridad.TablaAcotada | src/pages/InicioAutoridad.jsx:123-134 | in every category, pendientes + enProceso + resueltas ≤ total |
| InicioAutoridad.TablaSumaTotal | src/pages/InicioAutoridad.jsx:123-134 | the category totals add up to the number of reports |
| InicioAutoridad.ContarCategorias | src/pages/InicioAutoridad.jsx:123-134 | the forEach loop builds exactly the per-category table |
| InicioAutoridad.AccionesDisponibles | src/pages/InicioAutoridad.jsx:472-491 | 'resuelto' offers nothing. "En Proceso" is offered exactly for a missing or 'pendiente' estado. "Resolver" is offered for every other estado. Each button writes its target estado and is disabled exactly while the slot holds the report's id |
| InicioAutoridad.CambioSoloEstado | src/pages/InicioAutoridad.jsx:64-67 | the status write changes only estado and fechaActualizacion of the target, and no other report |
| InicioAutoridad.EnProcesoYaNoSeOfrece | src/pages/InicioAutoridad.jsx:474-476 | after a pending report is marked 'en_proceso', "En Proceso" is gone and "Resolver" remains |
| InicioAutoridad.Vista.constructor | src/pages/InicioAutoridad.jsx:12-16 | the initial state: no reports, 'todas', empty search, loading, empty slot |
| InicioAutoridad.Vista.AlRecibirSnapshot | src/pages/InicioAutoridad.jsx:26-48 | the list becomes the normalised snapshot in order; loading ends; nothing else changes |
| InicioAutoridad.Vista.AlFallarSuscripcion | src/pages/InicioAutoridad.jsx:49-58 | a listener or setup error ends loading and keeps the list |
| InicioAutoridad.Vista.CambiarFiltro | src/pages/InicioAutoridad.jsx:387 | sets the filter only |
| InicioAutoridad.Vista.CambiarBusqueda | src/pages/InicioAutoridad.jsx:401 | sets the search term only |
| InicioAutoridad.Vista.CambiarEstado | src/pages/InicioAutoridad.jsx:61-67 | the slot takes the id before the write; the write is `updateDoc` of estado and fechaActualizacion on that id |
| InicioAutoridad.Vista.CambioEstadoTerminado | src/pages/InicioAutoridad.jsx:68-75 | the slot is emptied on success and on failure; a failure alerts with the message |
| InicioAutoridad.UnSoloCasillero | src/pages/InicioAutoridad.jsx:61-76 | the slot is single: a second change re-enables the first report's buttons while its write is in flight, and the first to settle empties the slot |
| Administracion.ActualizarEstado | src/pages/Administracion.jsx:7 | same length and order; a matching id gets the new estado and keeps its other fields; other reports are unchanged |
| Administracion.ActualizarIdempotente | src/pages/Administracion.jsx:7 | applying the same update twice equals applying it once |
| Administracion.Pendientes | src/components/PanelAdmin.jsx:39-40 | the listed items are exactly the reports whose estado is not 'resuelta' |
| Administracion.PendientesAlAgregar | src/components/PanelAdmin.jsx:39-40 | no reports list nothing; one more report adds itself once, at the end, exactly when its estado is not 'resuelta' |
| Administracion.PendientesEnOrden | src/components/PanelAdmin.jsx:39-40 | the listed items keep the input order |
| Administracion.ResolverSacaDeLaLista | src/components/PanelAdmin.jsx:39-52 | after "Resolver" goes through the page's update, no item with that id is listed. When the id is unique, resueltas grows by exactly one |
| ListaDenuncias.ColoresEstado | src/components/ListaDenuncias.jsx:53-67 | the colour ignores case, and 'en proceso' and 'enproceso' share blue |
| ListaDenuncias.ColoresDeOtrasVistas | src/components/ListaDenuncias.jsx:53-67 | 'en_proceso', 'resuelta', 'aprobada', 'rechazada' and a missing estado fall to gray |
| ListaDenuncias.EmojisCategoria | src/components/ListaDenuncias.jsx:69-80 | the lookup lowercases its key; an unknown or missing category gets the pin |
| ListaDenuncias.ImagenOMarcador | src/components/ListaDenuncias.jsx:94-121 | `imagenURL` wins over `imagenBase64`; the placeholder appears exactly when there is no image |
| ListaDenuncias.TextosDeRespaldo | src/components/ListaDenuncias.jsx:125-152 | the title, description, author and category slots each show the field when it is truthy and otherwise 'Sin título', 'Sin descripción', 'Usuario anónimo' and 'Sin categoría'; a missing estado's badge reads 'PENDIENTE' |
| ListaDenuncias.EstadoVacio | src/components/ListaDenuncias.jsx:6-20 | a missing or empty list gives the empty state, worded by whether the filter is 'mias'; otherwise cards |
| InicioAdmin.CalcularEstadisticas | src/pages/InicioAdmin.jsx:42-49 | the two totals are the list lengths; each literal count is at most the number of reports |
| InicioAdmin.EstadisticasAlAgregar | src/pages/InicioAdmin.jsx:45-48 | one more report raises exactly the count its estado names; estados outside the four literals raise none |
| InicioAdmin.EstadisticasAcotadas | src/pages/InicioAdmin.jsx:45-48 | the four counts sum to at most the number of reports. They sum to exactly that number iff every estado is one of the four literals |
| InicioAdmin.Documentos | src/pages/InicioAdmin.jsx:33-38 | each loaded document is its data with its id, in order, with no coordinate normalisation |
| InicioAdmin.Moderacion | src/pages/InicioAdmin.jsx:58-74 | approve writes only estado 'aprobada' and reject writes only estado 'rechazada', on that report |
| InicioAdmin.SinEstadoNoModerable | src/pages/InicioAdmin.jsx:398-422 | a missing estado shows as 'pendiente', gets no moderation buttons, and is in no count |
| InicioAdmin.ModeracionCierra | src/pages/InicioAdmin.jsx:405-422 | after a moderation write the report offers no more buttons; its other fields are kept |
| InicioAdmin.UbicacionCasos | src/pages/InicioAdmin.jsx:371-377 | no location or a text location shows 'N/A'. `latitude` takes precedence and fails to render when it is not numeric. Numeric `lat`/`lng` show as coordinates |
| InicioAdmin.Panel.constructor | src/pages/InicioAdmin.jsx:13-23 | zero statistics, empty lists, loading |
| InicioAdmin.Panel.CargarDatos | src/pages/InicioAdmin.jsx:29-56 | users are loaded first, then reports; statistics are computed only when both arrive; a failure keeps what was not replaced; loading ends in every outcome |
| InicioAdmin.Panel.ModeracionTerminada | src/pages/InicioAdmin.jsx:58-74 | a successful moderation reloads everything; a failed one changes nothing |
| FormularioDenuncia.RevisarArchivo | src/components/FormularioDenuncia.jsx:81-90 | a file is accepted iff size ≤ 1048576 and the type starts with 'image/'; size is judged first |
| FormularioDenuncia.LimiteDeTamano | src/components/FormularioDenuncia.jsx:81-90 | exactly 1 MiB is accepted, one byte more is rejected, and an oversized non-image gets the size message |
| FormularioDenuncia.MensajeUbicacion | src/components/FormularioDenuncia.jsx:40-54 | the message is the fixed prefix followed by the code's suffix |
| FormularioDenuncia.MensajesUbicacionDistintos | src/components/FormularioDenuncia.jsx:42-54 | the three W3C Geolocation API codes and the default give four different messages; unknown codes share the default |
| FormularioDenuncia.RegistroCampos | src/components/FormularioDenuncia.jsx:137-149 | the record is 'pendiente', has the user's uid, the chosen category, email or 'Usuario Anónimo', the image or '', a server timestamp, exactly eleven keys and no id |
| FormularioDenuncia.UbicacionCodificada | src/components/FormularioDenuncia.jsx:142-144 | a truthy latitude gives "lat, lng" and a numeric latitud, otherwise 'Sin ubicación' and null. longitud follows its own coordinate, so latitude 0 stores 'Sin ubicación' next to a number |
| FormularioDenuncia.Formulario.constructor | src/components/FormularioDenuncia.jsx:8-16 | the form starts clear, idle and without error |
| FormularioDenuncia.Formulario.CambiarFoto | src/components/FormularioDenuncia.jsx:76-105 | a rejected file or failed conversion alerts and leaves the photo state; an accepted one sets file, preview and base64; text and location are kept |
| FormularioDenuncia.Formulario.EliminarFoto | src/components/FormularioDenuncia.jsx:107-114 | the photo state is cleared and nothing else changes |
| FormularioDenuncia.Formulario.SolicitarUbicacion | src/components/FormularioDenuncia.jsx:18-25 | the error is cleared; without geolocation support the error and the alert say so |
| FormularioDenuncia.Formulario.UbicacionObtenida | src/components/FormularioDenuncia.jsx:30-35 | the coordinates become the reported position |
| FormularioDenuncia.Formulario.UbicacionFallida | src/components/FormularioDenuncia.jsx:38-57 | the error and the alert are the code's location message |
| FormularioDenuncia.Formulario.Enviar | src/components/FormularioDenuncia.jsx:116-154 | empty fields are checked before the session. Each failure sets its error and issues no write. Otherwise exactly one `addDoc` of the assembled record is issued, the form is busy and its button disabled. The fields are untouched |
| FormularioDenuncia.Formulario.EnvioTerminado | src/components/FormularioDenuncia.jsx:154-178 | success hands the record with its new id to the callback, when there is one, and clears the form. Failure shows the prefixed message and keeps every field. The form is idle either way |
| FormularioDenuncia.EnvioCompleto | src/components/FormularioDenuncia.jsx:116-178 | a submission that goes through leaves the form as it started, and delivers a pending record with the new id |
| Inicio.ConsultaPara | src/pages/inicio.jsx:31-44 | both queries read 'denuncias' ordered by fecharegistro descending; only 'mias' filters by user |
| Inicio.ConsultaAlcance | src/pages/inicio.jsx:31-44 | under 'mias' a report matches iff it belongs to the user; otherwise every report matches |
| Inicio.Alternar | src/pages/inicio.jsx:111 | the reload's temporary filter differs from the current one |
| Inicio.Pagina.constructor | src/pages/inicio.jsx:13-16 | no reports, loading, no error, 'todas', no listener |
| Inicio.Pagina.Efecto | src/pages/inicio.jsx:19-91 | with no user only the spinner stops. A setup failure shows 'Error: ' + message. Otherwise the error is cleared and exactly one listener opens on the filter's query |
| Inicio.Pagina.Limpiar | src/pages/inicio.jsx:82-85 | the live listener, if any, is cancelled and recorded |
| Inicio.Pagina.Montar | src/pages/inicio.jsx:19-91 | the first render runs the effect: with a user and a working setup exactly one listener opens on the filter's query; with no user the spinner stops and nothing opens; a setup failure stops the spinner, opens nothing and shows 'Error: ' + message. The list and filter are kept |
| Inicio.Pagina.CambiarFiltro | src/pages/inicio.jsx:82-91 | a new value cancels the old listener before the effect opens the new one; the same value changes nothing |
| Inicio.Pagina.AlRecibirSnapshot | src/pages/inicio.jsx:52-72 | the list is replaced by the normalised snapshot in order and loading ends |
| Inicio.Pagina.AlFallarSuscripcion | src/pages/inicio.jsx:74-78 | the error is 'Error al cargar denuncias: ' + message and loading ends; the list is kept |
| Inicio.Pagina.ManejarAgregar | src/pages/inicio.jsx:93-96 | nothing changes |
| Inicio.Pagina.Recargar | src/pages/inicio.jsx:107-111 | the filter flips, the live listener is cancelled and the effect re-runs, and the original filter is returned for the timer. With a user and a working setup the spinner is on, the error cleared and one listener opens on the other filter. With no user the spinner stops and nothing opens. A setup failure stops the spinner and shows 'Error: ' + message |
| Inicio.Pagina.Desmontar | src/pages/inicio.jsx:82-85 | unmounting cancels the live listener |
| Inicio.RecargaCompleta | src/pages/inicio.jsx:107-113 | a whole reload ends on the original filter and query with the spinner on. The history shows cancel, open, cancel, open, in that order |
| Login.MensajesLogin | src/pages/Login.jsx:27-34 | three codes share the credentials message and two codes have their own. Any other code gives 'Error: ' + message, which never equals a fixed message |
| Login.Pantalla.constructor | src/pages/Login.jsx:9-10 | no error, not loading |
| Login.Pantalla.Iniciar | src/pages/Login.jsx:14-15 | the error is cleared and loading starts |
| Login.Pantalla.Terminar | src/pages/Login.jsx:19-38 | failure shows the table's message, success leaves the error, loading ends either way |
| Login.Intento | src/pages/Login.jsx:12-39 | an attempt ends not loading, with an empty error on success and the table's message on failure |
| Registro.DocumentoCampos | src/pages/Registro.jsx:28-35 | the user document has the five form fields and a server timestamp, and nothing else (not the password) |
| Registro.MensajesRegistro | src/pages/Registro.jsx:47-55 | three codes have their own, different messages; every other failure gets the generic one |
| Registro.Formulario.constructor | src/pages/Registro.jsx:9-16 | empty fields, type 'ciudadano', idle |
| Registro.Formulario.ElegirTipo | src/pages/Registro.jsx:126-135 | any of the three offered types can be chosen, the privileged ones included |
| Registro.Formulario.Iniciar | src/pages/Registro.jsx:20-21 | loading starts and the error is cleared |
| Registro.Formulario.Terminar | src/pages/Registro.jsx:23-58 | the calls made are the fixed sequence cut at the step that threw; a failure shows the table's message; loading ends |
| Registro.OrdenDeLlamadas | src/pages/Registro.jsx:23-43 | the account is created first. Sign-out follows the user document's write. Navigation to '/login' happens iff nothing threw, and only after sign-out |
| App.UsuarioDe | src/App.jsx:31-35 | the user record has the auth uid and email plus every stored field, and stored fields win |
| App.Aplicacion.constructor | src/App.jsx:12-13 | no user, loading |
| App.Aplicacion.AlCambiarSesion | src/App.jsx:18-53 | a user record is set only for an account with a document. A missing document signs out and alerts. A failed read alerts. loading ends after every callback |
| App.Rutas | src/App.jsx:59-78 | while loading every path shows the spinner. Signed out, only '/login' and '/registro' are pages and the rest redirect to '/login'. Signed in, every path but '/' redirects to '/' |
| App.Despacho | src/App.jsx:82-107 | 'admin' and 'autoridad' get their dashboards; every other type, a missing one included, gets the citizen page |
| App.GuardasCoherentes | src/App.jsx:82-107 | the authority page's guard admits whoever the router sends there. An unknown type is routed to the citizen page, whose guard denies access |
| App.PrimerArranque | src/App.jsx:29-35 | after the first callback an account with a document lands on its type's page |
| Coherencia.NoEsSinUbicacion | src/components/ListaDenuncias.jsx:157 | a "lat, lng" text never equals 'Sin ubicación' |
| Coherencia.RegistroNuevoRecibido | src/pages/inicio.jsx:52-68 | a report stored by the form comes back through the listener with its id and every field it was written with. The model gives `serverTimestamp()` and the Timestamp the listener later delivers the same value |
| Coherencia.RegistroNuevoPendiente | src/components/FormularioDenuncia.jsx:145 | a new report is pending for the authority and open to moderation, and its card is yellow |
| Coherencia.RegistroNuevoUbicacion | src/pages/InicioAdmin.jsx:371-377 | a new report's location shows 'N/A' to the administrator. The card shows the location when the latitude is truthy, the map link when both coordinates are, and an image when one was attached |
| Coherencia.RegistroNuevoEnTablaAdmin | src/pages/InicioAdmin.jsx:369-388 | the admin table reads `usuarioNombre` and `foto`, which the form never writes: no author and 'Sin foto' for every new report |
| Coherencia.SinEstadoSegunLaVista | src/pages/InicioAutoridad.jsx:118 | a report without estado is pending for the authority and in none of the administrator's counts |
| Coherencia.ResueltoNoEsResuelta | src/pages/InicioAutoridad.jsx:484 | a report the authority resolves ('resuelto') stays unresolved for the panel and is in no admin count, while its card is green |
| Coherencia.EnProcesoSegunLaVista | src/pages/InicioAutoridad.jsx:476 | the authority's 'en_proceso' is gray on the card and in no admin count |

## Left out

- The Firebase SDK's internals are not modelled: `addDoc`, `updateDoc`, `setDoc`, `getDoc(s)`, `onSnapshot`, `serverTimestamp`, and sign-in, sign-up and sign-out. Calls are values the methods return, and outcomes are parameters. `updateDoc`'s merge is the only store effect stated.
- Callback interleavings beyond the ones written out are not modelled. For example, the auth observer may fire during sign-up before `setDoc`.
- The App observer's own `signOut` can throw; that path is not modelled separately.
- src/firebase.js is not part of this model: it holds configuration only.
- These browser APIs are parameters or left out: geolocation, `FileReader`/base64 conversion, object URLs and their revocation.
- The 100 ms `setTimeout` of the reload is not modelled: the restoring call is an explicit `CambiarFiltro`.
- `alert` appears only as a returned message where it carries a computed text. The success alerts and the alerts that repeat an error text are not returned.
- Number and date formatting is left out: `toFixed`, `toLocaleDateString`, `formatearFecha` and number-to-text (the `numText` parameter).
- The authority view's pie and bar geometry and its per-status colours are left out. So are the admin badge colours and the admin user table.
- `generarIdUnico` is left out: it depends on the clock and randomness.
- Markup-only files and animations are left out. So are src/pages/Denuncias.jsx, which only passes the list through, and the mock data.
- The tabs and sidebar of the admin dashboard are left out.
- The sign-out handlers are left out: they only call the SDK and navigate.
- The trivial input setters (`setTitulo`, `setEmail` and the like) are left out.
- Js.Lower: case mapping covers ASCII and the Latin-1 letters only, not full Unicode case mapping.
- Ayudantes.Porcentaje: the percentage uses exact arithmetic rounded half up, not floating-point division and rounding.
- Numbers are exact reals: NaN and -0 are not modelled.
- Object keys are compared as values. JavaScript's string coercion of category keys and inherited `Object.prototype` keys are not modelled.
- PanelAdmin's statistics have no member of their own: the panel calls `obtenerEstadisticas` unchanged (`Ayudantes.ObtenerEstadisticas`).
- InicioAutoridad.CalcularEstadisticas: its own contract states only the total. How each report is counted is in InicioAutoridad.EstadisticasAlAgregar, and the bound is in InicioAutoridad.EstadisticasAcotadas.
- Registro.Formulario.ElegirTipo: requires one of the three offered types, because the select allows nothing else.
- InicioAutoridad.Buscar: the search throws when a field that is neither text nor absent reaches `toLowerCase`; the model returns None then and does not model the exception itself.
- InicioAutoridad.Vista.Visibles: None covers only the search's throws (src/pages/InicioAutoridad.jsx:108-114). The card markup can throw too, and the model does not capture it. At :443 `toUpperCase` fails on a truthy estado that is not text. At :465 `toFixed` fails on a truthy latitud whose longitud is not a number, for example the null that the report form stores for a zero longitude. A Some result therefore does not promise that the cards render.
- ListaDenuncias.ColorEstado, EmojiCategoria and Insignia require their field to be text or absent, because on any other value `toLowerCase` or `toUpperCase` throws.
- InicioAdmin.Ubicacion: a Firestore GeoPoint is a value whose own fields are `_lat` and `_long`; its `latitude` and `longitude` getters are not modelled. A GeoPoint-valued `ubicacion` is shown as 'N/A' in the model where the page shows coordinates.
- Ayudantes.FiltrarDenuncias takes a bound on nested calls: the unbounded evaluation is what the bound stands for.

## Findings

| source | as written | input that shows it | evidently intended | confidence | as-written member | corrected member |
|---|---|---|---|---|---|---|
| src/utils/ayudantes.jsx:10 | `filtrarDenuncias` logs the result of a call to itself with the same arguments before returning, so any filter other than 'todas' recurses until the call stack overflows and the engine throws a RangeError | `filtrarDenuncias([], 'pendiente')` | return the reports whose estado equals the filter, in order | not executed | Ayudantes.FiltrarDenunciasNoTermina | Ayudantes.FiltrarDenunciasCorregida |
