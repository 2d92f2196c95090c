# FactuFácil web client — verified model of its core

FactuFácil is a web front end for requesting electronic invoices (CFDI) for
a store purchase. A customer, or a guest, fills in the request form with
their tax data (RFC, legal name, tax regime, postcode, CFDI use, e-mail) and
a photo of the receipt. Store staff log in to a separate panel that lists
their store's requests, filters them, opens a request's detail and moves a
pending request to *Facturado* or *Rechazado*.

This project models the part of `app.js` that decides what the page does,
leaving out the DOM and HTTP glue around it:

- **Filtering the staff table** (`aplicarFiltros`). It applies up to four
  criteria one after another: exact status, an inclusive lower date bound,
  an inclusive upper date bound extended to the end of its day, and a
  case-insensitive search in the RFC, the legal name or the e-mail. The
  staged passes are a method that is proved equal to a single-pass
  specification function, `Solicitudes.Filtered`. Soundness, completeness,
  order preservation, idempotence and "no criteria is the identity" are
  proved about that function.
- **The session and role state machine.**
  - There is one in-memory session and one local-storage slot, and saving
    writes through.
  - Restoring reads the slot back, and the session's `tipo` tag chooses the
    staff, the customer or the guest panel.
  - Logout clears both and reloads.
  - A successful login stores the server's answer.
  - The state lives in a class, `Aplicacion.App`. It has one field per
    global variable of the page except `catalogos`, of which only the store
    selector's options are kept, and one per input of the login and request
    forms.
- **Permission and presentation rules.**
  - The approve/reject actions are shown only for a pending request and a
    session that is not read-only, in the table and in the detail view.
  - The CSS badge of a status.
  - Which navigation entries the guest and the non-admin staff panels hide.
  - Which view a click shows and which list fetch it starts.
- **The checks made before any request is sent.**
  - The required fields of the invoice-request, sign-up and login forms;
    text inputs are trimmed and the RFC is upper-cased.
  - The 12-character rule and the cancel-first debounce of the RFC
    auto-complete.
  - Normalisation of a staff-list answer that is not an array to the empty
    list.

The JavaScript string operations these rules use are modelled explicitly
in `JsText`: `trim` (the ECMAScript WhiteSpace and LineTerminator code
points), `toUpperCase`/`toLowerCase` (on ASCII letters), `includes`, and
`<`, `<=`, `>=` on strings (lexicographic).

Every network call is a parameter of the method that makes it:
- the method returns the request it would issue (`post`/`get`, `None`
  when the handler stops before the network);
- it receives how the call ended: `Lanzo` when it threw, `Respondio(body)`
  otherwise.

Files:
- `wrappers.dfy`: `Option`.
- `text.dfy`, module `JsText`: the string primitives.
- `solicitudes.dfy`: the request record, the filter, badges, actions and
  lookup by id.
- `sesion.dfy`: the session value, the panel choice and navigation.
- `formularios.dfy`: the forms, their payloads and submit checks, and the
  RFC lookup.
- `app.dfy`: the page state and its handlers.

Two behaviours of the code worth knowing:
- The login handler shows the customer panel for every tag other than
  `empresa`. A page reload shows the guest panel for every tag other than
  `empresa` and `cliente` (`Sesion.LoginAndRestoreAgree`).
- The store selector's options are store ids, and a query parameter that
  is not one of them leaves the store empty, and a submit made before a
  store is picked by hand is refused (`Aplicacion.EnlaceDesconocido`). The
  staff QR link carries the store's alias when it has one (app.js:815-816),
  so such a link preselects no store unless the alias is also a store id.

The customer's tax data is the single `usuario` record of the session;
app.js keeps no list of tax profiles.

## Model

| member | source | states |
|---|---|---|
| Solicitudes.FilteredSound | app.js:646-653 | every record the filter returns is in the list and meets every active criterion: status equality, `fecha >= desde`, `fecha <= hasta + 'T23:59:59'` and the lowered search text occurring in the lowered RFC, legal name or e-mail |
| Solicitudes.FilteredCount | app.js:644-653 | the filter keeps every occurrence of a matching record and drops every occurrence of a non-matching one (multiset multiplicities) |
| Solicitudes.FilteredComplete | app.js:644-653 | completeness: every record of the list that meets all active criteria is in the result |
| Solicitudes.FilteredSubsequence | app.js:644-653 | the result is an order-preserving subsequence of the cached list |
| Solicitudes.FilteredAllPass | app.js:644-653 | when every record passes, the filter returns the list unchanged |
| Solicitudes.NoCriteriaIsIdentity | app.js:644-649 | with all four filter inputs empty the result is exactly the cached list |
| Solicitudes.FilteredAppend | app.js:646-653 | filtering distributes over concatenation |
| Solicitudes.FilteredCompose | app.js:646-653 | filtering by one criterion set and then another equals filtering once by their conjunction, which is why the staged passes equal one pass |
| Solicitudes.FilteredIdempotent | app.js:644-653 | applying the same filter twice equals applying it once |
| Solicitudes.DesdeCoversItsDay | app.js:647 | the lower bound is inclusive: a record dated on the `desde` day itself, at any time, passes |
| Solicitudes.HastaCoversItsDay | app.js:648 | the upper bound reaches the end of its day: a record dated `hasta`, or `hasta` at any time up to `23:59:59`, passes |
| Aplicacion.App.AplicarFiltros | app.js:638-656 | the staged passes over a copy return exactly the single-pass filter of the cache by all four criteria, membership is "in the cache and matches", and the cache is not modified |
| Solicitudes.GetBadgeClass | app.js:948-955 | the badge is one of `pending`, `done`, `rejected`, `inactive`, and it is `inactive` exactly for a status other than the three known ones |
| Solicitudes.BadgeStatus | app.js:948-955 | a badge class stands for a known status, if for any |
| Solicitudes.BadgeRoundTrip | app.js:948-955 | reading a badge back gives the status for the three known statuses and nothing for any other, so the three known statuses get three different badges |
| Solicitudes.OfferedActions | app.js:629-632 | a row offers actions exactly when the status is `Pendiente` and the permission level is not `lectura`; then it offers both the move to `Facturado` and the move to `Rechazado`, each for that row's id, and nothing else |
| Solicitudes.ReadOnlySeesNoActions | app.js:629 | a `lectura` session sees no status-change control in any row |
| Solicitudes.ActionsOnlyFromPending | app.js:629-632 | any offered action belongs to a pending row of a non-read-only session, carries that row's id and leads to a status other than `Pendiente` |
| Solicitudes.FindIndex | app.js:852 | the lookup finds the first record with the id, or reports that no record has it |
| Aplicacion.App.VerDetalle | app.js:851-881 | an unknown id opens nothing. Otherwise the detail returned is the first record with that id, opened exactly when actions are, with exactly the actions of its table row; without a session the handler throws, and opens nothing, precisely for a pending record |
| Aplicacion.App.CargarSolicitudesEmpresa | app.js:598-609 | the list is fetched for the session's company. An array answer replaces the cache, any other answer empties it, and a failed call or a missing session leaves it unchanged |
| Aplicacion.App.CargarUsuariosEmpresa | app.js:680-691 | the same for the staff-user list |
| Aplicacion.App.CargarHistorial | app.js:561-568 | the customer history is fetched exactly when the session holds a customer record with an e-mail, and for that e-mail |
| Sesion.RestoredPanel | app.js:139-151 | a restored session shows the staff panel exactly for `empresa`, the customer panel exactly for `cliente`, the guest panel otherwise |
| Sesion.LoginPanel | app.js:225-231 | a successful login shows the staff panel exactly for `empresa` and the customer panel otherwise, never the guest panel |
| Sesion.LoginAndRestoreAgree | app.js:142-149 | login and a later reload choose the same panel exactly for the tags `empresa` and `cliente`; any other tag logs in to the customer panel and comes back as a guest |
| Aplicacion.App.constructor | app.js:9-16 | page load: the initial values of the page's globals, with the storage slot and the store options as found |
| Aplicacion.App.CargarCatalogos | app.js:88-98 | a successful catalogue answer makes the store options the empty placeholder plus the catalogue's store ids and leaves the store, regime and CFDI-use selectors reading empty; a failed or unsuccessful answer changes nothing |
| Aplicacion.App.PreseleccionarEmpresa | app.js:26-32 | a non-empty `empresa` query parameter selects that store when it is one of the selector's options and otherwise leaves the store empty; an empty parameter leaves the form untouched |
| Aplicacion.EnlaceDesconocido | app.js:26-32 | a store parameter that is none of the selector's options, followed directly by a submit, sends no request |
| Aplicacion.App.MostrarPanel | app.js:316-335 | shows the panel; the customer panel copies the customer's tax data into the request form |
| Aplicacion.App.VerificarSesion | app.js:139-151 | with a stored session it restores it and shows the panel its tag chooses, starting the staff list fetch for `empresa`; without one nothing changes; the write-through invariant is kept |
| Aplicacion.App.GuardarSesion | app.js:153-156 | the session and the storage slot both become the saved value |
| Aplicacion.App.ReiniciarPantalla | app.js:9-10 | the reload's login-screen state: guest tab, no session, no panel, no view, empty login inputs |
| Aplicacion.App.ReiniciarDatos | app.js:12-16 | the reload's data state: empty lists, empty form and staged files, no pending lookup |
| Aplicacion.App.Logout | app.js:158-162 | the session and the slot are both empty and the reloaded page is in its initial state |
| Aplicacion.App.CargarPagina | app.js:21-33 | the load handler: the store options become the catalogue's on a successful fetch and stay the page's own otherwise; the stored session is restored on the panel its tag chooses, with the staff list fetch exactly for `empresa`; the empty form is prefilled for the customer panel and a non-empty `empresa` parameter then preselects the store when it is an option and leaves it empty otherwise |
| Aplicacion.App.Recargar | app.js:9-33 | a reload keeps the storage slot, returns the login screen, lists, staged files and pending lookup to their load values and runs the load handler again, with the same outcome for options, session, panel, fetch flag and form |
| Aplicacion.GuardarYRecargar | app.js:139-156 | save then reload gives back the saved session, on the panel its tag chooses |
| Aplicacion.App.ContinuarInvitado | app.js:199-202 | stores and shows `{ tipo: 'invitado' }`, the value a reload restores as a guest |
| Aplicacion.App.SelectTipoLogin | app.js:167-168 | selects the login tab |
| Formularios.LoginGateSpec | app.js:205-211 | the login is sent exactly when the trimmed user is not empty and the password is not empty. The staff endpoint is used exactly on the `empresa` tab, with the trimmed user and the password as typed. A rejection says `Completa todos los campos` |
| Aplicacion.App.Login | app.js:204-240 | sends exactly what the login check lets through. On a successful answer the answer becomes the session, it is written through and the login panel for its tag is shown; otherwise nothing changes |
| Aplicacion.App.IniciarSesion | app.js:225-231 | the success path of login: session, slot, panel and form prefill, and the staff list fetch for `empresa` |
| Formularios.RegistroGateSpec | app.js:252-267 | sign-up is sent exactly when the trimmed e-mail, RFC and legal name and the untrimmed password are non-empty; the payload is the normalised form; a rejection says `Completa los campos obligatorios` |
| Formularios.BlankPasswordAccepted | app.js:255-267 | the password alone is not trimmed: a password of blanks is accepted where an e-mail of blanks is rejected |
| Aplicacion.App.Registrar | app.js:252-287 | sends exactly what the sign-up check lets through. On success it selects the customer login tab with the e-mail as sent; otherwise the login inputs are unchanged |
| Formularios.SolicitudGateSpec | app.js:488-513 | the request is sent exactly when a store is selected, the RFC, legal name and e-mail are not blank and a receipt is staged. The first failing check picks the message. The payload carries the staged files and the store |
| Formularios.SolicitudPayloadIsNormal | app.js:489-503 | the payload is already normal: rebuilding it from its own fields gives it back, so its text fields are trimmed and its RFC upper-case |
| Formularios.UpperTrimFixpoint | app.js:491 | trimming and upper-casing the RFC reaches a fixed point |
| Aplicacion.App.EnviarSolicitud | app.js:488-531 | a rejected form sends nothing and changes nothing. Otherwise the normalised payload is posted, and the form and staged files are cleared exactly when the server accepts |
| Formularios.LimpioIsRejected | app.js:505-508 | a cleared form fails the submit check with `Completa los campos obligatorios` until it is filled in again |
| Aplicacion.App.LimpiarFormulario | app.js:533-556 | the form is cleared and both staged files are dropped |
| Formularios.Prefill | app.js:323-335 | a customer record with an RFC overwrites the RFC, legal name, regime, postcode, CFDI use and e-mail of the form with the record's; without one the form is unchanged; the store, CC, amount, folio and notes are never touched |
| Aplicacion.App.PreviewTicket | app.js:458-469 | a selected receipt image becomes the staged ticket; no file leaves it as it was |
| Aplicacion.App.PreviewCsf | app.js:471-483 | the same for the tax-status document |
| Formularios.RfcLookupSpec | app.js:419-423 | a lookup is scheduled exactly when the trimmed RFC has at least 12 characters; what it looks up is trimmed, upper-case and at least 12 long |
| Aplicacion.App.BuscarDatosPorRfc | app.js:416-427 | each keystroke cancels the pending lookup and leaves pending exactly the lookup its own RFC schedules, so at most one is pending |
| Aplicacion.App.DispararBusquedaRfc | app.js:427-429 | the timer fires the pending lookup and nothing is pending afterwards |
| Formularios.OnlyLastKeystrokeCounts | app.js:416-427 | debounce: after a run of keystrokes the pending lookup is the one the last keystroke schedules, whatever came before |
| Sesion.ClickLoads | app.js:373-407 | a click shows the entry's own view. The history fetch starts exactly for `historial`; the staff-user fetch starts exactly for `usuarios-empresa` in a sidebar |
| Sesion.BottomAgreesWithSidebar | app.js:382-406 | the bottom bar and the customer sidebar do the same for every customer view |
| Sesion.GuestNeverLoadsHistory | app.js:303-313 | a guest cannot start the history fetch from any customer-sidebar or bottom-bar entry left visible |
| Sesion.StaffNavigationStaysInPanel | app.js:352-364 | the staff panel leaves only staff-sidebar entries visible, and for a non-admin none of them starts the staff-user fetch |
| Aplicacion.App.Navegar | app.js:373-407 | a click switches the active view of the region the view belongs to, leaves the other region alone and starts the fetch that view needs; an entry without a view does nothing |
| JsText.TrimSpec | app.js:205 | `trim` returns an infix with no trimmable code point at either end, removing only trimmable ones, and is empty exactly for a blank string |
| JsText.TrimStartSpec | app.js:205 | removing the leading blanks leaves a suffix that starts with a non-blank |
| JsText.TrimEndSpec | app.js:205 | removing the trailing blanks leaves a prefix that ends with a non-blank |
| JsText.TrimOfTrimmed | app.js:491 | trimming a trimmed string changes nothing |
| JsText.UpperIdempotent | app.js:491 | upper-casing twice is upper-casing once |
| JsText.LowerIdempotent | app.js:642 | lower-casing twice is lower-casing once, so the search text, lowered once, matches the lowered fields as intended |
| JsText.UpperKeepsTrimmed | app.js:491 | upper-casing a trimmed string leaves it trimmed |
| JsText.LexPrefixNotGreater | app.js:647-648 | a string is never greater than one it is a prefix of |
| JsText.LexLessCommonPrefix | app.js:648 | a common prefix does not change how two strings compare |

## Left out

- The HTTP layer (`apiGet`, `apiPost`, `apiPut`, `apiDelete`, app.js:38-83). It is network I/O against a remote API. Each handler instead returns the request it would send and takes the outcome as a parameter.
- DOM rendering, `innerHTML` templates, class toggling, toasts and the loading overlay. These are presentation only. The table's action cells and the detail's actions are modelled as values.
- `FileReader` and the base64 encoding in `previewTicket`/`previewCSF`. This is browser I/O; a read file is an optional string.
- `formatFecha` and the `parseFloat(...).toLocaleString()` money display. They depend on locale and floating point.
- QR generation (`generarQREmpresa`), `compartirQR` and `verImagen`. These are third-party services and browser calls.
- The 800 ms timer of the RFC lookup and the answer handling inside it, and the 500 ms delay before the store is preselected. This is asynchronous scheduling; only the cancel-then-maybe-schedule rule and the firing of the pending lookup are kept.
- Aplicacion.App.Logout: the contract stops at the reloaded page's initial state; the catalogue fetch and store preselect that the load handler then runs are stated for `Recargar` only.
- `JSON.stringify`/`JSON.parse` of the stored session. This is library serialisation, taken as the identity.
- The regime and CFDI-use options that `llenarSelectsCatalogos` writes. Only the store selector's option set is modelled; `Formularios.Prefill` copies a customer's regime and CFDI use as given, where the page would read back an empty value for a key missing from the catalogue.
- `cambiarEstatus` (app.js:658-675). It sends its PUT unconditionally and then branches only on `result.success`, reloading the list on success. The permission guard lives in the renderers (app.js:629, 875), modelled in `Solicitudes.OfferedActions`.
- The staff-user dialogs (`abrirModalNuevoUsuario`, `editarUsuario`, `guardarUsuarioEmpresa`, `eliminarUsuario`) and `actualizarPerfil`. They are outside the core; the user list is modelled only as the cache `CargarUsuariosEmpresa` fills.
- The profile form and the sidebar name and avatar set by `mostrarPanelCliente`/`mostrarPanelEmpresa`. These are presentation only.
- `showRegistro`/`showLogin` and the label changes of `selectTipoLogin`. These are presentation only.
- Unicode beyond ASCII in `toUpperCase`/`toLowerCase`. The model maps only ASCII letters. That is exact for ASCII RFCs and e-mail addresses, but not for an RFC containing `Ñ` or for accented letters.
- UTF-16 code units. Strings are sequences of code points, so `<` and `length` agree with JavaScript only outside the astral planes.
- Absent or `null` JSON fields. They are modelled as the empty string (or `false`, or no customer record); a staff session's `usuario` display name is not modelled.
- Solicitudes.MatchesHasta: a `null` `fecha` makes `fecha <= hasta + 'T23:59:59'` false in JavaScript (app.js:648), while the model's empty string passes the upper bound.
- Aplicacion.App.AplicarFiltros: with a search text, a record whose RFC, legal name or e-mail is `null` makes `toLowerCase()` throw (app.js:650-652), so the table is not re-rendered; the model reads the field as empty and filters on.
- Sesion.StaffNavigationStaysInPanel: `admin` is the truthiness of the session's `admin` value, as tested by `!sesion.admin` (app.js:362). Elsewhere the code carries admin as `'Si'`/`'No'`/`1` (app.js:707, 743, 761); a server answering `'No'` would count as admin and keep the staff-user entry, which the lemma does not describe.
- Interleaving of asynchronous handlers. Each handler is one atomic step. `cargarSolicitudesEmpresa` is started without `await` (app.js:366, 667), so two overlapping answers may arrive out of order and the last to arrive wins. `clearTimeout` (app.js:417) does not cancel a lookup whose timer has already fired (app.js:427-429), so two RFC lookups can be in flight at once.
- The fields of a staff-user record (`id`, `Usuario`, `Nombre`, `Email`, `Permisos`, `Admin`, `Estado`, app.js:703-708). Only the list is modelled; no modelled handler reads a record's fields.
- Types of request ids. They are modelled as strings, compared with the strict equality of `find`. Because `verDetalle` receives the id as text from the table, numeric ids from the server would never match; the model does not represent that.
- Guest visibility of the staff sidebar. The guest panel hides entries only in the customer sidebar and the bottom bar, and whether the staff sidebar is visible to a guest comes from the page's HTML, which is not part of this model. `Sesion.GuestNeverLoadsHistory` is therefore stated for customer-surface entries only.
