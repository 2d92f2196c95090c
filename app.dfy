/**
 * The application's global mutable state (the session and its storage
 * slot, the shown panel, the cached staff lists, the request form and
 * its staged files, the pending RFC lookup) and the handlers that change
 * it. Every network call is a parameter: the handler returns the request
 * it would issue, and receives how the call ended.
 */
module Aplicacion {
  import opened Wrappers
  import opened Solicitudes
  import opened Sesion
  import opened Formularios

  /** A staff-managed user account as the users endpoint returns it. The
      answer names the fields `id`, `Usuario`, `Nombre`, `Email`,
      `Permisos`, `Admin` and `Estado`; `admin` stands for the rendered test
      `Admin === 'Si' || Admin === 1`. The handlers modelled here store the
      list and never look inside a record. */
  datatype UsuarioEmpresa = UsuarioEmpresa(
    id: int,
    usuario: string,
    nombre: string,
    email: string,
    permisos: string,
    admin: bool,
    estado: string)

  /** A decoded JSON body that should be a list: an array, or any other value. */
  datatype Json<T> = JsonArray(items: seq<T>) | JsonOtro

  /** How an awaited API call ended: it threw (network failure, bad JSON),
      or it answered with a body. */
  datatype Fetch<T> = Lanzo | Respondio(body: T)

  /** The answer of a POST endpoint: `success`, `mensaje` and the rest. */
  datatype Resultado<T> = Resultado(success: bool, mensaje: string, cuerpo: T)

  /** The catalogue answer, as far as the store selector uses it: the ids
      of the stores. */
  datatype Catalogo = Catalogo(success: bool, empresas: seq<string>)

  /** `Array.isArray(data) ? data : []`. */
  function AsList<T>(j: Json<T>): (r: seq<T>)
    ensures j.JsonArray? ==> r == j.items
    ensures j.JsonOtro? ==> r == []
  {
    match j
    case JsonArray(xs) => xs
    case JsonOtro => []
  }

  const FormularioVacio := SolicitudForm("", "", "", "", "", "", "", "", "", "", "")

  class App {
    /** Which login tab is selected: `invitado`, `cliente` or `empresa`. */
    var tipoLogin: string
    /** The in-memory session (`sesion`). */
    var sesion: Option<Session>
    /** The `factufacil_sesion` local-storage slot. */
    var storage: Option<Session>
    /** The panel on screen; `None` is the login screen. */
    var panel: Option<Panel>
    /** The active content view of each panel; `None` is the page's default. */
    var vistaCliente: Option<string>
    var vistaEmpresa: Option<string>
    /** The cached staff lists (`solicitudesData`, `usuariosData`). */
    var solicitudesData: seq<Solicitud>
    var usuariosData: seq<UsuarioEmpresa>
    /** The option values of the store selector. */
    var tiendas: set<string>
    /** The request form's inputs and its staged files. */
    var form: SolicitudForm
    var ticketBase64: string
    var csfBase64: string
    /** The lookup the pending RFC timer will issue (`rfcTimeout`). */
    var rfcPendiente: Option<string>
    /** The login form's inputs. */
    var loginUser: string
    var loginPass: string

    /** Write-through: a session in memory is always the stored one, and a
        panel is only ever shown for a session. */
    ghost predicate Valid()
      reads this`sesion, this`storage, this`panel
    {
      && (sesion.Some? ==> storage == sesion)
      && (panel.Some? ==> sesion.Some?)
    }

    /** The login screen of a freshly loaded page: no session, no panel,
        no view selected, the guest tab and empty login inputs. */
    ghost predicate PantallaInicial()
      reads this`tipoLogin, this`sesion, this`panel, this`vistaCliente, this`vistaEmpresa
      reads this`loginUser, this`loginPass
    {
      && tipoLogin == TipoInvitado && sesion == None && panel == None
      && vistaCliente == None && vistaEmpresa == None
      && loginUser == "" && loginPass == ""
    }

    /** The data of a freshly loaded page: empty lists, an empty request
        form, no staged files and no pending RFC lookup. */
    ghost predicate DatosIniciales()
      reads this`solicitudesData, this`usuariosData, this`form, this`ticketBase64, this`csfBase64
      reads this`rfcPendiente
    {
      && solicitudesData == [] && usuariosData == []
      && form == FormularioVacio && ticketBase64 == "" && csfBase64 == ""
      && rfcPendiente == None
    }

    /** A freshly loaded page before the stored session has been read. */
    ghost predicate AtStart()
      reads this
    {
      PantallaInicial() && DatosIniciales()
    }

    /** Page load, with `guardado` in local storage and `opciones` the
        store options the page starts with. */
    constructor (guardado: Option<Session>, opciones: set<string>)
      ensures Valid() && AtStart() && storage == guardado && tiendas == opciones
    {
      tiendas := opciones;
      tipoLogin := TipoInvitado;
      sesion, storage, panel := None, guardado, None;
      vistaCliente, vistaEmpresa := None, None;
      solicitudesData, usuariosData := [], [];
      form, ticketBase64, csfBase64 := FormularioVacio, "", "";
      rfcPendiente := None;
      loginUser, loginPass := "", "";
    }

    /** `cargarCatalogos`: a successful answer rebuilds the store, regime
        and CFDI-use selectors of the request form, each with an empty
        first option, which leaves all three reading empty. */
    method CargarCatalogos(respuesta: Fetch<Catalogo>)
      modifies this`tiendas, this`form
      ensures if respuesta.Respondio? && respuesta.body.success
              then tiendas == {""} + (set e | e in respuesta.body.empresas)
                   && form == old(form).(empresaId := "", regimen := "", usoCfdi := "")
              else tiendas == old(tiendas) && form == old(form)
    {
      if respuesta.Respondio? && respuesta.body.success {
        tiendas := {""} + (set e | e in respuesta.body.empresas);
        form := form.(empresaId := "", regimen := "", usoCfdi := "");
      }
    }

    /** The `?empresa=` query parameter preselects the store. A selector
        set to a value none of its options has selects nothing and reads
        empty. */
    method PreseleccionarEmpresa(param: string)
      modifies this`form
      ensures form == if param == "" then old(form)
                      else old(form).(empresaId := if param in tiendas then param else "")
    {
      if param != "" {
        form := form.(empresaId := if param in tiendas then param else "");
      }
    }

    // -------------------------------------------------------------------
    // Session
    // -------------------------------------------------------------------

    /** Shows panel `p` for the current session; the customer panel copies
        the customer's tax data into the request form. */
    method MostrarPanel(p: Panel)
      requires Valid() && sesion.Some?
      modifies this`panel, this`form
      ensures Valid() && panel == Some(p)
      ensures form == if p == PanelCliente then Prefill(old(form), sesion.value.usuario) else old(form)
    {
      panel := Some(p);
      if p == PanelCliente {
        form := Prefill(form, sesion.value.usuario);
      }
    }

    /** `verificarSesion`: restores the stored session, if any, and shows the
        panel its tag chooses. `cargaLista` says the staff panel was shown,
        which starts the staff list fetch. */
    method VerificarSesion() returns (cargaLista: bool)
      requires Valid()
      modifies this`sesion, this`panel, this`form
      ensures Valid() && storage == old(storage)
      ensures old(storage).None? ==> sesion == old(sesion) && panel == old(panel) && form == old(form)
      ensures old(storage).Some? ==>
                && sesion == old(storage)
                && panel == Some(RestoredPanel(old(storage).value.tipo))
                && form == if panel == Some(PanelCliente) then Prefill(old(form), sesion.value.usuario) else old(form)
      ensures cargaLista <==> old(storage).Some? && old(storage).value.tipo == TipoEmpresa
    {
      cargaLista := false;
      if storage.Some? {
        sesion := storage;
        var p := RestoredPanel(sesion.value.tipo);
        MostrarPanel(p);
        cargaLista := p == PanelEmpresa;
      }
    }

    /** `guardarSesion`: replaces the session and writes it through. */
    method GuardarSesion(d: Session)
      requires Valid()
      modifies this`sesion, this`storage
      ensures Valid() && sesion == Some(d) && storage == Some(d)
    {
      sesion := Some(d);
      storage := Some(d);
    }

    /** Resets the login screen of the page. */
    method ReiniciarPantalla()
      modifies this`tipoLogin, this`sesion, this`panel, this`vistaCliente, this`vistaEmpresa
      modifies this`loginUser, this`loginPass
      ensures PantallaInicial()
    {
      tipoLogin := TipoInvitado;
      sesion, panel := None, None;
      vistaCliente, vistaEmpresa := None, None;
      loginUser, loginPass := "", "";
    }

    /** Resets the data the page holds in memory. */
    method ReiniciarDatos()
      modifies this`solicitudesData, this`usuariosData, this`form, this`ticketBase64, this`csfBase64
      modifies this`rfcPendiente
      ensures DatosIniciales()
    {
      solicitudesData, usuariosData := [], [];
      form, ticketBase64, csfBase64 := FormularioVacio, "", "";
      rfcPendiente := None;
    }

    /** `logout`: drops the session, clears the storage slot and reloads
        the page, which finds no stored session and stays on the login screen. */
    method Logout()
      modifies this
      ensures Valid() && AtStart() && storage == None
    {
      storage := None;
      ReiniciarPantalla();
      ReiniciarDatos();
    }

    /** The page's load handler, on a page with no session and an empty
        form: the store selector holds the options `opciones` of the page,
        the catalogue `catalogo` is fetched, the stored session is restored
        and the `?empresa=` parameter `param` preselects the store. */
    method CargarPagina(opciones: set<string>, catalogo: Fetch<Catalogo>, param: string) returns (cargaLista: bool)
      requires Valid() && sesion == None && panel == None && form == FormularioVacio
      modifies this`tiendas, this`form, this`sesion, this`panel
      ensures Valid() && storage == old(storage)
      ensures tiendas == if catalogo.Respondio? && catalogo.body.success
                         then {""} + (set e | e in catalogo.body.empresas) else opciones
      ensures sesion == old(storage)
      ensures panel == if old(storage).Some? then Some(RestoredPanel(old(storage).value.tipo)) else None
      ensures cargaLista <==> old(storage).Some? && old(storage).value.tipo == TipoEmpresa
      ensures var vacio := if panel == Some(PanelCliente) then Prefill(FormularioVacio, sesion.value.usuario)
                           else FormularioVacio;
              form == if param == "" then vacio
                      else vacio.(empresaId := if param in tiendas then param else "")
    {
      tiendas := opciones;
      CargarCatalogos(catalogo);
      cargaLista := VerificarSesion();
      PreseleccionarEmpresa(param);
    }

    /** A page reload: in-memory state starts over, local storage survives,
        and the load handler runs again. */
    method Recargar(opciones: set<string>, catalogo: Fetch<Catalogo>, param: string) returns (cargaLista: bool)
      modifies this`tipoLogin, this`sesion, this`panel, this`vistaCliente, this`vistaEmpresa
      modifies this`loginUser, this`loginPass
      modifies this`solicitudesData, this`usuariosData, this`form, this`ticketBase64, this`csfBase64
      modifies this`rfcPendiente, this`tiendas
      ensures Valid() && storage == old(storage)
      ensures tiendas == if catalogo.Respondio? && catalogo.body.success
                         then {""} + (set e | e in catalogo.body.empresas) else opciones
      ensures sesion == old(storage)
      ensures panel == if old(storage).Some? then Some(RestoredPanel(old(storage).value.tipo)) else None
      ensures cargaLista <==> old(storage).Some? && old(storage).value.tipo == TipoEmpresa
      ensures tipoLogin == TipoInvitado && vistaCliente == None && vistaEmpresa == None
      ensures loginUser == "" && loginPass == ""
      ensures solicitudesData == [] && usuariosData == [] && ticketBase64 == "" && csfBase64 == ""
      ensures rfcPendiente == None
      ensures var vacio := if panel == Some(PanelCliente) then Prefill(FormularioVacio, sesion.value.usuario)
                           else FormularioVacio;
              form == if param == "" then vacio
                      else vacio.(empresaId := if param in tiendas then param else "")
    {
      ReiniciarPantalla();
      ReiniciarDatos();
      cargaLista := CargarPagina(opciones, catalogo, param);
    }

    /** `continuarInvitado`: stores a guest session and shows the guest panel. */
    method ContinuarInvitado()
      requires Valid()
      modifies this`sesion, this`storage, this`panel, this`form
      ensures Valid()
      ensures sesion == Some(SesionInvitado) && storage == Some(SesionInvitado)
      ensures panel == Some(PanelInvitado) && form == old(form)
      ensures panel == Some(RestoredPanel(SesionInvitado.tipo))
    {
      GuardarSesion(SesionInvitado);
      MostrarPanel(PanelInvitado);
    }

    /** Selects a login tab. */
    method SelectTipoLogin(tipo: string)
      modifies this`tipoLogin
      ensures tipoLogin == tipo
    {
      tipoLogin := tipo;
    }

    /** `login`: checks the two inputs, posts them to the endpoint of the
        selected tab and, on success, stores the answer as the session and
        shows the staff panel for an `empresa` answer, the customer panel
        otherwise. */
    method Login(respuesta: Fetch<Resultado<Session>>) returns (post: Option<LoginPost>, cargaLista: bool)
      requires Valid()
      modifies this`sesion, this`storage, this`panel, this`form
      ensures Valid()
      ensures post.Some? <==> LoginGate(tipoLogin, loginUser, loginPass).Envio?
      ensures post.Some? ==> post.value == LoginGate(tipoLogin, loginUser, loginPass).datos
      ensures !(post.Some? && respuesta.Respondio? && respuesta.body.success) ==>
                sesion == old(sesion) && storage == old(storage) && panel == old(panel) && form == old(form) && !cargaLista
      ensures post.Some? && respuesta.Respondio? && respuesta.body.success ==>
                sesion == Some(respuesta.body.cuerpo) && storage == Some(respuesta.body.cuerpo)
                && panel == Some(LoginPanel(respuesta.body.cuerpo.tipo))
                && (cargaLista <==> respuesta.body.cuerpo.tipo == TipoEmpresa)
      ensures post.Some? && respuesta.Respondio? && respuesta.body.success ==>
                form == if respuesta.body.cuerpo.tipo == TipoEmpresa then old(form)
                        else Prefill(old(form), respuesta.body.cuerpo.usuario)
    {
      post, cargaLista := None, false;
      var g := LoginGate(tipoLogin, loginUser, loginPass);
      if g.Rechazo? {
        return;
      }
      post := Some(g.datos);
      if respuesta.Respondio? && respuesta.body.success {
        cargaLista := IniciarSesion(respuesta.body.cuerpo);
      }
    }

    /** The success path of `login`: stores session `d` and shows the panel
        the login handler chooses for it. */
    method IniciarSesion(d: Session) returns (cargaLista: bool)
      requires Valid()
      modifies this`sesion, this`storage, this`panel, this`form
      ensures Valid() && sesion == Some(d) && storage == Some(d) && panel == Some(LoginPanel(d.tipo))
      ensures form == if d.tipo == TipoEmpresa then old(form) else Prefill(old(form), d.usuario)
      ensures cargaLista <==> d.tipo == TipoEmpresa
    {
      GuardarSesion(d);
      MostrarPanel(LoginPanel(d.tipo));
      cargaLista := d.tipo == TipoEmpresa;
    }

    /** `registrar`: checks the sign-up form and posts it; on success it
        switches to the customer login tab with the e-mail filled in. */
    method Registrar(f: RegistroForm, respuesta: Fetch<Resultado<()>>) returns (post: Option<RegistroForm>)
      modifies this`tipoLogin, this`loginUser
      ensures post.Some? <==> RegistroGate(f).Envio?
      ensures post.Some? ==> post.value == RegistroPayload(f)
      ensures if post.Some? && respuesta.Respondio? && respuesta.body.success
              then tipoLogin == TipoCliente && loginUser == post.value.email
              else tipoLogin == old(tipoLogin) && loginUser == old(loginUser)
    {
      post := None;
      var g := RegistroGate(f);
      if g.Rechazo? {
        return;
      }
      post := Some(g.datos);
      if respuesta.Respondio? && respuesta.body.success {
        tipoLogin := TipoCliente;
        loginUser := g.datos.email;
      }
    }

    // -------------------------------------------------------------------
    // Navigation
    // -------------------------------------------------------------------

    /** A click on navigation entry `e`: switches the active view of the
        region it belongs to and starts the fetch that view needs. */
    method Navegar(e: NavEntry) returns (carga: Carga)
      modifies this`vistaCliente, this`vistaEmpresa
      ensures ClickEffect(e).None? ==> carga == SinCarga && vistaCliente == old(vistaCliente) && vistaEmpresa == old(vistaEmpresa)
      ensures ClickEffect(e).Some? ==>
                var fx := ClickEffect(e).value;
                && carga == fx.carga
                && vistaCliente == (if fx.region == RegionCliente then Some(e.view) else old(vistaCliente))
                && vistaEmpresa == (if fx.region == RegionEmpresa then Some(e.view) else old(vistaEmpresa))
    {
      carga := SinCarga;
      var fx := ClickEffect(e);
      if fx.Some? {
        ClickLoads(e, fx.value);
        if fx.value.region == RegionCliente {
          vistaCliente := Some(e.view);
        } else {
          vistaEmpresa := Some(e.view);
        }
        carga := fx.value.carga;
      }
    }

    // -------------------------------------------------------------------
    // RFC auto-complete
    // -------------------------------------------------------------------

    /** `buscarDatosPorRFC`: cancels the pending lookup, then schedules a new
        one only for an RFC of at least 12 characters. */
    method BuscarDatosPorRfc(rfc: string)
      modifies this`rfcPendiente
      ensures rfcPendiente == RfcLookup(rfc)
    {
      rfcPendiente := None;
      rfcPendiente := RfcLookup(rfc);
    }

    /** The pending timer fires: it sends `GET /api/rfc/<rfc>` for the
        scheduled lookup and nothing is pending any more. */
    method DispararBusquedaRfc() returns (get: Option<string>)
      modifies this`rfcPendiente
      ensures get == old(rfcPendiente) && rfcPendiente == None
    {
      get := rfcPendiente;
      rfcPendiente := None;
    }

    // -------------------------------------------------------------------
    // Invoice-request form
    // -------------------------------------------------------------------

    /** A receipt image was read: it becomes the staged ticket. */
    method PreviewTicket(archivo: Option<string>)
      modifies this`ticketBase64
      ensures ticketBase64 == if archivo.Some? then archivo.value else old(ticketBase64)
    {
      if archivo.Some? {
        ticketBase64 := archivo.value;
      }
    }

    /** A tax-status document was read: it becomes the staged CSF. */
    method PreviewCsf(archivo: Option<string>)
      modifies this`csfBase64
      ensures csfBase64 == if archivo.Some? then archivo.value else old(csfBase64)
    {
      if archivo.Some? {
        csfBase64 := archivo.value;
      }
    }

    /** `limpiarFormulario`. */
    method LimpiarFormulario()
      modifies this`form, this`ticketBase64, this`csfBase64
      ensures form == Limpio(old(form)) && ticketBase64 == "" && csfBase64 == ""
    {
      form := Limpio(form);
      ticketBase64, csfBase64 := "", "";
    }

    /** `enviarSolicitud`: checks the form and the staged ticket; when the
        check fails nothing is sent and nothing changes. Otherwise the
        payload is posted and, if the server accepts it, the form is cleared. */
    method EnviarSolicitud(respuesta: Fetch<Resultado<()>>) returns (post: Option<SolicitudDatos>)
      modifies this`form, this`ticketBase64, this`csfBase64
      ensures post.Some? <==> SolicitudGate(old(form), old(ticketBase64), old(csfBase64)).Envio?
      ensures post.Some? ==> post.value == SolicitudPayload(old(form), old(ticketBase64), old(csfBase64))
      ensures if post.Some? && respuesta.Respondio? && respuesta.body.success
              then form == Limpio(old(form)) && ticketBase64 == "" && csfBase64 == ""
              else form == old(form) && ticketBase64 == old(ticketBase64) && csfBase64 == old(csfBase64)
    {
      post := None;
      var g := SolicitudGate(form, ticketBase64, csfBase64);
      if g.Rechazo? {
        return;
      }
      post := Some(g.datos);
      if respuesta.Respondio? && respuesta.body.success {
        LimpiarFormulario();
      }
    }

    // -------------------------------------------------------------------
    // Lists
    // -------------------------------------------------------------------

    /** `cargarHistorial`: fetches the customer's own requests, which needs
        a customer e-mail in the session. */
    method CargarHistorial() returns (get: Option<string>)
      ensures get.Some? <==> sesion.Some? && sesion.value.usuario.Some? && sesion.value.usuario.value.email != ""
      ensures get.Some? ==> get.value == sesion.value.usuario.value.email
    {
      get := None;
      if sesion.Some? && sesion.value.usuario.Some? && sesion.value.usuario.value.email != "" {
        get := Some(sesion.value.usuario.value.email);
      }
    }

    /** `cargarSolicitudesEmpresa`: fetches the company's requests; a
        non-array answer is stored as the empty list, a failed call (or a
        missing session) leaves the cache alone. */
    method CargarSolicitudesEmpresa(respuesta: Fetch<Json<Solicitud>>) returns (get: Option<string>)
      modifies this`solicitudesData
      ensures get == if sesion.Some? then Some(sesion.value.empresaId) else None
      ensures solicitudesData == if get.Some? && respuesta.Respondio? then AsList(respuesta.body) else old(solicitudesData)
    {
      get := None;
      if sesion.Some? {
        get := Some(sesion.value.empresaId);
        if respuesta.Respondio? {
          solicitudesData := AsList(respuesta.body);
        }
      }
    }

    /** `cargarUsuariosEmpresa`: the same for the company's staff users. */
    method CargarUsuariosEmpresa(respuesta: Fetch<Json<UsuarioEmpresa>>) returns (get: Option<string>)
      modifies this`usuariosData
      ensures get == if sesion.Some? then Some(sesion.value.empresaId) else None
      ensures usuariosData == if get.Some? && respuesta.Respondio? then AsList(respuesta.body) else old(usuariosData)
    {
      get := None;
      if sesion.Some? {
        get := Some(sesion.value.empresaId);
        if respuesta.Respondio? {
          usuariosData := AsList(respuesta.body);
        }
      }
    }

    // -------------------------------------------------------------------
    // Staff table
    // -------------------------------------------------------------------

    /** `aplicarFiltros`: narrows a copy of the cached list one active
        criterion at a time; the cache itself is not touched. The result is
        the single-pass filter of the cache by all four criteria. */
    method AplicarFiltros(f: Filtros) returns (filtered: seq<Solicitud>)
      ensures filtered == Filtered(solicitudesData, f)
      ensures forall s :: s in filtered <==> s in solicitudesData && Matches(s, f)
    {
      var estado, desde, hasta := f.estado, f.desde, f.hasta;
      var buscar := JsText.Lower(f.buscar);
      JsText.LowerIdempotent(f.buscar);
      ghost var xs := solicitudesData;
      NoCriteriaIsIdentity(xs);
      filtered := solicitudesData;
      // after each step, `filtered` is the filter by the criteria seen so far
      if estado != "" {
        filtered := Filtered(filtered, Filtros(estado, "", "", ""));
      }
      assert filtered == Filtered(xs, Filtros(estado, "", "", ""));
      if desde != "" {
        FilteredCompose(xs, Filtros(estado, "", "", ""), Filtros("", desde, "", ""), Filtros(estado, desde, "", ""));
        filtered := Filtered(filtered, Filtros("", desde, "", ""));
      }
      assert filtered == Filtered(xs, Filtros(estado, desde, "", ""));
      if hasta != "" {
        FilteredCompose(xs, Filtros(estado, desde, "", ""), Filtros("", "", hasta, ""), Filtros(estado, desde, hasta, ""));
        filtered := Filtered(filtered, Filtros("", "", hasta, ""));
      }
      assert filtered == Filtered(xs, Filtros(estado, desde, hasta, ""));
      if buscar != "" {
        FilteredCompose(xs, Filtros(estado, desde, hasta, ""), Filtros("", "", "", buscar), f);
        filtered := Filtered(filtered, Filtros("", "", "", buscar));
      }
      assert filtered == Filtered(xs, f);
      FilteredSound(xs, f);
      FilteredComplete(xs, f);
    }

    /** `verDetalle`: the detail view of the first cached request with that
        id, with the same status-change actions its table row has; nothing
        opens for an unknown id. The permission level is read only for a
        pending request, so without a session the handler throws, and
        opens nothing, exactly for a pending one. */
    method VerDetalle(id: string) returns (detalle: Option<Solicitud>, acciones: Option<seq<CambioEstatus>>)
      ensures detalle.Some? <==> acciones.Some?
      ensures detalle.Some? ==>
                FindIndex(solicitudesData, id).Some? && detalle.value == solicitudesData[FindIndex(solicitudesData, id).value]
      ensures (forall j :: 0 <= j < |solicitudesData| ==> solicitudesData[j].id != id) ==> acciones.None?
      ensures FindIndex(solicitudesData, id).Some? ==>
                var s := solicitudesData[FindIndex(solicitudesData, id).value];
                && s.id == id
                && (sesion.Some? ==>
                      acciones == Some(TableActions(solicitudesData, sesion.value.permisos)[FindIndex(solicitudesData, id).value]))
                && (sesion.None? ==> acciones == if s.estatus == Pendiente then None else Some([]))
      ensures acciones.Some? ==>
                var s := solicitudesData[FindIndex(solicitudesData, id).value];
                (acciones.value != [] <==> s.estatus == Pendiente && sesion.Some? && sesion.value.permisos != "lectura")
    {
      var k := FindIndex(solicitudesData, id);
      if k.None? {
        detalle, acciones := None, None;
      } else if sesion.Some? {
        detalle := Some(solicitudesData[k.value]);
        acciones := Some(OfferedActions(solicitudesData[k.value], sesion.value.permisos));
      } else if solicitudesData[k.value].estatus == Pendiente {
        detalle, acciones := None, None;
      } else {
        detalle, acciones := Some(solicitudesData[k.value]), Some([]);
      }
    }
  }

  /** A store link whose parameter is none of the selector's option values
      (a store alias, where the options are store ids) leaves the store
      empty, so the request form is rejected before anything is sent. */
  method EnlaceDesconocido(app: App, param: string, respuesta: Fetch<Resultado<()>>)
    returns (post: Option<SolicitudDatos>)
    requires param != "" && param !in app.tiendas
    modifies app
    ensures post == None
  {
    app.PreseleccionarEmpresa(param);
    SinTiendaIsRejected(app.form, app.ticketBase64, app.csfBase64);
    post := app.EnviarSolicitud(respuesta);
  }

  /** Saving a session and reloading the page gives the session back, on
      the panel its tag chooses. */
  method GuardarYRecargar(app: App, d: Session, opciones: set<string>, catalogo: Fetch<Catalogo>, param: string)
    returns (restaurada: Option<Session>, p: Option<Panel>)
    requires app.Valid()
    modifies app
    ensures restaurada == Some(d) && p == Some(RestoredPanel(d.tipo))
  {
    app.GuardarSesion(d);
    var _ := app.Recargar(opciones, catalogo, param);
    restaurada, p := app.sesion, app.panel;
  }
}
