/**
 * The session value, the panel its role tag chooses, and the navigation
 * rules: which entries each panel hides and what clicking an entry shows
 * and loads.
 */
module Sesion {
  import opened Wrappers
  import opened JsText

  /** The customer record a customer session carries (`sesion.usuario`). */
  datatype Usuario = Usuario(
    nombre: string,
    email: string,
    rfc: string,
    razon: string,
    regimen: string,
    cp: string,
    usoCfdi: string)

  /** The session object. A field the server did not send is the empty
      string (or `false`, or `None` for the customer record); `usuario` is
      `None` also when the session's `usuario` is not an object, as for a
      staff session, where it is only a display name. `admin` is the
      truthiness of the session's `admin` value, which is what the staff
      panel tests. */
  datatype Session = Session(
    tipo: string,
    token: string,
    permisos: string,
    admin: bool,
    empresaId: string,
    empresaNombre: string,
    usuario: Option<Usuario>)

  /** The role tags a session carries in `tipo`. */
  const TipoEmpresa := "empresa"
  const TipoCliente := "cliente"
  const TipoInvitado := "invitado"

  /** The object `continuarInvitado` stores: `{ tipo: 'invitado' }`. */
  const SesionInvitado := Session(TipoInvitado, "", "", false, "", "", None)

  /** The three top-level panels. */
  datatype Panel = PanelEmpresa | PanelCliente | PanelInvitado

  /** The panel a restored session shows (`verificarSesion`). */
  function RestoredPanel(tipo: string): (p: Panel)
    ensures p == PanelEmpresa <==> tipo == TipoEmpresa
    ensures p == PanelCliente <==> tipo == TipoCliente
  {
    if tipo == TipoEmpresa then PanelEmpresa
    else if tipo == TipoCliente then PanelCliente
    else PanelInvitado
  }

  /** The panel a successful login shows: the login handler only tells
      staff from everyone else. */
  function LoginPanel(tipo: string): (p: Panel)
    ensures p != PanelInvitado
    ensures p == PanelEmpresa <==> tipo == TipoEmpresa
  {
    if tipo == TipoEmpresa then PanelEmpresa else PanelCliente
  }

  /** A successful login and a later reload show the same panel exactly
      when the server tagged the session `empresa` or `cliente`; any other
      tag logs in to the customer panel but comes back as a guest. */
  lemma LoginAndRestoreAgree(tipo: string)
    ensures LoginPanel(tipo) == RestoredPanel(tipo) <==> tipo == TipoEmpresa || tipo == TipoCliente
    ensures tipo != TipoEmpresa && tipo != TipoCliente ==>
              LoginPanel(tipo) == PanelCliente && RestoredPanel(tipo) == PanelInvitado
  {
  }

  // ---------------------------------------------------------------------
  // Navigation
  // ---------------------------------------------------------------------

  /** The three navigation surfaces: the customer sidebar, the staff
      sidebar and the mobile bottom bar. */
  datatype Surface = Sidebar | SidebarEmpresa | BottomBar

  /** A navigation entry: a button with a `data-view` on one surface. */
  datatype NavEntry = NavEntry(surface: Surface, view: string)

  /** The entries the panel code hides: a guest loses the history and
      profile entries of the customer sidebar and the bottom bar; the staff
      panel hides the customer sidebar and the bottom bar altogether and,
      for a non-admin, the staff-users entry. */
  predicate HiddenBy(p: Panel, admin: bool, e: NavEntry) {
    match p
    case PanelInvitado => e.surface != SidebarEmpresa && (e.view == "historial" || e.view == "perfil")
    case PanelCliente => false
    case PanelEmpresa => e.surface != SidebarEmpresa || (e.view == "usuarios-empresa" && !admin)
  }

  /** Which panel's content views a click switches. */
  datatype Region = RegionCliente | RegionEmpresa

  /** The list fetch a click starts. */
  datatype Carga = SinCarga | CargaHistorial | CargaUsuariosEmpresa

  /** The effect of clicking a view entry: the region whose view changes,
      the view made active and the fetch started. */
  datatype NavEffect = NavEffect(region: Region, view: string, carga: Carga)

  /** A sidebar click (`setupNavigation`): nothing for an entry without a
      view; a view whose name contains `empresa` is a staff view. */
  function SidebarTarget(view: string): Option<NavEffect> {
    if view == "" then None
    else if Contains(view, "empresa") then
      Some(NavEffect(RegionEmpresa, view, if view == "usuarios-empresa" then CargaUsuariosEmpresa else SinCarga))
    else
      Some(NavEffect(RegionCliente, view, if view == "historial" then CargaHistorial else SinCarga))
  }

  /** A bottom-bar click (`handleBottomNav`): always a customer view. */
  function BottomTarget(view: string): NavEffect {
    NavEffect(RegionCliente, view, if view == "historial" then CargaHistorial else SinCarga)
  }

  /** The effect of clicking entry `e`. */
  function ClickEffect(e: NavEntry): Option<NavEffect> {
    if e.surface == BottomBar then Some(BottomTarget(e.view)) else SidebarTarget(e.view)
  }

  lemma HistorialIsCustomerView()
    ensures !Contains("historial", "empresa")
  {
    var h := "historial";
    forall i | 0 <= i <= |h| - |"empresa"| ensures !OccursAt(h, "empresa", i) {
      assert h[i] != 'e';
    }
  }

  lemma UsuariosIsStaffView()
    ensures Contains("usuarios-empresa", "empresa")
  {
    assert OccursAt("usuarios-empresa", "empresa", 9);
  }

  /** Each fetch is started by exactly one view: the history list by
      `historial`, the staff-user list by `usuarios-empresa`, on either
      surface that can show it. */
  lemma ClickLoads(e: NavEntry, fx: NavEffect)
    requires ClickEffect(e) == Some(fx)
    ensures fx.view == e.view
    ensures fx.carga == CargaHistorial <==> e.view == "historial"
    ensures fx.carga == CargaUsuariosEmpresa <==> e.view == "usuarios-empresa" && e.surface != BottomBar
  {
    HistorialIsCustomerView();
    UsuariosIsStaffView();
  }

  /** The bottom bar and the customer sidebar agree on every customer view. */
  lemma BottomAgreesWithSidebar(view: string)
    requires view != "" && !Contains(view, "empresa")
    ensures SidebarTarget(view) == Some(BottomTarget(view))
  {
  }

  /** A guest cannot start the history fetch from any customer-surface
      entry it can see. */
  lemma GuestNeverLoadsHistory(admin: bool, e: NavEntry)
    requires e.surface != SidebarEmpresa && !HiddenBy(PanelInvitado, admin, e)
    ensures ClickEffect(e).Some? ==> ClickEffect(e).value.carga != CargaHistorial
  {
    if ClickEffect(e).Some? {
      ClickLoads(e, ClickEffect(e).value);
    }
  }

  /** A staff session sees only the entries of the staff sidebar, and a
      non-admin one cannot start the staff-user fetch from any of them. */
  lemma StaffNavigationStaysInPanel(admin: bool, e: NavEntry)
    requires !HiddenBy(PanelEmpresa, admin, e)
    ensures e.surface == SidebarEmpresa
    ensures !admin && ClickEffect(e).Some? ==> ClickEffect(e).value.carga != CargaUsuariosEmpresa
  {
    if ClickEffect(e).Some? {
      ClickLoads(e, ClickEffect(e).value);
    }
  }
}
