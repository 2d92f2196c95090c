/**
 * The forms of the application and the checks each submit handler makes
 * before it calls the server: the invoice-request form, the sign-up
 * form, the login form and the RFC auto-complete.
 */
module Formularios {
  import opened Wrappers
  import opened JsText
  import opened Sesion

  /** What a submit handler does after its checks: reject with the message
      it shows, or issue the request with this payload. */
  datatype Gate<T> = Rechazo(mensaje: string) | Envio(datos: T)

  const MsgCamposObligatorios := "Completa los campos obligatorios"
  const MsgSubeTicket := "Sube una imagen del ticket"
  const MsgTodosLosCampos := "Completa todos los campos"

  // ---------------------------------------------------------------------
  // Invoice-request form (enviarSolicitud, limpiarFormulario)
  // ---------------------------------------------------------------------

  /** The values of the request form's inputs. */
  datatype SolicitudForm = SolicitudForm(
    empresaId: string,
    rfc: string,
    razon: string,
    regimen: string,
    cp: string,
    usoCfdi: string,
    email: string,
    cc: string,
    monto: string,
    folio: string,
    notas: string)

  /** The body of `POST /api/solicitudes`. */
  datatype SolicitudDatos = SolicitudDatos(
    empresaId: string,
    rfc: string,
    razon: string,
    regimen: string,
    cp: string,
    usoCfdi: string,
    email: string,
    cc: string,
    monto: string,
    folio: string,
    notas: string,
    ticket: string,
    csf: string)

  /** The payload built from the inputs: text inputs are trimmed, the RFC
      is also upper-cased; selects and the amount are taken as they are. */
  function SolicitudPayload(f: SolicitudForm, ticket: string, csf: string): SolicitudDatos {
    SolicitudDatos(f.empresaId, Upper(Trim(f.rfc)), Trim(f.razon), f.regimen, Trim(f.cp), f.usoCfdi,
                   Trim(f.email), Trim(f.cc), f.monto, Trim(f.folio), Trim(f.notas), ticket, csf)
  }

  /** The submit check of the request form: store, RFC, legal name and
      e-mail first, then the staged receipt image. */
  function SolicitudGate(f: SolicitudForm, ticket: string, csf: string): Gate<SolicitudDatos> {
    var d := SolicitudPayload(f, ticket, csf);
    if d.empresaId == "" || d.rfc == "" || d.razon == "" || d.email == "" then Rechazo(MsgCamposObligatorios)
    else if ticket == "" then Rechazo(MsgSubeTicket)
    else Envio(d)
  }

  /** The request is sent exactly when a store is selected, the RFC, the
      legal name and the e-mail are not blank and a receipt image is
      staged; a rejection names the first check that failed. */
  lemma SolicitudGateSpec(f: SolicitudForm, ticket: string, csf: string)
    ensures var g := SolicitudGate(f, ticket, csf);
            var campos := f.empresaId != "" && !AllTrimmable(f.rfc) && !AllTrimmable(f.razon) && !AllTrimmable(f.email);
            && (g.Envio? <==> campos && ticket != "")
            && (g.Rechazo? ==> g.mensaje == if campos then MsgSubeTicket else MsgCamposObligatorios)
            && (g.Envio? ==> g.datos == SolicitudPayload(f, ticket, csf))
            && (g.Envio? ==> g.datos.ticket == ticket && g.datos.csf == csf && g.datos.empresaId == f.empresaId)
  {
    TrimSpec(f.rfc);
    TrimSpec(f.razon);
    TrimSpec(f.email);
  }

  /** With the store selector reading empty the form is rejected by the
      first check, whatever else it holds. */
  lemma SinTiendaIsRejected(f: SolicitudForm, ticket: string, csf: string)
    requires f.empresaId == ""
    ensures SolicitudGate(f, ticket, csf) == Rechazo(MsgCamposObligatorios)
  {
  }

  /** The inputs that would reproduce payload `d`. */
  function FormOf(d: SolicitudDatos): SolicitudForm {
    SolicitudForm(d.empresaId, d.rfc, d.razon, d.regimen, d.cp, d.usoCfdi, d.email, d.cc, d.monto, d.folio, d.notas)
  }

  /** Helper: trimming and then upper-casing reaches a fixed point. */
  lemma UpperTrimFixpoint(s: string)
    ensures Upper(Trim(Upper(Trim(s)))) == Upper(Trim(s))
  {
    TrimSpec(s);
    UpperKeepsTrimmed(Trim(s));
    TrimOfTrimmed(Upper(Trim(s)));
    UpperIdempotent(Trim(s));
  }

  /** The payload is already normal: building it again from its own fields
      gives it back, so every text field is trimmed and the RFC upper-case. */
  lemma SolicitudPayloadIsNormal(f: SolicitudForm, ticket: string, csf: string)
    ensures SolicitudPayload(FormOf(SolicitudPayload(f, ticket, csf)), ticket, csf) == SolicitudPayload(f, ticket, csf)
  {
    UpperTrimFixpoint(f.rfc);
    TrimSpec(f.razon);
    TrimOfTrimmed(Trim(f.razon));
    TrimSpec(f.cp);
    TrimOfTrimmed(Trim(f.cp));
    TrimSpec(f.email);
    TrimOfTrimmed(Trim(f.email));
    TrimSpec(f.cc);
    TrimOfTrimmed(Trim(f.cc));
    TrimSpec(f.folio);
    TrimOfTrimmed(Trim(f.folio));
    TrimSpec(f.notas);
    TrimOfTrimmed(Trim(f.notas));
  }

  /** `limpiarFormulario` empties every input except the store selector. */
  function Limpio(f: SolicitudForm): (g: SolicitudForm)
    ensures g.empresaId == f.empresaId
    ensures g == SolicitudForm(f.empresaId, "", "", "", "", "", "", "", "", "", "")
  {
    f.(rfc := "", razon := "", regimen := "", cp := "", usoCfdi := "", email := "",
       cc := "", monto := "", folio := "", notas := "")
  }

  /** After clearing, the form fails the submit check until it is filled in
      again, whatever the store selector and the staged files hold. */
  lemma LimpioIsRejected(f: SolicitudForm, ticket: string, csf: string)
    ensures SolicitudGate(Limpio(f), ticket, csf) == Rechazo(MsgCamposObligatorios)
  {
  }

  /** `mostrarPanelCliente` copies the customer's tax data into the form
      when the customer record has an RFC. */
  function Prefill(f: SolicitudForm, u: Option<Usuario>): (g: SolicitudForm)
    ensures u.None? || u.value.rfc == "" ==> g == f
    ensures u.Some? && u.value.rfc != "" ==>
              && g.rfc == u.value.rfc && g.razon == u.value.razon && g.regimen == u.value.regimen
              && g.cp == u.value.cp && g.usoCfdi == u.value.usoCfdi && g.email == u.value.email
    ensures g.empresaId == f.empresaId && g.cc == f.cc && g.monto == f.monto && g.folio == f.folio && g.notas == f.notas
  {
    match u
    case None => f
    case Some(c) =>
      if c.rfc == "" then f
      else f.(rfc := c.rfc, razon := c.razon, regimen := c.regimen, cp := c.cp, usoCfdi := c.usoCfdi, email := c.email)
  }

  // ---------------------------------------------------------------------
  // Sign-up form (registrar)
  // ---------------------------------------------------------------------

  /** The sign-up inputs; the same shape is the body of `POST /api/auth/registro`. */
  datatype RegistroForm = RegistroForm(
    nombre: string,
    email: string,
    password: string,
    rfc: string,
    razon: string,
    regimen: string,
    cp: string,
    usoCfdi: string)

  /** The payload: text inputs trimmed, the RFC upper-cased, the password
      and the selects as they are. */
  function RegistroPayload(f: RegistroForm): RegistroForm {
    RegistroForm(Trim(f.nombre), Trim(f.email), f.password, Upper(Trim(f.rfc)), Trim(f.razon),
                 f.regimen, Trim(f.cp), f.usoCfdi)
  }

  /** The sign-up check: e-mail, password, RFC and legal name. */
  function RegistroGate(f: RegistroForm): Gate<RegistroForm> {
    var d := RegistroPayload(f);
    if d.email == "" || d.password == "" || d.rfc == "" || d.razon == "" then Rechazo(MsgCamposObligatorios)
    else Envio(d)
  }

  /** The form is sent exactly when the e-mail, the RFC and the legal name
      are not blank and the password is not empty; what is sent is the
      normalised payload. */
  lemma RegistroGateSpec(f: RegistroForm)
    ensures var g := RegistroGate(f);
            && (g.Envio? <==> !AllTrimmable(f.email) && f.password != "" && !AllTrimmable(f.rfc) && !AllTrimmable(f.razon))
            && (g.Rechazo? ==> g.mensaje == MsgCamposObligatorios)
            && (g.Envio? ==> g.datos == RegistroPayload(f) && g.datos.password == f.password
                             && g.datos.email != "" && IsTrimmed(g.datos.email))
  {
    TrimSpec(f.email);
    TrimSpec(f.rfc);
    TrimSpec(f.razon);
  }

  /** The password is the one field that is not trimmed: a password of
      blanks is accepted where an e-mail of blanks is not. */
  lemma BlankPasswordAccepted(f: RegistroForm)
    requires f.password != "" && AllTrimmable(f.password)
    requires !AllTrimmable(f.email) && !AllTrimmable(f.rfc) && !AllTrimmable(f.razon)
    ensures RegistroGate(f).Envio? && RegistroGate(f).datos.password == f.password
    ensures RegistroGate(f.(email := f.password)).Rechazo?
  {
    RegistroGateSpec(f);
    RegistroGateSpec(f.(email := f.password));
  }

  // ---------------------------------------------------------------------
  // Login form (login)
  // ---------------------------------------------------------------------

  /** The two login endpoints and their bodies. */
  datatype LoginPost = LoginEmpresa(usuario: string, password: string) | LoginUsuario(email: string, password: string)

  /** The login check; staff log in with a user name, everyone else with
      an e-mail. */
  function LoginGate(tipoLogin: string, user: string, pass: string): Gate<LoginPost> {
    var u := Trim(user);
    if u == "" || pass == "" then Rechazo(MsgTodosLosCampos)
    else if tipoLogin == TipoEmpresa then Envio(LoginEmpresa(u, pass))
    else Envio(LoginUsuario(u, pass))
  }

  /** The login is sent exactly when the user input is not blank and the
      password is not empty; the staff endpoint is used exactly on the
      `empresa` tab, with the trimmed user input and the password as typed. */
  lemma LoginGateSpec(tipoLogin: string, user: string, pass: string)
    ensures var g := LoginGate(tipoLogin, user, pass);
            && (g.Envio? <==> !AllTrimmable(user) && pass != "")
            && (g.Rechazo? ==> g.mensaje == MsgTodosLosCampos)
            && (g.Envio? ==> (g.datos.LoginEmpresa? <==> tipoLogin == TipoEmpresa))
            && (g.Envio? ==> g.datos.password == pass)
            && (g.Envio? && g.datos.LoginEmpresa? ==> g.datos.usuario == Trim(user))
            && (g.Envio? && g.datos.LoginUsuario? ==> g.datos.email == Trim(user))
  {
    TrimSpec(user);
  }

  // ---------------------------------------------------------------------
  // RFC auto-complete (buscarDatosPorRFC)
  // ---------------------------------------------------------------------

  const RfcMinLength := 12

  /** The lookup a keystroke in the RFC input schedules, if any: the
      trimmed, upper-cased RFC once it has at least 12 characters. */
  function RfcLookup(rfc: string): Option<string> {
    var limpio := Upper(Trim(rfc));
    if |limpio| < RfcMinLength then None else Some(limpio)
  }

  /** A lookup is scheduled exactly when the trimmed RFC has at least 12
      characters, and what it looks up is trimmed and upper-case. */
  lemma RfcLookupSpec(rfc: string)
    ensures RfcLookup(rfc).Some? <==> |Trim(rfc)| >= RfcMinLength
    ensures RfcLookup(rfc).Some? ==>
              var l := RfcLookup(rfc).value; |l| >= RfcMinLength && IsTrimmed(l) && Upper(l) == l
  {
    TrimSpec(rfc);
    UpperKeepsTrimmed(Trim(rfc));
    UpperIdempotent(Trim(rfc));
  }

  /** The lookup pending after a run of keystrokes, none of which waited
      long enough to fire: each one cancels the pending timer first. */
  function PendingAfter(pending: Option<string>, keys: seq<string>): Option<string>
    decreases |keys|
  {
    if keys == [] then pending else PendingAfter(RfcLookup(keys[0]), keys[1..])
  }

  /** Debounce: after a run of keystrokes the pending lookup is determined
      by the last keystroke alone; earlier keystrokes and the lookup that
      was pending before leave no trace. */
  lemma {:induction false} OnlyLastKeystrokeCounts(pending: Option<string>, keys: seq<string>)
    requires keys != []
    ensures PendingAfter(pending, keys) == RfcLookup(keys[|keys| - 1])
    decreases |keys|
  {
    var next := RfcLookup(keys[0]);
    assert PendingAfter(pending, keys) == PendingAfter(next, keys[1..]);
    if |keys| == 1 {
      assert keys[1..] == [];
    } else {
      assert keys[1..][|keys| - 2] == keys[|keys| - 1];
      OnlyLastKeystrokeCounts(next, keys[1..]);
    }
  }
}
