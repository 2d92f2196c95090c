/**
 * Invoice requests ("solicitudes") as the staff panel sees them: the
 * multi-criterion filter of the request table, the badge a status is
 * drawn with, the status-change actions offered for a row and the
 * lookup of a row by id for the detail view.
 */
module Solicitudes {
  import opened Wrappers
  import opened JsText

  /** One request as the staff list endpoint returns it. All fields are
      the strings the table and the detail view show. */
  datatype Solicitud = Solicitud(
    id: string,
    tienda: string,
    rfc: string,
    razon: string,
    regimen: string,
    cp: string,
    usoCfdi: string,
    email: string,
    monto: string,
    folio: string,
    notas: string,
    ticket: string,
    csf: string,
    estatus: string,
    fecha: string)

  const Pendiente := "Pendiente"
  const Facturado := "Facturado"
  const Rechazado := "Rechazado"

  // ---------------------------------------------------------------------
  // Filtering the staff table
  // ---------------------------------------------------------------------

  /** The four filter inputs as the user typed them; an empty string
      switches that criterion off. */
  datatype Filtros = Filtros(estado: string, desde: string, hasta: string, buscar: string)

  const SinFiltros := Filtros("", "", "", "")

  /** What the upper date bound is extended by to cover the whole day. */
  const FinDelDia := "T23:59:59"

  /** Status is an exact match. */
  predicate MatchesEstado(s: Solicitud, estado: string) {
    estado == "" || s.estatus == estado
  }

  /** `s.fecha >= desde`, lexically. */
  predicate MatchesDesde(s: Solicitud, desde: string) {
    desde == "" || !LexLess(s.fecha, desde)
  }

  /** `s.fecha <= hasta + 'T23:59:59'`, lexically. */
  predicate MatchesHasta(s: Solicitud, hasta: string) {
    hasta == "" || !LexLess(hasta + FinDelDia, s.fecha)
  }

  /** The lowered search text occurs in the lowered RFC, legal name or e-mail. */
  predicate MatchesBuscar(s: Solicitud, buscar: string) {
    var q := Lower(buscar);
    q == "" || Contains(Lower(s.rfc), q) || Contains(Lower(s.razon), q) || Contains(Lower(s.email), q)
  }

  /** A record passes the filter when it meets every active criterion. */
  predicate Matches(s: Solicitud, f: Filtros) {
    && MatchesEstado(s, f.estado)
    && MatchesDesde(s, f.desde)
    && MatchesHasta(s, f.hasta)
    && MatchesBuscar(s, f.buscar)
  }

  /** The records of `xs` that pass `f`, in their original order. This is
      the specification of the staged filter of the staff panel. */
  function Filtered(xs: seq<Solicitud>, f: Filtros): seq<Solicitud> {
    if xs == [] then []
    else (if Matches(xs[0], f) then [xs[0]] else []) + Filtered(xs[1..], f)
  }

  /** `a` is `b` with some elements left out, the rest in the same order. */
  predicate IsSubsequence<T(==)>(a: seq<T>, b: seq<T>)
    decreases |b|
  {
    a == [] || (b != [] && ((a[0] == b[0] && IsSubsequence(a[1..], b[1..])) || IsSubsequence(a, b[1..])))
  }

  /** Soundness: everything the filter returns comes from the list and
      meets every active criterion. */
  lemma {:induction false} FilteredSound(xs: seq<Solicitud>, f: Filtros)
    ensures forall s :: s in Filtered(xs, f) ==> s in xs && Matches(s, f)
  {
    if xs != [] {
      FilteredSound(xs[1..], f);
    }
  }

  /** The filter keeps every occurrence of a matching record and no
      occurrence of a record that does not match. */
  lemma {:induction false} FilteredCount(xs: seq<Solicitud>, f: Filtros, s: Solicitud)
    ensures multiset(Filtered(xs, f))[s] == if Matches(s, f) then multiset(xs)[s] else 0
  {
    if xs != [] {
      FilteredCount(xs[1..], f, s);
      assert xs == [xs[0]] + xs[1..];
    }
  }

  /** Completeness: every record of the list that meets every active
      criterion is in the result. */
  lemma FilteredComplete(xs: seq<Solicitud>, f: Filtros)
    ensures forall s :: s in xs && Matches(s, f) ==> s in Filtered(xs, f)
  {
    forall s | s in xs && Matches(s, f) ensures s in Filtered(xs, f) {
      FilteredCount(xs, f, s);
    }
  }

  /** The result is an order-preserving subsequence of the list. */
  lemma {:induction false} FilteredSubsequence(xs: seq<Solicitud>, f: Filtros)
    ensures IsSubsequence(Filtered(xs, f), xs)
  {
    if xs != [] {
      FilteredSubsequence(xs[1..], f);
      var rest := Filtered(xs[1..], f);
      if Matches(xs[0], f) {
        assert Filtered(xs, f) == [xs[0]] + rest;
      } else {
        assert Filtered(xs, f) == rest;
      }
    }
  }

  /** When every record passes, the filter returns the list itself. */
  lemma {:induction false} FilteredAllPass(xs: seq<Solicitud>, f: Filtros)
    requires forall s :: s in xs ==> Matches(s, f)
    ensures Filtered(xs, f) == xs
  {
    if xs != [] {
      FilteredAllPass(xs[1..], f);
      assert xs == [xs[0]] + xs[1..];
    }
  }

  /** With all four inputs empty the filter is the identity. */
  lemma NoCriteriaIsIdentity(xs: seq<Solicitud>)
    ensures Filtered(xs, SinFiltros) == xs
  {
    assert Lower("") == "";
    FilteredAllPass(xs, SinFiltros);
  }

  lemma {:induction false} FilteredAppend(a: seq<Solicitud>, b: seq<Solicitud>, f: Filtros)
    ensures Filtered(a + b, f) == Filtered(a, f) + Filtered(b, f)
  {
    if a == [] {
      assert a + b == b;
    } else {
      assert (a + b)[1..] == a[1..] + b;
      FilteredAppend(a[1..], b, f);
    }
  }

  /** Filtering by `f1` and then by `f2` is filtering once by any `f3`
      whose test is the conjunction of the two. */
  lemma {:induction false} FilteredCompose(xs: seq<Solicitud>, f1: Filtros, f2: Filtros, f3: Filtros)
    requires forall s :: Matches(s, f3) == (Matches(s, f1) && Matches(s, f2))
    ensures Filtered(Filtered(xs, f1), f2) == Filtered(xs, f3)
  {
    if xs != [] {
      var head := if Matches(xs[0], f1) then [xs[0]] else [];
      FilteredAppend(head, Filtered(xs[1..], f1), f2);
      FilteredCompose(xs[1..], f1, f2, f3);
      if Matches(xs[0], f1) {
        assert Filtered(head, f2) == (if Matches(xs[0], f2) then [xs[0]] else []);
      }
    }
  }

  /** Applying the same filter twice equals applying it once. */
  lemma FilteredIdempotent(xs: seq<Solicitud>, f: Filtros)
    ensures Filtered(Filtered(xs, f), f) == Filtered(xs, f)
  {
    FilteredCompose(xs, f, f, f);
  }

  /** The lower bound is inclusive and covers the whole day: a record
      dated on the `desde` day itself, at any time, passes it. */
  lemma DesdeCoversItsDay(s: Solicitud, desde: string, rest: string)
    requires s.fecha == desde + rest
    ensures MatchesDesde(s, desde)
  {
    LexPrefixNotGreater(desde, rest);
  }

  /** The upper bound is inclusive up to the end of its day: a record
      dated `hasta` alone, or `hasta` followed by `T` and a time no later
      than `23:59:59`, passes it. */
  lemma HastaCoversItsDay(s: Solicitud, hasta: string, hora: string)
    requires s.fecha == hasta || s.fecha == hasta + "T" + hora
    requires !LexLess("23:59:59", hora)
    ensures MatchesHasta(s, hasta)
  {
    if s.fecha == hasta {
      LexPrefixNotGreater(hasta, FinDelDia);
    } else {
      assert hasta + FinDelDia == (hasta + "T") + "23:59:59";
      LexLessCommonPrefix(hasta + "T", "23:59:59", hora);
    }
  }

  // ---------------------------------------------------------------------
  // Badges
  // ---------------------------------------------------------------------

  predicate IsKnownStatus(estatus: string) {
    estatus == Pendiente || estatus == Facturado || estatus == Rechazado
  }

  /** The CSS badge class a status is drawn with. */
  function GetBadgeClass(estatus: string): (r: string)
    ensures r in {"pending", "done", "rejected", "inactive"}
    ensures r == "inactive" <==> !IsKnownStatus(estatus)
  {
    match estatus
    case "Pendiente" => "pending"
    case "Facturado" => "done"
    case "Rechazado" => "rejected"
    case _ => "inactive"
  }

  /** The status a badge class stands for, if it stands for one. */
  function BadgeStatus(badge: string): (r: Option<string>)
    ensures r.Some? ==> IsKnownStatus(r.value)
  {
    match badge
    case "pending" => Some(Pendiente)
    case "done" => Some(Facturado)
    case "rejected" => Some(Rechazado)
    case _ => None
  }

  /** The three known statuses get three different badges, and every other
      status the neutral one. */
  lemma BadgeRoundTrip(estatus: string)
    ensures BadgeStatus(GetBadgeClass(estatus)) == if IsKnownStatus(estatus) then Some(estatus) else None
  {
  }

  // ---------------------------------------------------------------------
  // Status-change actions
  // ---------------------------------------------------------------------

  /** A request to move request `id` to status `estatus`. */
  datatype CambioEstatus = CambioEstatus(id: string, estatus: string)

  /** The guard shared by the table row and the detail view. */
  predicate ActionsAllowed(s: Solicitud, permisos: string) {
    s.estatus == Pendiente && permisos != "lectura"
  }

  /** The buttons drawn for `s` for a session with permission level
      `permisos`: approve and reject, or nothing. */
  function OfferedActions(s: Solicitud, permisos: string): (r: seq<CambioEstatus>)
    ensures r != [] <==> s.estatus == Pendiente && permisos != "lectura"
    ensures forall a :: a in r ==> a.id == s.id && (a.estatus == Facturado || a.estatus == Rechazado)
    ensures r != [] ==> exists a :: a in r && a.estatus == Facturado
    ensures r != [] ==> exists a :: a in r && a.estatus == Rechazado
  {
    if ActionsAllowed(s, permisos) then [CambioEstatus(s.id, Facturado), CambioEstatus(s.id, Rechazado)] else []
  }

  /** The action cells of the staff table, row by row. */
  function TableActions(xs: seq<Solicitud>, permisos: string): (r: seq<seq<CambioEstatus>>)
    ensures |r| == |xs|
    ensures forall i :: 0 <= i < |xs| ==> r[i] == OfferedActions(xs[i], permisos)
  {
    seq(|xs|, i requires 0 <= i < |xs| => OfferedActions(xs[i], permisos))
  }

  /** A read-only session sees no status-change control in any row. */
  lemma ReadOnlySeesNoActions(xs: seq<Solicitud>)
    ensures forall i :: 0 <= i < |xs| ==> TableActions(xs, "lectura")[i] == []
  {
  }

  /** Only a pending request ever offers a change, and only to a terminal status. */
  lemma ActionsOnlyFromPending(xs: seq<Solicitud>, permisos: string, i: int, a: CambioEstatus)
    requires 0 <= i < |xs| && a in TableActions(xs, permisos)[i]
    ensures xs[i].estatus == Pendiente && permisos != "lectura"
    ensures a.id == xs[i].id && a.estatus != Pendiente
  {
  }

  // ---------------------------------------------------------------------
  // Lookup by id
  // ---------------------------------------------------------------------

  /** The index `Array.prototype.find` stops at: the first record with
      that id, or none. */
  function FindIndex(xs: seq<Solicitud>, id: string): (r: Option<nat>)
    ensures r.Some? ==> r.value < |xs| && xs[r.value].id == id
    ensures r.Some? ==> forall j :: 0 <= j < r.value ==> xs[j].id != id
    ensures r.None? ==> forall j :: 0 <= j < |xs| ==> xs[j].id != id
  {
    if xs == [] then None
    else if xs[0].id == id then Some(0)
    else match FindIndex(xs[1..], id)
      case None => None
      case Some(k) => Some(k + 1)
  }
}
