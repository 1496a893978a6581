/**
 * The invoice rules that the billing tests define as helpers: status validity, the status
 * transition graph, the record and create-request validators, the overdue predicate and the
 * long-string generator the tests build oversized descriptions with. A validator that returns
 * nil is modelled as `true`.
 */
module InvoiceRules {
  import opened Clock
  import opened Text
  import opened Invoices

  /** The early-return search over a status slice. */
  function Member(xs: seq<InvoiceStatus>, x: InvoiceStatus): (found: bool)
    ensures found <==> x in xs
    decreases |xs|
  {
    if xs == [] then false
    else if xs[0] == x then true
    else Member(xs[1..], x)
  }

  /** `isValidInvoiceStatus`: a search of the five named statuses. */
  function IsValidInvoiceStatus(s: InvoiceStatus): (ok: bool)
    ensures ok <==> s in {Draft, Sent, Paid, Overdue, Cancelled}
  {
    Member(StatusNames, s)
  }

  /** The allowed-transitions map of `isValidStatusTransition`. */
  const Transitions: map<InvoiceStatus, seq<InvoiceStatus>> := map[
    Draft := [Sent, Cancelled],
    Sent := [Paid, Overdue, Cancelled],
    Overdue := [Paid, Cancelled],
    Paid := [],
    Cancelled := []]

  /** The transition graph as a set of edges. */
  const Edges: set<(InvoiceStatus, InvoiceStatus)> := {
    (Draft, Sent), (Draft, Cancelled),
    (Sent, Paid), (Sent, Overdue), (Sent, Cancelled),
    (Overdue, Paid), (Overdue, Cancelled)}

  /**
   * `isValidStatusTransition`: a `from` outside the map is rejected; otherwise `to` must be
   * in `from`'s list. The allowed pairs are exactly the seven edges of the graph.
   */
  function IsValidStatusTransition(from: InvoiceStatus, to: InvoiceStatus): (ok: bool)
    ensures ok <==> (from, to) in Edges
  {
    if from !in Transitions then false else Member(Transitions[from], to)
  }

  /** No status may transition to itself, draft to draft included. */
  lemma NoSelfTransition(s: InvoiceStatus)
    ensures !IsValidStatusTransition(s, s)
  {
    StatusNamesDistinct();
    assert StatusNames[0] != StatusNames[1] && StatusNames[0] != StatusNames[4];
    assert StatusNames[1] != StatusNames[2] && StatusNames[1] != StatusNames[3];
    assert StatusNames[1] != StatusNames[4] && StatusNames[3] != StatusNames[2];
    assert StatusNames[3] != StatusNames[4];
  }

  /** Paid and cancelled are terminal: nothing leaves them. */
  lemma TerminalStatusesHaveNoEdges(to: InvoiceStatus)
    ensures !IsValidStatusTransition(Paid, to)
    ensures !IsValidStatusTransition(Cancelled, to)
  {
    StatusNamesDistinct();
    assert StatusNames[2] != StatusNames[0] && StatusNames[2] != StatusNames[1] && StatusNames[2] != StatusNames[3];
    assert StatusNames[4] != StatusNames[0] && StatusNames[4] != StatusNames[1] && StatusNames[4] != StatusNames[3];
  }

  /** A transition joins two named statuses; in particular an unknown `from` is always rejected. */
  lemma TransitionEndsAreValid(from: InvoiceStatus, to: InvoiceStatus)
    ensures IsValidStatusTransition(from, to) ==> IsValidInvoiceStatus(from) && IsValidInvoiceStatus(to)
    ensures !IsValidInvoiceStatus(from) ==> !IsValidStatusTransition(from, to)
  {
  }

  /** The outgoing edges of each non-terminal status, in both directions. */
  lemma OutgoingEdges(to: InvoiceStatus)
    ensures IsValidStatusTransition(Draft, to) <==> to == Sent || to == Cancelled
    ensures IsValidStatusTransition(Sent, to) <==> to == Paid || to == Overdue || to == Cancelled
    ensures IsValidStatusTransition(Overdue, to) <==> to == Paid || to == Cancelled
  {
    StatusNamesDistinct();
    assert StatusNames[0] != StatusNames[1] && StatusNames[0] != StatusNames[3];
    assert StatusNames[1] != StatusNames[3] && StatusNames[0] != StatusNames[2];
  }

  /** The cases of the transition test table. */
  lemma TransitionTestTable()
    ensures IsValidStatusTransition(Draft, Sent) && IsValidStatusTransition(Draft, Cancelled)
    ensures IsValidStatusTransition(Sent, Paid) && IsValidStatusTransition(Sent, Overdue)
    ensures IsValidStatusTransition(Sent, Cancelled)
    ensures !IsValidStatusTransition(Paid, Draft) && !IsValidStatusTransition(Paid, Sent)
    ensures !IsValidStatusTransition(Cancelled, Paid)
  {
    TerminalStatusesHaveNoEdges(Draft);
    TerminalStatusesHaveNoEdges(Sent);
    TerminalStatusesHaveNoEdges(Paid);
  }

  /** How far along the lifecycle a status is; every edge moves strictly forward. */
  function Stage(s: InvoiceStatus): nat {
    if s == Draft then 0
    else if s == Sent then 1
    else if s == Overdue then 2
    else 3
  }

  lemma EdgeAdvancesStage(from: InvoiceStatus, to: InvoiceStatus)
    requires IsValidStatusTransition(from, to)
    ensures Stage(from) < Stage(to)
  {
    StatusNamesDistinct();
    assert StatusNames[0] != StatusNames[2] && StatusNames[0] != StatusNames[4];
    assert StatusNames[1] != StatusNames[2] && StatusNames[1] != StatusNames[4];
    assert StatusNames[3] != StatusNames[2] && StatusNames[3] != StatusNames[4];
    assert StatusNames[0] != StatusNames[3] && StatusNames[1] != StatusNames[3];
  }

  /** A sequence of statuses each of which may transition to the next. */
  predicate IsTransitionPath(p: seq<InvoiceStatus>) {
    forall i :: 0 <= i < |p| - 1 ==> IsValidStatusTransition(p[i], p[i + 1])
  }

  /** Along any chain of allowed transitions the stage strictly increases. */
  lemma {:induction false} PathAdvancesStage(p: seq<InvoiceStatus>)
    requires IsTransitionPath(p) && |p| >= 2
    ensures Stage(p[0]) < Stage(p[|p| - 1])
    decreases |p|
  {
    EdgeAdvancesStage(p[0], p[1]);
    if |p| > 2 {
      var rest := p[1..];
      assert IsTransitionPath(rest) by {
        forall i | 0 <= i < |rest| - 1 ensures IsValidStatusTransition(rest[i], rest[i + 1]) {
          assert rest[i] == p[i + 1] && rest[i + 1] == p[i + 2];
        }
      }
      PathAdvancesStage(rest);
    }
  }

  /** The graph has no cycles: no chain of allowed transitions returns to where it started. */
  lemma NoTransitionCycle(p: seq<InvoiceStatus>)
    requires IsTransitionPath(p) && |p| >= 2
    ensures p[0] != p[|p| - 1]
  {
    PathAdvancesStage(p);
  }

  /** `validateInvoice`: positive amount, due date not before issue date, a named status. */
  function ValidateInvoice(inv: Invoice): (ok: bool)
    ensures ok ==> inv.amount > 0.0 && inv.status in StatusNames
  {
    if inv.amount <= 0.0 then false
    else if Before(inv.dueDate, inv.issueDate) then false
    else if !IsValidInvoiceStatus(inv.status) then false
    else true
  }

  /** `validateInvoice` fails iff the amount is not positive, the due date is strictly earlier, or the status is unnamed. */
  lemma ValidateInvoiceExactly(inv: Invoice)
    ensures ValidateInvoice(inv) <==>
      inv.amount > 0.0 && inv.issueDate <= inv.dueDate && inv.status in StatusNames
  {
  }

  /** The cases of the record-validation test table, for any `base` and a `later` instant. */
  lemma ValidateInvoiceTestTable(base: Time, earlier: Time, later: Time, n: string, d: string)
    requires earlier < base < later
    ensures ValidateInvoice(Invoice(0, n, 1, 100.50, Draft, base, later, d))
    ensures !ValidateInvoice(Invoice(0, n, 1, 0.0, Draft, base, later, d))
    ensures !ValidateInvoice(Invoice(0, n, 1, -50.00, Draft, base, later, d))
    ensures !ValidateInvoice(Invoice(0, n, 1, 100.00, Draft, base, earlier, d))
    ensures !ValidateInvoice(Invoice(0, n, 1, 100.00, "invalid", base, later, d))
    ensures ValidateInvoice(Invoice(0, n, 1, 100.00, Draft, base, base, d))
  {
    assert "invalid" != Draft && "invalid" != Sent && "invalid" != Paid;
    assert "invalid" != Overdue && "invalid" != Cancelled;
  }

  /**
   * `validateCreateInvoiceRequest`: a client, a positive amount, a description of at most 500
   * bytes, and, when both dates are set, a due date not before the issue date.
   */
  function ValidateCreateInvoiceRequest(r: CreateInvoiceRequest): (ok: bool)
    ensures ok ==> r.clientId != 0 && r.amount > 0.0 && |r.description| <= 500
  {
    ByteLenBounds(r.description);
    if r.clientId == 0 then false
    else if r.amount <= 0.0 then false
    else if ByteLen(r.description) > 500 then false
    else if !IsZero(r.dueDate) && !IsZero(r.issueDate) && Before(r.dueDate, r.issueDate) then false
    else true
  }

  /** The date-order check applies only when both dates are set. */
  lemma CreateDateOrderNeedsBothDates(r: CreateInvoiceRequest)
    requires r.clientId != 0 && r.amount > 0.0 && ByteLen(r.description) <= 500
    ensures (IsZero(r.issueDate) || IsZero(r.dueDate)) ==> ValidateCreateInvoiceRequest(r)
    ensures !IsZero(r.issueDate) && !IsZero(r.dueDate) ==>
      (ValidateCreateInvoiceRequest(r) <==> r.issueDate <= r.dueDate)
  {
  }

  /** A description of exactly 500 ASCII characters passes; 501 does not. */
  lemma CreateDescriptionBound(base: Time, later: Time)
    requires 0 < base < later
    ensures ValidateCreateInvoiceRequest(CreateInvoiceRequest(1, 100.00, "", base, later, Repeat('a', 500)))
    ensures !ValidateCreateInvoiceRequest(CreateInvoiceRequest(1, 100.00, "", base, later, Repeat('a', 501)))
  {
    RepeatIsAscii('a', 500);
    RepeatIsAscii('a', 501);
  }

  /** The cases of the create-request test table. */
  lemma ValidateCreateTestTable(base: Time, later: Time)
    requires 0 < base < later
    ensures ValidateCreateInvoiceRequest(CreateInvoiceRequest(1, 150.75, Draft, base, later, "Test service"))
    ensures !ValidateCreateInvoiceRequest(CreateInvoiceRequest(0, 100.00, "", base, later, ""))
    ensures !ValidateCreateInvoiceRequest(CreateInvoiceRequest(1, 0.0, "", base, later, ""))
    ensures !ValidateCreateInvoiceRequest(CreateInvoiceRequest(1, 100.00, "", base, later, Repeat('a', 501)))
  {
    AsciiByteLen("Test service");
    CreateDescriptionBound(base, later);
  }

  /**
   * Binding counts characters where the helper counts bytes and never orders the dates: a
   * request can bind and still fail the helper both ways.
   */
  lemma BindingIsWeakerThanHelper(base: Time, later: Time)
    requires 0 < base < later
    ensures var r := CreateInvoiceRequest(1, 100.00, "", later, base, "");
      CreateRequestBinds(r) && !ValidateCreateInvoiceRequest(r)
    ensures var r := CreateInvoiceRequest(1, 100.00, "", base, later, Repeat('\U{00E9}', 500));
      CreateRequestBinds(r) && !ValidateCreateInvoiceRequest(r)
  {
    CreateRequestBindsMeaning(CreateInvoiceRequest(1, 100.00, "", later, base, ""));
    var wide := Repeat('\U{00E9}', 500);
    CreateRequestBindsMeaning(CreateInvoiceRequest(1, 100.00, "", base, later, wide));
    ByteLenAtLeastWidth(wide);
  }

  /** Two-byte characters take twice their count in bytes. */
  lemma {:induction false} ByteLenAtLeastWidth(s: string)
    requires forall i :: 0 <= i < |s| ==> s[i] == '\U{00E9}'
    ensures ByteLen(s) == 2 * |s|
    decreases |s|
  {
    if s != [] {
      ByteLenAtLeastWidth(s[..|s| - 1]);
    }
  }

  /**
   * `Invoice.IsOverdue` with the clock passed in: never for paid, cancelled or draft; for any
   * other status, exactly when `now` is after the due date.
   */
  function IsOverdue(inv: Invoice, now: Time): (late: bool)
    ensures late ==> inv.dueDate < now && inv.status != Paid && inv.status != Cancelled
  {
    if inv.status == Paid || inv.status == Cancelled || inv.status == Draft then false
    else After(now, inv.dueDate)
  }

  lemma SettledInvoicesAreNeverOverdue(inv: Invoice, now: Time)
    requires inv.status in {Paid, Cancelled, Draft}
    ensures !IsOverdue(inv, now)
  {
  }

  /** For every status but the three settled ones, overdue means past the due date. */
  lemma OverdueMeansPastDue(inv: Invoice, now: Time)
    requires inv.status !in {Paid, Cancelled, Draft}
    ensures IsOverdue(inv, now) <==> now > inv.dueDate
  {
  }

  /** Once overdue, an invoice stays overdue as time goes on. */
  lemma OverdueIsMonotone(inv: Invoice, now: Time, later: Time)
    requires now <= later && IsOverdue(inv, now)
    ensures IsOverdue(inv, later)
  {
  }

  /** Being late is not the stored status: an `overdue` invoice due in the future is not late, a `sent` one past due is. */
  lemma OverdueIsNotTheStatus(inv: Invoice, now: Time)
    ensures inv.status == Overdue && inv.dueDate >= now ==> !IsOverdue(inv, now)
    ensures inv.status == Sent && inv.dueDate < now ==> IsOverdue(inv, now)
  {
    assert Overdue != Paid && Overdue != Draft && Overdue != Cancelled;
    assert Sent != Paid && Sent != Draft && Sent != Cancelled;
  }

  /** The cases of the overdue test table, a day being 86400 seconds. */
  lemma OverdueTestTable(now: Time)
    ensures !IsOverdue(Invoice(0, "", 0, 0.0, Sent, 0, now + 86400, ""), now)
    ensures IsOverdue(Invoice(0, "", 0, 0.0, Sent, 0, now - 86400, ""), now)
    ensures !IsOverdue(Invoice(0, "", 0, 0.0, Paid, 0, now - 5 * 86400, ""), now)
    ensures !IsOverdue(Invoice(0, "", 0, 0.0, Draft, 0, now - 86400, ""), now)
  {
    assert Sent != Paid && Sent != Draft && Sent != Cancelled;
  }

  /** `generateLongString`: a fresh buffer of `length` bytes, each set to 'a'. */
  method GenerateLongString(length: nat) returns (s: string)
    ensures |s| == length
    ensures forall i :: 0 <= i < |s| ==> s[i] == 'a'
  {
    var result := new char[length];
    for i := 0 to length
      invariant forall k :: 0 <= k < i ==> result[k] == 'a'
    {
      result[i] := 'a';
    }
    s := result[..];
  }
}
