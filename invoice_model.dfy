/**
 * The billing invoice record, its status constants and the binding constraints of the create
 * and update requests. `InvoiceStatus` is a Go string type, so any text can reach a status
 * field; the five constants are the named values.
 */
module Invoices {
  import opened Clock
  import opened Binding

  type InvoiceStatus = string

  const Draft: InvoiceStatus := "draft"
  const Sent: InvoiceStatus := "sent"
  const Paid: InvoiceStatus := "paid"
  const Overdue: InvoiceStatus := "overdue"
  const Cancelled: InvoiceStatus := "cancelled"

  /** The five named statuses, in declaration order. */
  const StatusNames: seq<InvoiceStatus> := [Draft, Sent, Paid, Overdue, Cancelled]

  /** There are exactly five named statuses and no two share a spelling. */
  lemma StatusNamesDistinct()
    ensures |set s | s in StatusNames| == 5
    ensures forall i, j :: 0 <= i < j < |StatusNames| ==> StatusNames[i] != StatusNames[j]
  {
    assert Draft != Sent && Draft != Paid && Sent != Paid && Paid != Overdue;
    assert Draft[0] == 'd' && Sent[0] == 's' && Paid[0] == 'p' && Overdue[0] == 'o' && Cancelled[0] == 'c';
    assert (set s | s in StatusNames) == {Draft, Sent, Paid, Overdue, Cancelled};
  }

  /**
   * A stored invoice. `id` is assigned by storage (0 before the row is
   * created); `number` is unique in storage; the status column defaults to draft.
   */
  datatype Invoice = Invoice(
    id: nat,
    number: string,
    clientId: nat,
    amount: real,
    status: InvoiceStatus,
    issueDate: Time,
    dueDate: Time,
    description: string)

  datatype CreateInvoiceRequest = CreateInvoiceRequest(
    clientId: nat,
    amount: real,
    status: InvoiceStatus,
    issueDate: Time,
    dueDate: Time,
    description: string)

  datatype UpdateInvoiceRequest = UpdateInvoiceRequest(
    amount: real,
    status: InvoiceStatus,
    issueDate: Time,
    dueDate: Time,
    description: string)

  /** The word list of the `oneof` tag on both requests' status. */
  const StatusOneOf: seq<string> := ["draft", "sent", "paid", "overdue", "cancelled"]

  /** The binding tags of `CreateInvoiceRequest`, field by field. */
  predicate CreateRequestBinds(r: CreateInvoiceRequest) {
    && Holds([Required], Num(r.clientId), NoEmail)
    && Holds([Required, Gt(0)], Float(r.amount), NoEmail)
    && Holds([OmitEmpty, OneOf(StatusOneOf)], Str(r.status), NoEmail)
    && Holds([Required], Instant(r.issueDate), NoEmail)
    && Holds([Required], Instant(r.dueDate), NoEmail)
    && Holds([Max(500)], Str(r.description), NoEmail)
  }

  /** The binding tags of `UpdateInvoiceRequest`, field by field. */
  predicate UpdateRequestBinds(r: UpdateInvoiceRequest) {
    && Holds([OmitEmpty, Gt(0)], Float(r.amount), NoEmail)
    && Holds([OmitEmpty, OneOf(StatusOneOf)], Str(r.status), NoEmail)
    && Holds([OmitEmpty], Instant(r.issueDate), NoEmail)
    && Holds([OmitEmpty], Instant(r.dueDate), NoEmail)
    && Holds([OmitEmpty, Max(500)], Str(r.description), NoEmail)
  }

  /**
   * A create request binds exactly when it names a client, has a positive amount and both
   * dates, a status that is empty or one of the five, and a description of at most 500
   * characters.
   */
  lemma CreateRequestBindsMeaning(r: CreateInvoiceRequest)
    ensures CreateRequestBinds(r) <==>
      && r.clientId != 0
      && r.amount > 0.0
      && (r.status == "" || r.status in StatusNames)
      && !IsZero(r.issueDate) && !IsZero(r.dueDate)
      && |r.description| <= 500
  {
    assert StatusOneOf == StatusNames;
    HoldsOne(Required, Num(r.clientId), NoEmail);
    HoldsTwo(Required, Gt(0), Float(r.amount), NoEmail);
    HoldsTwo(OmitEmpty, OneOf(StatusOneOf), Str(r.status), NoEmail);
    HoldsOne(Required, Instant(r.issueDate), NoEmail);
    HoldsOne(Required, Instant(r.dueDate), NoEmail);
    HoldsOne(Max(500), Str(r.description), NoEmail);
  }

  /**
   * In an update request an amount of 0 means "not supplied" while any supplied amount must be
   * positive; a status, when present, is one of the five; a description, when present, is at
   * most 500 characters; the dates are unconstrained.
   */
  lemma UpdateRequestBindsMeaning(r: UpdateInvoiceRequest)
    ensures UpdateRequestBinds(r) <==>
      && r.amount >= 0.0
      && (r.status == "" || r.status in StatusNames)
      && |r.description| <= 500
  {
    assert StatusOneOf == StatusNames;
    HoldsTwo(OmitEmpty, Gt(0), Float(r.amount), NoEmail);
    HoldsTwo(OmitEmpty, OneOf(StatusOneOf), Str(r.status), NoEmail);
    HoldsOne(OmitEmpty, Instant(r.issueDate), NoEmail);
    HoldsOne(OmitEmpty, Instant(r.dueDate), NoEmail);
    HoldsTwo(OmitEmpty, Max(500), Str(r.description), NoEmail);
  }
}
