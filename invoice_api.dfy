/**
 * The decision logic of the invoice create, update and delete handlers. The two handler sets
 * of the repository (one over an injected database handle, one over a global handle) run the
 * same steps, so one model serves both. Every storage lookup is a parameter: whether the
 * client exists, how many invoices were created today, the invoice row that was loaded.
 */
module InvoiceApi {
  import opened Wrappers
  import opened Clock
  import opened Responses
  import opened Invoices
  import opened InvoiceRules
  import opened InvoiceNumbers

  /**
   * `CreateInvoice`: bind the request, check the client exists, number the invoice from
   * today's date and today's count, copy the request fields and default an empty status to
   * draft. The new row's `id` is 0 until storage assigns one.
   */
  method CreateInvoice(req: CreateInvoiceRequest, clientExists: bool, today: Date, createdToday: nat)
    returns (r: Result<Invoice, ApiError>)
    ensures !CreateRequestBinds(req) ==> r == Failure(InvalidBody)
    ensures CreateRequestBinds(req) && !clientExists ==> r == Failure(BadRequest("Client not found"))
    ensures r.Success? <==> CreateRequestBinds(req) && clientExists
    ensures r.Success? ==>
      && r.value.id == 0
      && r.value.number == InvoiceNumber(today, createdToday)
      && r.value.clientId == req.clientId
      && r.value.amount == req.amount
      && r.value.issueDate == req.issueDate
      && r.value.dueDate == req.dueDate
      && r.value.description == req.description
      && r.value.status == (if req.status == "" then Draft else req.status)
    ensures r.Success? ==> IsValidInvoiceStatus(r.value.status) && r.value.amount > 0.0
    ensures r.Success? && ValidDate(today) ==>
      ParseInvoiceNumber(r.value.number) == Some((today, createdToday + 1))
  {
    if !CreateRequestBinds(req) {
      return Failure(InvalidBody);
    }
    CreateRequestBindsMeaning(req);
    if !clientExists {
      return Failure(BadRequest("Client not found"));
    }
    var number := InvoiceNumber(today, createdToday);
    var invoice := Invoice(0, number, req.clientId, req.amount, req.status,
                           req.issueDate, req.dueDate, req.description);
    if invoice.status == "" {
      invoice := invoice.(status := Draft);
    }
    if ValidDate(today) {
      InvoiceNumberRoundTrip(today, createdToday);
    }
    r := Success(invoice);
  }

  /**
   * The field rules of `UpdateInvoice`: a positive amount, a non-empty status, a non-zero
   * date and a non-empty description overwrite; anything else keeps the stored value.
   */
  function PatchInvoice(inv: Invoice, req: UpdateInvoiceRequest): Invoice {
    inv.(
      amount := if req.amount > 0.0 then req.amount else inv.amount,
      status := if req.status != "" then req.status else inv.status,
      issueDate := if !IsZero(req.issueDate) then req.issueDate else inv.issueDate,
      dueDate := if !IsZero(req.dueDate) then req.dueDate else inv.dueDate,
      description := if req.description != "" then req.description else inv.description)
  }

  /**
   * `UpdateInvoice`: a missing invoice is not found before the body is read; a body that
   * fails binding is refused; otherwise the loaded invoice is overwritten field by field.
   */
  method UpdateInvoice(found: Option<Invoice>, req: UpdateInvoiceRequest)
    returns (r: Result<Invoice, ApiError>)
    ensures found.None? ==> r == Failure(NotFound("Invoice not found"))
    ensures found.Some? && !UpdateRequestBinds(req) ==> r == Failure(InvalidBody)
    ensures found.Some? && UpdateRequestBinds(req) ==> r == Success(PatchInvoice(found.value, req))
  {
    if found.None? {
      return Failure(NotFound("Invoice not found"));
    }
    var invoice := found.value;
    if !UpdateRequestBinds(req) {
      return Failure(InvalidBody);
    }
    if req.amount > 0.0 {
      invoice := invoice.(amount := req.amount);
    }
    if req.status != "" {
      invoice := invoice.(status := req.status);
    }
    if !IsZero(req.issueDate) {
      invoice := invoice.(issueDate := req.issueDate);
    }
    if !IsZero(req.dueDate) {
      invoice := invoice.(dueDate := req.dueDate);
    }
    if req.description != "" {
      invoice := invoice.(description := req.description);
    }
    r := Success(invoice);
  }

  /** The request that supplies nothing. */
  const EmptyPatch: UpdateInvoiceRequest := UpdateInvoiceRequest(0.0, "", ZeroTime, ZeroTime, "")

  /** An update that supplies nothing binds and leaves the invoice as it was. */
  lemma EmptyPatchIsIdentity(inv: Invoice)
    ensures UpdateRequestBinds(EmptyPatch)
    ensures PatchInvoice(inv, EmptyPatch) == inv
  {
    UpdateRequestBindsMeaning(EmptyPatch);
  }

  /** Update never touches the id, the number or the client. */
  lemma PatchKeepsIdentity(inv: Invoice, req: UpdateInvoiceRequest)
    ensures var p := PatchInvoice(inv, req);
      p.id == inv.id && p.number == inv.number && p.clientId == inv.clientId
  {
  }

  /** A supplied field always wins, and applying the same update twice is applying it once. */
  lemma PatchSuppliedWinsAndIsIdempotent(inv: Invoice, req: UpdateInvoiceRequest)
    ensures req.amount > 0.0 ==> PatchInvoice(inv, req).amount == req.amount
    ensures req.status != "" ==> PatchInvoice(inv, req).status == req.status
    ensures req.description != "" ==> PatchInvoice(inv, req).description == req.description
    ensures PatchInvoice(PatchInvoice(inv, req), req) == PatchInvoice(inv, req)
  {
  }

  /**
   * A bound update keeps a named status named and a positive amount positive: these are the
   * stored-record invariants the handler maintains.
   */
  lemma PatchKeepsRecordInvariants(inv: Invoice, req: UpdateInvoiceRequest)
    requires UpdateRequestBinds(req)
    ensures IsValidInvoiceStatus(inv.status) ==> IsValidInvoiceStatus(PatchInvoice(inv, req).status)
    ensures inv.amount > 0.0 ==> PatchInvoice(inv, req).amount > 0.0
  {
    UpdateRequestBindsMeaning(req);
  }

  /**
   * The handler does not consult the transition graph: a paid invoice can be set back to
   * draft, an edge the graph rejects.
   */
  lemma UpdateIgnoresTransitionGraph(inv: Invoice)
    requires inv.status == Paid
    ensures var req := UpdateInvoiceRequest(0.0, Draft, ZeroTime, ZeroTime, "");
      UpdateRequestBinds(req) && PatchInvoice(inv, req).status == Draft
      && !IsValidStatusTransition(inv.status, Draft)
  {
    var req := UpdateInvoiceRequest(0.0, Draft, ZeroTime, ZeroTime, "");
    UpdateRequestBindsMeaning(req);
    TerminalStatusesHaveNoEdges(Draft);
  }

  /** Nor does it re-check date order: an update can move the due date before the issue date. */
  lemma UpdateCanBreakDateOrder(inv: Invoice, due: Time)
    requires ValidateInvoice(inv) && due != ZeroTime && due < inv.issueDate
    ensures var req := UpdateInvoiceRequest(0.0, "", ZeroTime, due, "");
      UpdateRequestBinds(req) && !ValidateInvoice(PatchInvoice(inv, req))
  {
    UpdateRequestBindsMeaning(UpdateInvoiceRequest(0.0, "", ZeroTime, due, ""));
  }

  /** `DeleteInvoice`: a missing invoice is not found; a paid one is refused; any other is deleted. */
  method DeleteInvoice(found: Option<Invoice>) returns (r: Result<string, ApiError>)
    ensures found.None? ==> r == Failure(NotFound("Invoice not found"))
    ensures found.Some? && found.value.status == Paid ==>
      r == Failure(BadRequest("Cannot delete paid invoice"))
    ensures found.Some? ==> (r.Success? <==> found.value.status != Paid)
    ensures r.Success? ==> r.value == "Invoice deleted successfully"
  {
    if found.None? {
      return Failure(NotFound("Invoice not found"));
    }
    var invoice := found.value;
    if invoice.status == Paid {
      return Failure(BadRequest("Cannot delete paid invoice"));
    }
    r := Success("Invoice deleted successfully");
  }
}
