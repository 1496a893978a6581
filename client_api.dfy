/**
 * The decision logic of the billing client handlers: create copies the bound request into a
 * new record, update patches the loaded record field by field, delete refuses while invoices
 * still reference the client. The loaded row and the invoice count are parameters.
 */
module ClientApi {
  import opened Wrappers
  import opened Responses
  import opened Clients

  /** `CreateClient`: a request that binds becomes a record with the same four fields and no id yet. */
  method CreateClient(req: CreateClientRequest, isEmail: string -> bool)
    returns (r: Result<Client, ApiError>)
    ensures r.Success? <==> CreateClientRequestBinds(req, isEmail)
    ensures r.Failure? ==> r.error == InvalidBody
    ensures r.Success? ==>
      && r.value.id == 0
      && r.value.name == req.name && r.value.email == req.email
      && r.value.phone == req.phone && r.value.address == req.address
    ensures r.Success? ==> 2 <= |r.value.name| <= 100 && r.value.email != ""
  {
    if !CreateClientRequestBinds(req, isEmail) {
      return Failure(InvalidBody);
    }
    CreateClientRequestBindsMeaning(req, isEmail);
    var client := Client(0, req.name, req.email, req.phone, req.address);
    r := Success(client);
  }

  /** The field rule of `UpdateClient`: a non-empty field overwrites, an empty one keeps the stored value. */
  function PatchClient(c: Client, req: UpdateClientRequest): Client {
    c.(
      name := if req.name != "" then req.name else c.name,
      email := if req.email != "" then req.email else c.email,
      phone := if req.phone != "" then req.phone else c.phone,
      address := if req.address != "" then req.address else c.address)
  }

  /** `UpdateClient`: not found before the body is read, then binding, then the patch. */
  method UpdateClient(found: Option<Client>, req: UpdateClientRequest, isEmail: string -> bool)
    returns (r: Result<Client, ApiError>)
    ensures found.None? ==> r == Failure(NotFound("Client not found"))
    ensures found.Some? && !UpdateClientRequestBinds(req, isEmail) ==> r == Failure(InvalidBody)
    ensures found.Some? && UpdateClientRequestBinds(req, isEmail) ==>
      r == Success(PatchClient(found.value, req))
  {
    if found.None? {
      return Failure(NotFound("Client not found"));
    }
    var client := found.value;
    if !UpdateClientRequestBinds(req, isEmail) {
      return Failure(InvalidBody);
    }
    if req.name != "" {
      client := client.(name := req.name);
    }
    if req.email != "" {
      client := client.(email := req.email);
    }
    if req.phone != "" {
      client := client.(phone := req.phone);
    }
    if req.address != "" {
      client := client.(address := req.address);
    }
    r := Success(client);
  }

  /**
   * No update can clear a field: a non-empty stored field stays non-empty whatever the
   * request, and the id never changes.
   */
  lemma PatchNeverClears(c: Client, req: UpdateClientRequest)
    ensures var p := PatchClient(c, req);
      && p.id == c.id
      && (c.name != "" ==> p.name != "")
      && (c.email != "" ==> p.email != "")
      && (c.phone != "" ==> p.phone != "")
      && (c.address != "" ==> p.address != "")
  {
  }

  /** An update whose fields are all empty binds and leaves the client as it was. */
  lemma EmptyUpdateIsIdentity(c: Client, isEmail: string -> bool)
    ensures UpdateClientRequestBinds(UpdateClientRequest("", "", "", ""), isEmail)
    ensures PatchClient(c, UpdateClientRequest("", "", "", "")) == c
  {
    UpdateClientRequestBindsMeaning(UpdateClientRequest("", "", "", ""), isEmail);
  }

  /** A patch takes every supplied field, and applying it a second time changes nothing. */
  lemma PatchSuppliedWins(c: Client, req: UpdateClientRequest)
    ensures req.name != "" ==> PatchClient(c, req).name == req.name
    ensures req.email != "" ==> PatchClient(c, req).email == req.email
    ensures req.phone != "" ==> PatchClient(c, req).phone == req.phone
    ensures req.address != "" ==> PatchClient(c, req).address == req.address
    ensures PatchClient(PatchClient(c, req), req) == PatchClient(c, req)
  {
  }

  /**
   * A bound update keeps the stored-record bounds the create request established: a name
   * of 2..100 characters and a phone of at most 20 stay so.
   */
  lemma PatchKeepsCreateBounds(c: Client, req: UpdateClientRequest, isEmail: string -> bool)
    requires UpdateClientRequestBinds(req, isEmail)
    requires 2 <= |c.name| <= 100 && |c.phone| <= 20 && |c.address| <= 255
    ensures var p := PatchClient(c, req);
      2 <= |p.name| <= 100 && |p.phone| <= 20 && |p.address| <= 255
  {
    UpdateClientRequestBindsMeaning(req, isEmail);
  }

  /**
   * `DeleteClient`: a missing client is not found, and no invoices are counted for it; a
   * client with invoices is refused with their count; otherwise it is deleted.
   */
  method DeleteClient(found: Option<Client>, invoiceCount: nat) returns (r: Result<string, ApiError>)
    ensures found.None? ==> r == Failure(NotFound("Client not found"))
    ensures found.Some? && invoiceCount > 0 ==>
      r == Failure(Blocked("Cannot delete client with existing invoices", "invoice_count", invoiceCount))
    ensures r.Success? <==> found.Some? && invoiceCount == 0
    ensures r.Success? ==> r.value == "Client deleted successfully"
  {
    if found.None? {
      return Failure(NotFound("Client not found"));
    }
    if invoiceCount > 0 {
      return Failure(Blocked("Cannot delete client with existing invoices", "invoice_count", invoiceCount));
    }
    r := Success("Client deleted successfully");
  }
}
