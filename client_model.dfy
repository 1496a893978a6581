/**
 * The billing client record and the binding constraints of its create and update requests.
 * The `email` tag's grammar belongs to the validator library, so every binding predicate
 * takes it as the parameter `isEmail`.
 *
 * `internal/billing/models/client.go` is not part of this model. Its `Client` (with `ID uint`)
 * and its request types are taken to carry the fields and tags of
 * `api/billing/internal/models/client.go`.
 */
module Clients {
  import opened Binding

  /** Go's `uint` on a 64-bit platform. */
  type Uint64 = x: nat | x < 0x1_0000_0000_0000_0000

  /** A stored client; `email` is unique in storage and `id` is assigned by storage. */
  datatype Client = Client(
    id: Uint64,
    name: string,
    email: string,
    phone: string,
    address: string)

  datatype CreateClientRequest = CreateClientRequest(
    name: string,
    email: string,
    phone: string,
    address: string)

  datatype UpdateClientRequest = UpdateClientRequest(
    name: string,
    email: string,
    phone: string,
    address: string)

  predicate CreateClientRequestBinds(r: CreateClientRequest, isEmail: string -> bool) {
    && Holds([Required, Min(2), Max(100)], Str(r.name), isEmail)
    && Holds([Required, Email], Str(r.email), isEmail)
    && Holds([Max(20)], Str(r.phone), isEmail)
    && Holds([Max(255)], Str(r.address), isEmail)
  }

  predicate UpdateClientRequestBinds(r: UpdateClientRequest, isEmail: string -> bool) {
    && Holds([OmitEmpty, Min(2), Max(100)], Str(r.name), isEmail)
    && Holds([OmitEmpty, Email], Str(r.email), isEmail)
    && Holds([OmitEmpty, Max(20)], Str(r.phone), isEmail)
    && Holds([OmitEmpty, Max(255)], Str(r.address), isEmail)
  }

  /**
   * A create request binds exactly when the name has 2 to 100 characters, the email is
   * non-empty and well-formed, the phone has at most 20 characters and the address at most 255.
   */
  lemma CreateClientRequestBindsMeaning(r: CreateClientRequest, isEmail: string -> bool)
    ensures CreateClientRequestBinds(r, isEmail) <==>
      && 2 <= |r.name| <= 100
      && r.email != "" && isEmail(r.email)
      && |r.phone| <= 20
      && |r.address| <= 255
  {
    HoldsThree(Required, Min(2), Max(100), Str(r.name), isEmail);
    HoldsTwo(Required, Email, Str(r.email), isEmail);
    HoldsOne(Max(20), Str(r.phone), isEmail);
    HoldsOne(Max(255), Str(r.address), isEmail);
  }

  /**
   * Every update field is optional; a supplied one obeys the create bounds and format. An
   * absent (empty) field always binds, the binding is field by field, and a supplied name is
   * held to the same 2..100 bound as on create.
   */
  lemma UpdateClientRequestBindsMeaning(r: UpdateClientRequest, isEmail: string -> bool)
    ensures UpdateClientRequestBinds(r, isEmail) <==>
      && (r.name == "" || 2 <= |r.name| <= 100)
      && (r.email == "" || isEmail(r.email))
      && |r.phone| <= 20
      && |r.address| <= 255
  {
    HoldsThree(OmitEmpty, Min(2), Max(100), Str(r.name), isEmail);
    HoldsTwo(OmitEmpty, Email, Str(r.email), isEmail);
    HoldsTwo(OmitEmpty, Max(20), Str(r.phone), isEmail);
    HoldsTwo(OmitEmpty, Max(255), Str(r.address), isEmail);
  }
}
