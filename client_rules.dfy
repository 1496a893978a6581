/**
 * The client checks of the billing model's test helpers: the record validator, the create
 * request validator, the simple email test, the character scan it is built on, and the
 * `String` rendering of a client. The helpers measure with Go's `len`, a byte count.
 */
module ClientRules {
  import opened Text
  import opened Decimal
  import opened Clients

  /** `containsChar`: a scan of the string that stops at the first occurrence of `c`. */
  method ContainsChar(s: string, c: char) returns (found: bool)
    ensures found <==> c in s
  {
    var i := 0;
    while i < |s|
      invariant 0 <= i <= |s|
      invariant c !in s[..i]
    {
      if s[i] == c {
        return true;
      }
      i := i + 1;
    }
    assert s[..i] == s;
    return false;
  }

  /** `isValidEmail`: 1 to 254 bytes, containing an '@' and a '.'. */
  function IsValidEmail(email: string): (ok: bool)
    ensures ok ==> 1 <= |email| <= 254
  {
    ByteLenBounds(email);
    0 < ByteLen(email) < 255 && '@' in email && '.' in email
  }

  /** `validateClient`: a non-empty name of at most 100 bytes and a non-empty valid email. */
  function ValidateClient(c: Client): (ok: bool)
    ensures ok ==> 1 <= |c.name| <= 100 && 1 <= |c.email| <= 254
  {
    ByteLenBounds(c.name);
    && c.name != ""
    && ByteLen(c.name) <= 100
    && c.email != ""
    && IsValidEmail(c.email)
  }

  /**
   * `validateCreateClientRequest`: a name of 2 to 100 bytes, a non-empty valid email, a phone
   * of at most 20 bytes and an address of at most 255.
   */
  function ValidateCreateClientRequest(r: CreateClientRequest): (ok: bool)
    ensures ok ==> |r.name| <= 100 && 1 <= |r.email| <= 254 && |r.phone| <= 20 && |r.address| <= 255
  {
    ByteLenBounds(r.name);
    ByteLenBounds(r.phone);
    ByteLenBounds(r.address);
    && r.name != "" && ByteLen(r.name) >= 2 && ByteLen(r.name) <= 100
    && r.email != "" && IsValidEmail(r.email)
    && ByteLen(r.phone) <= 20
    && ByteLen(r.address) <= 255
  }

  /** The '@' and the '.' may come in either order, and an email needs at least two characters. */
  lemma EmailCharacterOrder()
    ensures IsValidEmail("a@b.c") && IsValidEmail("a.b@c")
    ensures !IsValidEmail("a@bc") && !IsValidEmail("ab.c") && !IsValidEmail("")
    ensures forall e :: IsValidEmail(e) ==> |e| >= 2
  {
    assert "a@b.c"[1] == '@' && "a@b.c"[3] == '.';
    assert "a.b@c"[3] == '@' && "a.b@c"[1] == '.';
    assert forall i :: 0 <= i < |"a@bc"| ==> "a@bc"[i] != '.';
    assert forall i :: 0 <= i < |"ab.c"| ==> "ab.c"[i] != '@';
    assert IsAscii("a@b.c") && IsAscii("a.b@c");
    AsciiByteLen("a@b.c");
    AsciiByteLen("a.b@c");
    forall e | IsValidEmail(e) ensures |e| >= 2 {
      var i :| 0 <= i < |e| && e[i] == '@';
      var j :| 0 <= j < |e| && e[j] == '.';
      assert i != j;
    }
  }

  /** The byte bound on an email: 254 bytes pass and 255 fail. */
  lemma EmailLengthBound(local: string)
    requires IsAscii(local) && '@' in local && '.' in local
    requires |local| <= 254
    ensures IsValidEmail(local + Repeat('x', 254 - |local|))
    ensures !IsValidEmail(local + Repeat('x', 255 - |local|))
  {
    var pass := local + Repeat('x', 254 - |local|);
    var fail := local + Repeat('x', 255 - |local|);
    AsciiByteLen(local);
    RepeatIsAscii('x', 254 - |local|);
    RepeatIsAscii('x', 255 - |local|);
    ByteLenAppend(local, Repeat('x', 254 - |local|));
    ByteLenAppend(local, Repeat('x', 255 - |local|));
    var i :| 0 <= i < |local| && local[i] == '@';
    var j :| 0 <= j < |local| && local[j] == '.';
    assert pass[i] == '@' && pass[j] == '.';
  }

  /** The record built from a request that passes the create validator passes the record validator. */
  lemma CreateValidImpliesClientValid(r: CreateClientRequest, id: Uint64)
    requires ValidateCreateClientRequest(r)
    ensures ValidateClient(Client(id, r.name, r.email, r.phone, r.address))
  {
  }

  /**
   * The two validators disagree on a one-character name: the record validator accepts it
   * and the create validator refuses it.
   */
  lemma OneCharacterName(email: string)
    requires email != "" && IsValidEmail(email)
    ensures ValidateClient(Client(1, "J", email, "", ""))
    ensures !ValidateCreateClientRequest(CreateClientRequest("J", email, "", ""))
  {
    assert IsAscii("J");
    AsciiByteLen("J");
  }

  /**
   * Where every text field is ASCII, the request binding with `isValidEmail` as the email
   * grammar and the create validator accept the same requests.
   */
  lemma BindingMatchesValidatorOnAscii(r: CreateClientRequest)
    requires IsAscii(r.name) && IsAscii(r.phone) && IsAscii(r.address)
    ensures CreateClientRequestBinds(r, IsValidEmail) <==> ValidateCreateClientRequest(r)
  {
    CreateClientRequestBindsMeaning(r, IsValidEmail);
    AsciiByteLen(r.name);
    AsciiByteLen(r.phone);
    AsciiByteLen(r.address);
  }

  /**
   * The character `string(rune(c.ID + '0'))` renders: the sum is taken in `uint`, wrapping at
   * 2^64; `rune` keeps its low 32 bits as a signed `int32`; and a value that is not a Unicode
   * scalar value becomes U+FFFD.
   */
  function IdRune(id: Uint64): (r: char)
    ensures var low := (id + '0' as int) % 0x1_0000_0000;
      if low < 0xD800 || 0xE000 <= low < 0x11_0000 then r as int == low else r == '\U{FFFD}'
  {
    var sum := (id + '0' as int) % 0x1_0000_0000_0000_0000;
    var low := sum % 0x1_0000_0000;
    var code := if low >= 0x8000_0000 then low - 0x1_0000_0000 else low;
    if (0 <= code < 0xD800) || (0xE000 <= code < 0x11_0000) then code as char else '\U{FFFD}'
  }

  /** `Client.String`: the ID character, the name and the email; phone and address are omitted. */
  function ClientString(c: Client): (s: string)
    ensures |s| >= 13 && s[..11] == "Client{ID: " && s[11] == IdRune(c.id) && s[|s| - 1] == '}'
  {
    var head := "Client{ID: " + [IdRune(c.id)];
    var s := head + (", Name: " + c.name + ", Email: " + c.email + "}");
    assert s == "Client{ID: " + [IdRune(c.id)] + ", Name: " + c.name + ", Email: " + c.email + "}";
    assert s[..11] == head[..11];
    s
  }

  /** The rendering of the test's client. */
  lemma ClientStringExample()
    ensures ClientString(Client(1, "John Doe", "john@example.com", "+1234567890", ""))
      == "Client{ID: 1" + ", Name: John Doe" + ", Email: john@example.com}"
  {
    var c := Client(1, "John Doe", "john@example.com", "+1234567890", "");
    assert ClientString(c)
      == ("Client{ID: " + [IdRune(c.id)]) + (", Name: " + c.name) + (", Email: " + c.email + "}");
    assert IdRune(1) == '1';
    assert "Client{ID: " + ['1'] == "Client{ID: 1";
    assert ", Name: " + "John Doe" == ", Name: John Doe";
    assert ", Email: " + "john@example.com" + "}" == ", Email: john@example.com}";
  }

  /** Phone and address never reach the rendering. */
  lemma ClientStringIgnoresContact(c: Client, phone: string, address: string)
    ensures ClientString(c.(phone := phone, address := address)) == ClientString(c)
  {
  }

  /** IDs 0 to 9 render as their decimal digit. */
  lemma SmallIdsRenderAsDigits(id: Uint64)
    requires id <= 9
    ensures IdRune(id) == DigitChar(id)
    ensures [IdRune(id)] == NatToString(id)
  {
  }

  /**
   * From 10 on the rendering is not the decimal ID: 10 renders as ':', 2^32 wraps round to
   * '0' like ID 0, the largest `uint` wraps to '/', and 0xD7D0 lands on a surrogate and
   * renders as U+FFFD.
   */
  lemma LargeIdsAreNotDecimal()
    ensures IdRune(10) == ':'
    ensures IdRune(0x1_0000_0000) == IdRune(0) == '0'
    ensures IdRune(0xFFFF_FFFF_FFFF_FFFF) == '/'
    ensures IdRune(0xD800 - '0' as int) == '\U{FFFD}'
  {
  }

  /** The rendering the `String` method evidently intends: the ID in decimal. */
  function ClientStringDecimal(c: Client): string {
    "Client{ID: " + NatToString(c.id) + ", Name: " + c.name + ", Email: " + c.email + "}"
  }

  /**
   * The decimal rendering agrees with `String` on IDs 0 to 9, and it distinguishes every
   * pair of IDs: the ID is the digits between the "Client{ID: " prefix and the ", Name: "
   * that follows it, and reads back as the ID.
   */
  lemma ClientStringDecimalFaithful(c: Client)
    ensures c.id <= 9 ==> ClientStringDecimal(c) == ClientString(c)
    ensures var s := ClientStringDecimal(c); var k := |NatToString(c.id)|;
      && |s| >= 11 + k
      && s[11..11 + k] == NatToString(c.id)
      && ParseDigits(s[11..11 + k]) == c.id
  {
    var s := ClientStringDecimal(c);
    var k := |NatToString(c.id)|;
    assert s[11..11 + k] == NatToString(c.id);
    ParseNatToString(c.id);
  }
}
