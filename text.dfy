/**
 * Go string primitives the validators rely on. Strings are sequences of Unicode scalar
 * values (Dafny `char`); a Go string decoded from JSON is valid UTF-8, so its `len` is the
 * UTF-8 encoding length computed here, while the validator library's `min`/`max` tags count
 * characters (`|s|`).
 */
module Text {

  /** The number of bytes UTF-8 needs for one character. */
  function Utf8Width(c: char): (w: nat)
    ensures 1 <= w <= 4
    ensures w == 1 <==> (c as int) < 0x80
  {
    if (c as int) < 0x80 then 1
    else if (c as int) < 0x800 then 2
    else if (c as int) < 0x1_0000 then 3
    else 4
  }

  /** Go's `len(s)`: the length of the UTF-8 encoding of `s`. */
  function ByteLen(s: string): nat
    decreases |s|
  {
    if s == [] then 0 else ByteLen(s[..|s| - 1]) + Utf8Width(s[|s| - 1])
  }

  predicate IsAscii(s: string) {
    forall i :: 0 <= i < |s| ==> (s[i] as int) < 0x80
  }

  /** Every character takes at least one and at most four bytes. */
  lemma {:induction false} ByteLenBounds(s: string)
    ensures |s| <= ByteLen(s) <= 4 * |s|
    decreases |s|
  {
    if s != [] {
      ByteLenBounds(s[..|s| - 1]);
    }
  }

  /** On ASCII text Go's byte length and the character count agree. */
  lemma {:induction false} AsciiByteLen(s: string)
    requires IsAscii(s)
    ensures ByteLen(s) == |s|
    decreases |s|
  {
    if s != [] {
      var init := s[..|s| - 1];
      assert IsAscii(init) by {
        forall i | 0 <= i < |init| ensures (init[i] as int) < 0x80 {
          assert init[i] == s[i];
        }
      }
      AsciiByteLen(init);
    }
  }

  /** Byte length of a concatenation is the sum of the byte lengths. */
  lemma {:induction false} ByteLenAppend(a: string, b: string)
    ensures ByteLen(a + b) == ByteLen(a) + ByteLen(b)
    decreases |b|
  {
    if b == [] {
      assert a + b == a;
    } else {
      var b' := b[..|b| - 1];
      assert (a + b)[..|a + b| - 1] == a + b';
      assert (a + b)[|a + b| - 1] == b[|b| - 1];
      ByteLenAppend(a, b');
    }
  }

  /**
   * Go's `unicode.IsSpace`: the Latin-1 spaces plus the other characters with the
   * Unicode White_Space property.
   */
  predicate IsSpace(c: char) {
    var n := c as int;
    (0x09 <= n <= 0x0D) || n == 0x20 || n == 0x85 || n == 0xA0
    || n == 0x1680 || (0x2000 <= n <= 0x200A)
    || n == 0x2028 || n == 0x2029 || n == 0x202F || n == 0x205F || n == 0x3000
  }

  /** `strings.TrimSpace(s) == ""`: nothing is left once leading and trailing spaces go. */
  predicate IsBlank(s: string) {
    forall i :: 0 <= i < |s| ==> IsSpace(s[i])
  }

  /** ASCII upper-casing, which is what `strings.ToUpper` does on ASCII text. */
  function AsciiUpper(s: string): (r: string)
    ensures |r| == |s|
    ensures forall i :: 0 <= i < |s| ==>
      r[i] == (if 'a' <= s[i] <= 'z' then (s[i] as int - 32) as char else s[i])
  {
    seq(|s|, i requires 0 <= i < |s| => if 'a' <= s[i] <= 'z' then (s[i] as int - 32) as char else s[i])
  }

  /** A string of `n` copies of `c`. */
  function Repeat(c: char, n: nat): (r: string)
    ensures |r| == n && forall i :: 0 <= i < n ==> r[i] == c
  {
    seq(n, _ => c)
  }

  lemma RepeatIsAscii(c: char, n: nat)
    requires (c as int) < 0x80
    ensures ByteLen(Repeat(c, n)) == n
  {
    AsciiByteLen(Repeat(c, n));
  }
}
