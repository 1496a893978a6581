/**
 * Request binding: the `binding:"..."` struct tags that gin checks through the validator
 * library before a handler sees a request. A tag list is data here and `Holds` gives it the
 * library's meaning for the tags this repository uses: `required` rejects the zero value,
 * `omitempty` skips the remaining tags when the value is zero, `gt`/`min`/`max` compare a
 * number or a string's character count, `oneof` is membership in a word list. The library's
 * `email` grammar is not visible, so it is a parameter.
 */
module Binding {
  import opened Clock

  /** A field value of the kinds the request structs carry. */
  datatype Value = Str(s: string) | Num(n: int) | Float(x: real) | Instant(t: Time)

  datatype Tag = Required | OmitEmpty | Gt(bound: int) | Min(bound: int) | Max(bound: int)
    | OneOf(words: seq<string>) | Email

  /** Go's zero value of the field's type: "", 0, 0.0 or the zero time. */
  predicate IsZeroValue(v: Value) {
    match v
    case Str(s) => s == ""
    case Num(n) => n == 0
    case Float(x) => x == 0.0
    case Instant(t) => IsZero(t)
  }

  /** One tag on a value; comparison tags are not used on time fields in this repository. */
  predicate TagHolds(tag: Tag, v: Value, isEmail: string -> bool) {
    match tag
    case Required => !IsZeroValue(v)
    case OmitEmpty => true
    case Gt(b) => (v.Str? && |v.s| > b) || (v.Num? && v.n > b) || (v.Float? && v.x > b as real)
    case Min(b) => (v.Str? && |v.s| >= b) || (v.Num? && v.n >= b) || (v.Float? && v.x >= b as real)
    case Max(b) => (v.Str? && |v.s| <= b) || (v.Num? && v.n <= b) || (v.Float? && v.x <= b as real)
    case OneOf(words) => v.Str? && v.s in words
    case Email => v.Str? && isEmail(v.s)
  }

  /** A field passes its tag list. */
  predicate Holds(tags: seq<Tag>, v: Value, isEmail: string -> bool)
    decreases |tags|
  {
    if tags == [] then true
    else if tags[0] == OmitEmpty then IsZeroValue(v) || Holds(tags[1..], v, isEmail)
    else TagHolds(tags[0], v, isEmail) && Holds(tags[1..], v, isEmail)
  }

  /** Unfolding `Holds` on the one-, two- and three-tag lists the requests use. */
  lemma HoldsOne(t: Tag, v: Value, isEmail: string -> bool)
    ensures Holds([t], v, isEmail) ==
      if t == OmitEmpty then true else TagHolds(t, v, isEmail)
  {
    assert [t][1..] == [];
  }

  lemma HoldsTwo(t1: Tag, t2: Tag, v: Value, isEmail: string -> bool)
    requires t2 != OmitEmpty
    ensures Holds([t1, t2], v, isEmail) ==
      if t1 == OmitEmpty then IsZeroValue(v) || TagHolds(t2, v, isEmail)
      else TagHolds(t1, v, isEmail) && TagHolds(t2, v, isEmail)
  {
    assert [t1, t2][1..] == [t2];
    HoldsOne(t2, v, isEmail);
  }

  lemma HoldsThree(t1: Tag, t2: Tag, t3: Tag, v: Value, isEmail: string -> bool)
    requires t2 != OmitEmpty && t3 != OmitEmpty
    ensures Holds([t1, t2, t3], v, isEmail) ==
      if t1 == OmitEmpty then IsZeroValue(v) || (TagHolds(t2, v, isEmail) && TagHolds(t3, v, isEmail))
      else TagHolds(t1, v, isEmail) && TagHolds(t2, v, isEmail) && TagHolds(t3, v, isEmail)
  {
    assert [t1, t2, t3][1..] == [t2, t3];
    HoldsTwo(t2, t3, v, isEmail);
  }

  /** The email grammar passed for requests none of whose fields carries the `email` tag. */
  function NoEmail(s: string): bool { true }
}
