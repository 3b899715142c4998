/** The few JavaScript value rules the components depend on: truthiness of
    numbers, `s || undefined`, `String.prototype.startsWith`,
    `String.prototype.trim`, and which members `JSON.stringify` writes. */
module Js {

  datatype Option<+T> = None | Some(value: T)

  /** A JavaScript number that may be `null` or `undefined` (both `None`).
      NaN and the infinities are not modelled; numbers are exact reals. */
  type Number = Option<real>

  /** `n` used as a condition (`if (n)`, `a && b`): present and non-zero. */
  predicate Truthy(n: Number) {
    n.Some? && n.value != 0.0
  }

  /** A JavaScript value as it can appear in an object literal or a query parameter. */
  datatype Value = Undefined | Null | Num(n: real) | Str(s: string)

  /** An object literal: its members in source order. */
  type Object = seq<(string, Value)>

  /** A number that may be null, as a value: `null` when absent. */
  function NumberValue(n: Number): (v: Value)
    ensures v != Undefined
    ensures v == Null <==> n.None?
    ensures n.Some? ==> v == Num(n.value)
  {
    match n
    case None => Null
    case Some(x) => Num(x)
  }

  /** `s || undefined` for a string: the empty string is falsy. */
  function OrUndefined(s: string): (v: Value)
    ensures v == Undefined <==> s == ""
    ensures v != Undefined ==> v == Str(s)
  {
    if s != "" then Str(s) else Undefined
  }

  /** The value of the first member named `k`, if any. */
  function Lookup(o: Object, k: string): Option<Value>
  {
    if o == [] then None
    else if o[0].0 == k then Some(o[0].1)
    else Lookup(o[1..], k)
  }

  predicate DistinctKeys(o: Object) {
    forall i, j :: 0 <= i < j < |o| ==> o[i].0 != o[j].0
  }

  lemma {:induction false} LookupAbsent(o: Object, k: string)
    requires forall i :: 0 <= i < |o| ==> o[i].0 != k
    ensures Lookup(o, k) == None
  {
    if o != [] {
      LookupAbsent(o[1..], k);
    }
  }

  /** The members `JSON.stringify` writes for an object: those whose value
      is not `undefined`, in order (the text encoding is not modelled). */
  function Stringified(o: Object): (r: Object)
    ensures |r| <= |o|
    ensures forall i :: 0 <= i < |r| ==> r[i].1 != Undefined
    ensures forall i :: 0 <= i < |r| ==> r[i] in o
  {
    if o == [] then []
    else if o[0].1 == Undefined then Stringified(o[1..])
    else [o[0]] + Stringified(o[1..])
  }

  /** Reading a member of the written object gives the member of the
      original, except that an `undefined` member is absent. */
  lemma {:induction false} StringifiedLookup(o: Object, k: string)
    requires DistinctKeys(o)
    ensures Lookup(Stringified(o), k) ==
            if Lookup(o, k) == Some(Undefined) then None else Lookup(o, k)
  {
    if o != [] {
      var rest := o[1..];
      assert DistinctKeys(rest) by {
        forall i, j | 0 <= i < j < |rest| ensures rest[i].0 != rest[j].0 {
          assert rest[i] == o[i + 1] && rest[j] == o[j + 1];
        }
      }
      StringifiedLookup(rest, k);
      if o[0].0 == k {
        forall i | 0 <= i < |rest| ensures rest[i].0 != k {
          assert rest[i] == o[i + 1];
        }
        LookupAbsent(rest, k);
      }
    }
  }

  predicate StartsWith(s: string, prefix: string) {
    |prefix| <= |s| && s[..|prefix|] == prefix
  }

  predicate EndsWith(s: string, suffix: string) {
    |suffix| <= |s| && s[|s| - |suffix|..] == suffix
  }

  /** The characters `String.prototype.trim` removes: ECMAScript WhiteSpace
      (tab, vertical tab, form feed, space, no-break space, the byte order
      mark and every space separator) and LineTerminator. */
  predicate IsWhitespace(c: char) {
    c == '\t' || c == '\n' || c == '\U{000B}' || c == '\U{000C}' || c == '\r' ||
    c == ' ' || c == '\U{00A0}' || c == '\U{1680}' ||
    ('\U{2000}' <= c <= '\U{200A}') ||
    c == '\U{2028}' || c == '\U{2029}' || c == '\U{202F}' || c == '\U{205F}' ||
    c == '\U{3000}' || c == '\U{FEFF}'
  }

  predicate Blank(s: string) {
    forall i :: 0 <= i < |s| ==> IsWhitespace(s[i])
  }

  function TrimStart(s: string): (r: string)
    ensures r == [] || !IsWhitespace(r[0])
    ensures |r| <= |s| && r == s[|s| - |r|..]
    ensures forall i :: 0 <= i < |s| - |r| ==> IsWhitespace(s[i])
  {
    if s != [] && IsWhitespace(s[0]) then TrimStart(s[1..]) else s
  }

  function TrimEnd(s: string): (r: string)
    ensures r == [] || !IsWhitespace(r[|r| - 1])
    ensures |r| <= |s| && r == s[..|r|]
    ensures forall i :: |r| <= i < |s| ==> IsWhitespace(s[i])
  {
    if s != [] && IsWhitespace(s[|s| - 1]) then TrimEnd(s[..|s| - 1]) else s
  }

  /** `s.trim()`. */
  function Trim(s: string): string {
    TrimEnd(TrimStart(s))
  }

  /** `!s.trim()` holds exactly for the empty and the whitespace-only strings. */
  lemma TrimEmptyIffBlank(s: string)
    ensures Trim(s) == "" <==> Blank(s)
  {
  }
}
