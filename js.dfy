/** The JavaScript values and built-in string and array operations that the
    booking and venue forms rely on, restated over Dafny values.
    Numbers are integers: floating point and NaN are not modelled. */
module Js {

  datatype Option<T> = None | Some(value: T)

  /** A JavaScript value as the forms and the loaded records hold it. */
  datatype Value = Undefined | Null | Bool(b: bool) | Num(n: int) | Str(s: string)

  /** JavaScript truthiness: `undefined`, `null`, `false`, `0` and `""` are falsy. */
  predicate Truthy(v: Value) {
    match v
    case Undefined => false
    case Null => false
    case Bool(b) => b
    case Num(n) => n != 0
    case Str(s) => s != ""
  }

  /** The expression `a || b`. */
  function Or(a: Value, b: Value): Value {
    if Truthy(a) then a else b
  }

  /** The characters JavaScript's `\s`, `\S` and `String.prototype.trim` treat as
      white space: the WhiteSpace and LineTerminator code points of ECMAScript. */
  predicate IsWhitespace(c: char) {
    var n := c as int;
    n == 0x09 || n == 0x0A || n == 0x0B || n == 0x0C || n == 0x0D || n == 0x20 ||
    n == 0xA0 || n == 0x1680 || (0x2000 <= n <= 0x200A) || n == 0x2028 || n == 0x2029 ||
    n == 0x202F || n == 0x205F || n == 0x3000 || n == 0xFEFF
  }

  /** A string made of white space only (the empty string included). */
  predicate IsBlank(s: string) {
    forall i :: 0 <= i < |s| ==> IsWhitespace(s[i])
  }

  function TrimStart(s: string): string {
    if s != [] && IsWhitespace(s[0]) then TrimStart(s[1..]) else s
  }

  function TrimEnd(s: string): string {
    if s != [] && IsWhitespace(s[|s| - 1]) then TrimEnd(s[..|s| - 1]) else s
  }

  /** `s.trim()`. */
  function Trim(s: string): string {
    TrimEnd(TrimStart(s))
  }

  lemma {:induction false} TrimStartEmptyIffBlank(s: string)
    ensures TrimStart(s) == "" <==> IsBlank(s)
    ensures TrimStart(s) != "" ==> !IsWhitespace(TrimStart(s)[0])
  {
    if s != [] && IsWhitespace(s[0]) {
      TrimStartEmptyIffBlank(s[1..]);
      assert IsBlank(s[1..]) ==> IsBlank(s) by {
        if IsBlank(s[1..]) {
          forall i | 0 <= i < |s| ensures IsWhitespace(s[i]) {
            if i > 0 { assert s[i] == s[1..][i - 1]; }
          }
        }
      }
    }
  }

  lemma {:induction false} TrimEndKeepsFirst(s: string)
    requires s != [] && !IsWhitespace(s[0])
    ensures TrimEnd(s) != [] && TrimEnd(s)[0] == s[0]
  {
    if IsWhitespace(s[|s| - 1]) {
      TrimEndKeepsFirst(s[..|s| - 1]);
    }
  }

  /** `s.trim()` is empty exactly when `s` is blank: the test the venue forms
      use to drop image entries without a URL. */
  lemma TrimEmptyIffBlank(s: string)
    ensures Trim(s) == "" <==> IsBlank(s)
  {
    TrimStartEmptyIffBlank(s);
    if TrimStart(s) != "" {
      TrimEndKeepsFirst(TrimStart(s));
    }
  }

  /** `toLowerCase` on one character, for the ASCII letters. */
  function LowerChar(c: char): char {
    if 'A' <= c <= 'Z' then (c as int + 32) as char else c
  }

  /** `s.toLowerCase()`, restricted to ASCII letters. */
  function ToLower(s: string): string {
    seq(|s|, i requires 0 <= i < |s| => LowerChar(s[i]))
  }

  /** `q` occurs in `text` starting at position `i`. */
  predicate OccursAt(text: string, q: string, i: int) {
    0 <= i && i + |q| <= |text| && text[i..i + |q|] == q
  }

  /** `text.includes(q)`: `q` occurs in `text` at some position. */
  predicate Includes(text: string, q: string) {
    exists i :: 0 <= i <= |text| - |q| && OccursAt(text, q, i)
  }

  /** `s.filter(keep)` for a callback without side effects. */
  function FilterSeq<T>(s: seq<T>, keep: T -> bool): seq<T> {
    if s == [] then []
    else (if keep(s[0]) then [s[0]] else []) + FilterSeq(s[1..], keep)
  }

  /** The filter distributes over concatenation, so it keeps the order of
      the elements. */
  lemma {:induction false} FilterSeqConcat<T>(a: seq<T>, b: seq<T>, keep: T -> bool)
    ensures FilterSeq(a + b, keep) == FilterSeq(a, keep) + FilterSeq(b, keep)
  {
    if a == [] {
      assert a + b == b;
    } else {
      var head := if keep(a[0]) then [a[0]] else [];
      calc {
        FilterSeq(a + b, keep);
      == { assert a + b != [] && (a + b)[0] == a[0] && (a + b)[1..] == a[1..] + b; }
        head + FilterSeq(a[1..] + b, keep);
      == { FilterSeqConcat(a[1..], b, keep); }
        head + (FilterSeq(a[1..], keep) + FilterSeq(b, keep));
      ==
        (head + FilterSeq(a[1..], keep)) + FilterSeq(b, keep);
      }
    }
  }

  /** An element is in the result exactly when it is in the input and kept. */
  lemma {:induction false} FilterSeqMembers<T>(s: seq<T>, keep: T -> bool, x: T)
    ensures x in FilterSeq(s, keep) <==> x in s && keep(x)
  {
    if s != [] {
      FilterSeqMembers(s[1..], keep, x);
      assert s == [s[0]] + s[1..];
    }
  }

  /** The filter never adds elements. */
  lemma {:induction false} FilterSeqShorter<T>(s: seq<T>, keep: T -> bool)
    ensures |FilterSeq(s, keep)| <= |s|
  {
    if s != [] {
      FilterSeqShorter(s[1..], keep);
    }
  }

  /** How `Array.prototype.slice` turns a possibly negative index into a position. */
  function ClampIndex(i: int, len: nat): (r: nat)
    ensures r <= len
  {
    if i < 0 then (if len + i < 0 then 0 else len + i)
    else if i > len then len
    else i
  }

  /** `s.slice(start, end)`. */
  function Slice<T>(s: seq<T>, start: int, end: int): seq<T> {
    var a, b := ClampIndex(start, |s|), ClampIndex(end, |s|);
    if a < b then s[a..b] else []
  }

  /** A negative bound of `slice` counts back from the end of the sequence. */
  lemma SliceBackFromEnd<T>(s: seq<T>, start: int, end: int)
    requires -|s| <= start < 0
    ensures Slice(s, start, end) == Slice(s, |s| + start, end)
  {
  }

  /** Bounds that are not negative and in order select the run between them,
      cut off at the end of the sequence. */
  lemma SliceInRange<T>(s: seq<T>, start: int, end: int)
    requires 0 <= start <= end
    ensures var a, b := if start < |s| then start else |s|, if end < |s| then end else |s|;
      Slice(s, start, end) == s[a..b]
  {
  }

  /** Bounds out of order, or both past the end, select nothing. */
  lemma SliceEmpty<T>(s: seq<T>, start: int, end: int)
    requires 0 <= end <= start || |s| <= start
    ensures Slice(s, start, end) == []
  {
  }

  function DigitChar(d: int): char
    requires 0 <= d < 10
  {
    ('0' as int + d) as char
  }

  function NatText(n: nat): string
    decreases n
  {
    if n < 10 then [DigitChar(n)] else NatText(n / 10) + [DigitChar(n % 10)]
  }

  /** How a template literal writes a value: `${v}`. */
  function ToText(v: Value): string {
    match v
    case Undefined => "undefined"
    case Null => "null"
    case Bool(b) => if b then "true" else "false"
    case Num(n) => if n < 0 then "-" + NatText(-n) else NatText(n)
    case Str(s) => s
  }
}
