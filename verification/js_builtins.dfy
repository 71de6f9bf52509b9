/**
 * The JavaScript built-ins the oven relies on, with their edge cases written out:
 * `slice` on strings and arrays (negative and over-long indices are clamped),
 * `replace(/\D/g, "")`, `toLowerCase`, `Number(...)` on the decimal strings the
 * account stores, and `toString()` of a non-negative integer.
 */
module JsBuiltins {
  import opened Wrappers

  // ---------------------------------------------------------------- slice

  /** The position `slice` uses for argument `k` on a sequence of length `len`:
      a negative `k` counts from the end, and the result is clamped to [0, len]. */
  function ClampIndex(len: nat, k: int): (r: nat)
    ensures r <= len
  {
    if k < 0 then (if len + k < 0 then 0 else len + k)
    else if k > len then len else k
  }

  /** `s.slice(start, end)` */
  function Slice<T>(s: seq<T>, start: int, end: int): (r: seq<T>)
    ensures |r| <= |s|
    ensures 0 <= start <= end <= |s| ==> r == s[start..end]
    ensures 0 <= start && end > |s| ==> r == SliceFrom(s, start)
    ensures start >= end && (0 <= end || start < 0) ==> r == []
  {
    var from := ClampIndex(|s|, start);
    var to := ClampIndex(|s|, end);
    if from <= to then s[from..to] else []
  }

  /** `s.slice(start)` */
  function SliceFrom<T>(s: seq<T>, start: int): (r: seq<T>)
    ensures |r| <= |s|
    ensures 0 <= start <= |s| ==> r == s[start..]
    ensures start > |s| ==> r == []
    ensures start < 0 ==> r == s[|s| - |r|..] && |r| == (if |s| + start < 0 then |s| else -start)
  {
    s[ClampIndex(|s|, start)..]
  }

  /** `s.slice(0, k)` and `s.slice(k)` split `s` in two, for every integer `k`;
      for a non-negative `k` the first part has `min(k, |s|)` elements. */
  lemma SliceSplits<T>(s: seq<T>, k: int)
    ensures Slice(s, 0, k) + SliceFrom(s, k) == s
    ensures 0 <= k ==> |Slice(s, 0, k)| == if k <= |s| then k else |s|
    ensures k < 0 ==> |Slice(s, 0, k)| == if |s| + k < 0 then 0 else |s| + k
  {
  }

  // ---------------------------------------------------------------- digits

  predicate IsDigit(c: char) {
    '0' <= c <= '9'
  }

  predicate AllDigits(s: string) {
    forall i :: 0 <= i < |s| ==> IsDigit(s[i])
  }

  /** `s.replace(/\D/g, "")`: every character outside 0-9 is removed. */
  function StripNonDigits(s: string): (r: string)
    ensures AllDigits(r)
    ensures |r| <= |s|
  {
    if s == [] then []
    else (if IsDigit(s[0]) then [s[0]] else []) + StripNonDigits(s[1..])
  }

  /** A string of digits is left as it is. */
  lemma {:induction false} StripKeepsDigits(s: string)
    requires AllDigits(s)
    ensures StripNonDigits(s) == s
  {
    if s != [] {
      StripKeepsDigits(s[1..]);
    }
  }

  /** Stripping works character by character, so it distributes over concatenation. */
  lemma {:induction false} StripDistributes(a: string, b: string)
    ensures StripNonDigits(a + b) == StripNonDigits(a) + StripNonDigits(b)
  {
    if a == [] {
      assert a + b == b;
    } else {
      assert (a + b)[1..] == a[1..] + b;
      StripDistributes(a[1..], b);
    }
  }

  /** Stripping twice is stripping once. */
  lemma StripIdempotent(s: string)
    ensures StripNonDigits(StripNonDigits(s)) == StripNonDigits(s)
  {
    StripKeepsDigits(StripNonDigits(s));
  }

  // ---------------------------------------------------------------- numbers

  function DigitValue(c: char): nat
    requires IsDigit(c)
  {
    c as int - '0' as int
  }

  function DigitChar(d: nat): (c: char)
    requires d < 10
    ensures IsDigit(c) && DigitValue(c) == d
  {
    ('0' as int + d) as char
  }

  /** The value of a decimal digit string, most significant digit first. */
  function DigitsValue(s: string): nat
    requires AllDigits(s)
  {
    if s == [] then 0 else DigitsValue(s[..|s| - 1]) * 10 + DigitValue(s[|s| - 1])
  }

  /** `Number(s)` on the strings the account stores: the empty string is 0, an
      optional sign followed by at least one decimal digit is that integer, and
      anything else is NaN (`None`). */
  function JsNumber(s: string): (r: Option<int>)
    ensures s == "" ==> r == Some(0)
    ensures AllDigits(s) ==> r.Some? && r.value >= 0
  {
    if s == "" then Some(0)
    else if (s[0] == '-' || s[0] == '+') && |s| > 1 && AllDigits(s[1..]) then
      Some(if s[0] == '-' then 0 - DigitsValue(s[1..]) as int else DigitsValue(s[1..]) as int)
    else if AllDigits(s) then Some(DigitsValue(s))
    else None
  }

  /** `n.toString()` for a non-negative integer: its decimal digits. */
  function NatToString(n: nat): (s: string)
    ensures |s| >= 1 && AllDigits(s)
  {
    if n < 10 then [DigitChar(n)] else NatToString(n / 10) + [DigitChar(n % 10)]
  }

  lemma {:induction false} NatToStringValue(n: nat)
    ensures DigitsValue(NatToString(n)) == n
  {
    if n >= 10 {
      var s := NatToString(n);
      assert s[..|s| - 1] == NatToString(n / 10);
      NatToStringValue(n / 10);
    }
  }

  /** `Number(n.toString()) == n`: a timestamp written with `toString` reads back unchanged. */
  lemma NumberOfNatToString(n: nat)
    ensures JsNumber(NatToString(n)) == Some(n)
  {
    NatToStringValue(n);
  }

  // ---------------------------------------------------------------- case

  /** An upper-case letter of ASCII or Latin-1 (A-Z, and À-Þ except ×). */
  predicate IsUpper(c: char) {
    'A' <= c <= 'Z' || (0xC0 <= c as int <= 0xDE && c as int != 0xD7)
  }

  /** `toLowerCase` on one character: an upper-case letter moves to its
      lower-case partner, 32 code points on. */
  function LowerChar(c: char): char {
    if IsUpper(c) then (c as int + 32) as char else c
  }

  /** `s.toLowerCase()`: no upper-case letter is left, every other character is
      kept, and each upper-case letter becomes its lower-case partner. */
  function LowerCase(s: string): (r: string)
    ensures |r| == |s|
    ensures forall i :: 0 <= i < |r| ==> !IsUpper(r[i])
    ensures forall i :: 0 <= i < |s| && !IsUpper(s[i]) ==> r[i] == s[i]
    ensures forall i :: 0 <= i < |s| && 'A' <= s[i] <= 'Z' ==> r[i] as int == s[i] as int + 32
  {
    seq(|s|, i requires 0 <= i < |s| => LowerChar(s[i]))
  }

  /** Lower-casing twice is lower-casing once. */
  lemma LowerCaseIdempotent(s: string)
    ensures LowerCase(LowerCase(s)) == LowerCase(s)
  {
  }
}
