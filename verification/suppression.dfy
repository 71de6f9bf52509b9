/**
 * The suppression filter of an account: how `sendMessage` turns a recipient
 * number into a blacklist key, how `addToBlacklist` and `removeFromBlacklist`
 * edit the blacklist array, and the inbound stop phrase that enrols a sender.
 */
module Suppression {
  import opened JsBuiltins

  /** The key `sendMessage` looks up for a digits-only number: a 10-digit number
      is its own key; any other length drops the character at index 2 (through
      `slice`, so a number shorter than 3 digits is its own key too). */
  function BlacklistKey(digits: string): (key: string)
    ensures |digits| == 10 ==> key == digits
    ensures |digits| < 3 ==> key == digits
    ensures |digits| >= 3 && |digits| != 10 ==> key == digits[..2] + digits[3..]
  {
    if |digits| == 10 then digits else Slice(digits, 0, 2) + SliceFrom(digits, 3)
  }

  /** Whether `sendMessage` silently skips a recipient: a number with 10 digits
      is skipped when those digits are listed, one with 3 or more digits of any
      other length when its digits without the one at index 2 are. */
  predicate Suppressed(blacklist: seq<string>, number: string)
    ensures var d := StripNonDigits(number);
      |d| == 10 ==> (Suppressed(blacklist, number) <==> d in blacklist)
    ensures var d := StripNonDigits(number);
      |d| >= 3 && |d| != 10 ==> (Suppressed(blacklist, number) <==> d[..2] + d[3..] in blacklist)
  {
    BlacklistKey(StripNonDigits(number)) in blacklist
  }

  /** The 11-digit and 10-digit forms of one number (with and without the extra
      mobile digit at index 2) share one key, and that key is the 10-digit form. */
  lemma MobileDigitCollapses(digits: string)
    requires |digits| == 11
    ensures BlacklistKey(digits) == BlacklistKey(digits[..2] + digits[3..])
    ensures BlacklistKey(digits) == digits[..2] + digits[3..]
  {
  }

  lemma KeyExample()
    ensures BlacklistKey("11987654321") == "1187654321"
    ensures BlacklistKey("1187654321") == "1187654321"
  {
    MobileDigitCollapses("11987654321");
  }

  /** Punctuation and spaces in a recipient number never change the verdict. */
  lemma {:induction false} FormattingIgnored(blacklist: seq<string>, a: string, b: string)
    requires StripNonDigits(a) == StripNonDigits(b)
    ensures Suppressed(blacklist, a) <==> Suppressed(blacklist, b)
  {
  }

  // ---------------------------------------------------------------- blacklist edits

  /** `addToBlacklist(number)`: unchanged when present, otherwise appended. */
  function Added(blacklist: seq<string>, number: string): (r: seq<string>)
    ensures number in r
    ensures forall x :: x in r <==> x in blacklist || x == number
    ensures blacklist <= r
  {
    if number in blacklist then blacklist else blacklist + [number]
  }

  /** `blacklist.filter((item) => item != number)` */
  function Without(blacklist: seq<string>, number: string): (r: seq<string>)
    ensures number !in r
    ensures forall x :: x != number ==> (x in r <==> x in blacklist)
    ensures |r| <= |blacklist|
  {
    if blacklist == [] then []
    else (if blacklist[0] == number then [] else [blacklist[0]]) + Without(blacklist[1..], number)
  }

  /** `removeFromBlacklist(number)`: unchanged when absent, otherwise every occurrence removed. */
  function Removed(blacklist: seq<string>, number: string): (r: seq<string>)
    ensures number !in r
    ensures number !in blacklist ==> r == blacklist
    ensures forall x :: x != number ==> (x in r <==> x in blacklist)
  {
    if number !in blacklist then blacklist else Without(blacklist, number)
  }

  predicate Distinct(s: seq<string>) {
    forall i, j :: 0 <= i < j < |s| ==> s[i] != s[j]
  }

  /** Adding twice is adding once, and the number then occurs exactly once
      unless the array already held it several times. */
  lemma AddIdempotent(blacklist: seq<string>, number: string)
    ensures Added(Added(blacklist, number), number) == Added(blacklist, number)
    ensures number !in blacklist ==> multiset(Added(blacklist, number))[number] == 1
    ensures number in blacklist ==> Added(blacklist, number) == blacklist
  {
  }

  lemma AddKeepsDistinct(blacklist: seq<string>, number: string)
    requires Distinct(blacklist)
    ensures Distinct(Added(blacklist, number))
  {
  }

  /** The filter leaves nothing unchanged when the number is absent. */
  lemma {:induction false} WithoutAbsent(blacklist: seq<string>, number: string)
    requires number !in blacklist
    ensures Without(blacklist, number) == blacklist
  {
    if blacklist != [] {
      WithoutAbsent(blacklist[1..], number);
    }
  }

  /** The filter keeps the other entries in their order. */
  lemma {:induction false} WithoutDistributes(a: seq<string>, b: seq<string>, number: string)
    ensures Without(a + b, number) == Without(a, number) + Without(b, number)
  {
    if a == [] {
      assert a + b == b;
    } else {
      assert (a + b)[1..] == a[1..] + b;
      WithoutDistributes(a[1..], b, number);
    }
  }

  /** Removing keeps a duplicate-free array duplicate-free. */
  lemma {:induction false} WithoutKeepsDistinct(blacklist: seq<string>, number: string)
    requires Distinct(blacklist)
    ensures Distinct(Without(blacklist, number))
  {
    if blacklist != [] {
      WithoutKeepsDistinct(blacklist[1..], number);
      var rest := Without(blacklist[1..], number);
      assert blacklist[0] !in blacklist[1..];
      assert blacklist[0] !in rest;
    }
  }

  /** Removing is a no-op when absent, idempotent, and leaves the number absent. */
  lemma RemoveIdempotent(blacklist: seq<string>, number: string)
    ensures number !in Removed(blacklist, number)
    ensures number !in blacklist ==> Removed(blacklist, number) == blacklist
    ensures Removed(Removed(blacklist, number), number) == Removed(blacklist, number)
    ensures forall x :: x != number ==> (x in Removed(blacklist, number) <==> x in blacklist)
  {
  }

  // ---------------------------------------------------------------- edits vs. the filter

  /** The blacklist edits store the number as given: adding a 10-digit number
      suppresses later sends to it. */
  lemma {:induction false} TenDigitEntrySuppresses(blacklist: seq<string>, number: string)
    requires AllDigits(number) && |number| == 10
    ensures Suppressed(Added(blacklist, number), number)
  {
    StripKeepsDigits(number);
  }

  /** ... but adding a number of any other length (3 digits or more) does not
      suppress later sends to that same number, because the key drops index 2. */
  lemma {:induction false} RawEntryMissesKey(blacklist: seq<string>, number: string)
    requires AllDigits(number) && |number| >= 3 && |number| != 10
    requires BlacklistKey(number) !in blacklist
    ensures !Suppressed(Added(blacklist, number), number)
  {
    StripKeepsDigits(number);
    assert |BlacklistKey(number)| == |number| - 1;
  }

  // ---------------------------------------------------------------- stop phrase

  const StopPhrase: string := "parar promoções"

  /** `message.text.toLowerCase() == "parar promoções"`: only a text of the
      phrase's length can match. */
  predicate IsStopPhrase(text: string)
    ensures IsStopPhrase(text) ==> |text| == |StopPhrase|
  {
    LowerCase(text) == StopPhrase
  }

  /** The comparison ignores case: a text matches exactly when its lower-cased
      form does. */
  lemma StopPhraseIgnoresCase(text: string)
    ensures IsStopPhrase(text) <==> IsStopPhrase(LowerCase(text))
  {
    LowerCaseIdempotent(text);
  }

  lemma StopPhraseExamples()
    ensures IsStopPhrase("parar promoções")
    ensures IsStopPhrase("PARAR PROMOÇÕES")
    ensures !IsStopPhrase("parar promocoes")
    ensures !IsStopPhrase("parar promoções ")
  {
    assert LowerCase("PARAR PROMOÇÕES") == StopPhrase;
    assert LowerCase("parar promocoes")[12] != StopPhrase[12];
  }
}
