/**
 * `getNumbers` of the REST layer: the two chat ids under which a Brazilian
 * phone number may be known, with and without the extra mobile digit.
 */
module ChatIds {
  import opened JsBuiltins
  import opened Suppression

  /** `getNumbers(original)`: "55" + original + "@c.us", and the same string
      built again from `slice(2, 4)` and `slice(5)`. */
  function GetNumbers(original: string): (r: seq<string>)
    ensures |r| == 2
    ensures r[0] == "55" + original + "@c.us"
    ensures "55" <= r[0] && "55" <= r[1]
  {
    var number := "55" + original + "@c.us";
    var prefix := Slice(number, 2, 4);
    var number2 := "55" + (prefix + SliceFrom(number, 5));
    [number, number2]
  }

  /** Whatever the original, the second id is the first with its fifth
      character removed, so it is exactly one character shorter. */
  lemma SecondDropsFifthChar(original: string)
    ensures var r := GetNumbers(original);
      r[1] == r[0][..4] + r[0][5..] && |r[1]| == |r[0]| - 1
  {
  }

  /** For an original of at least three characters, the second id drops the
      original's third character. */
  lemma SecondDropsThirdOfOriginal(original: string)
    requires |original| >= 3
    ensures GetNumbers(original)[1] == "55" + original[..2] + original[3..] + "@c.us"
  {
    var r := GetNumbers(original);
    SecondDropsFifthChar(original);
    assert r[0][..4] == "55" + original[..2];
    assert r[0][5..] == original[3..] + "@c.us";
  }

  /** For an 11-digit number the second id carries the number's blacklist key,
      and for a 10-digit number the first id does. */
  lemma IdsCarryBlacklistKey(original: string)
    ensures |original| == 11 ==> GetNumbers(original)[1] == "55" + BlacklistKey(original) + "@c.us"
    ensures |original| == 10 ==> GetNumbers(original)[0] == "55" + BlacklistKey(original) + "@c.us"
  {
    if |original| == 11 {
      SecondDropsThirdOfOriginal(original);
    }
  }
}
