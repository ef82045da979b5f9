/**
  Privacy rounding of geohashes (internal/geo/geohash.go).

  A geohash is kept for public display only up to a coarse precision.  The
  rounding validates the input against the geohash base-32 alphabet after
  lower-casing it, and truncates it.  Lower-casing is modelled for ASCII only.
 */
module Geohash {

  /** The precision used for public display: six characters, about 0.61 km. */
  const DefaultPrecision: int := 6

  /** The geohash base-32 alphabet: the digits and the lower-case letters except a, i, l and o. */
  const ValidGeohashChars: string := "0123456789bcdefghjkmnpqrstuvwxyz"

  predicate IsGeohashChar(c: char) {
    c in ValidGeohashChars
  }

  predicate AllGeohashChars(s: string) {
    forall i :: 0 <= i < |s| ==> IsGeohashChar(s[i])
  }

  predicate IsUpper(c: char) {
    'A' <= c <= 'Z'
  }

  /** Lower-case one character (ASCII letters only). */
  function LowerChar(c: char): (d: char)
    ensures IsUpper(c) ==> 'a' <= d <= 'z' && d as int - c as int == 32
    ensures !IsUpper(c) ==> d == c
  {
    if IsUpper(c) then (c as int + 32) as char else c
  }

  /** Lower-case a string character by character. */
  function ToLower(s: string): (r: string)
    ensures |r| == |s|
    ensures forall i :: 0 <= i < |s| ==> r[i] == LowerChar(s[i])
  {
    if s == [] then [] else [LowerChar(s[0])] + ToLower(s[1..])
  }

  /**
    Truncate a geohash to `precision` characters.  The result is empty when the
    input is empty, when the precision is below one, or when some character of
    the lower-cased input is outside the alphabet; otherwise it is the
    lower-cased input cut to at most `precision` characters.
   */
  function RoundGeohash(input: string, precision: int): (r: string)
    ensures input == [] || precision < 1 ==> r == []
    ensures !AllGeohashChars(ToLower(input)) ==> r == []
    ensures r != [] ==> AllGeohashChars(r) && r <= ToLower(input) && |r| <= precision
    ensures input != [] && precision >= 1 && AllGeohashChars(ToLower(input)) ==>
              r != [] && |r| == (if |input| <= precision then |input| else precision)
  {
    if input == [] then
      []
    else if precision < 1 then
      []
    else
      var lower := ToLower(input);
      if !AllGeohashChars(lower) then
        []
      else if |lower| <= precision then
        lower
      else
        lower[..precision]
  }

  /** The alphabet spelled out as ranges: '0'..'9' and 'b'..'z' without i, l and o. */
  lemma AlphabetIsRanges(c: char)
    ensures IsGeohashChar(c) <==>
              '0' <= c <= '9' || ('b' <= c <= 'z' && c != 'i' && c != 'l' && c != 'o')
  {
    var digits, bh, jk, mn, pz := "0123456789", "bcdefgh", "jk", "mn", "pqrstuvwxyz";
    assert ValidGeohashChars == digits + bh + jk + mn + pz;
    RunOfCharacters(digits, '0', '9');
    RunOfCharacters(bh, 'b', 'h');
    RunOfCharacters(jk, 'j', 'k');
    RunOfCharacters(mn, 'm', 'n');
    RunOfCharacters(pz, 'p', 'z');
  }

  /** A string holding consecutive characters from `lo` to `hi` holds exactly those. */
  lemma RunOfCharacters(run: string, lo: char, hi: char)
    requires |run| == hi as int - lo as int + 1
    requires forall k :: 0 <= k < |run| ==> run[k] as int == lo as int + k
    ensures forall c :: c in run <==> lo <= c <= hi
  {
    forall c | lo <= c <= hi
      ensures c in run
    {
      assert run[c as int - lo as int] == c;
    }
  }

  /** The alphabet holds no upper-case letter, so lower-casing leaves its characters alone. */
  lemma GeohashCharIsLower(c: char)
    requires IsGeohashChar(c)
    ensures LowerChar(c) == c
  {
    AlphabetIsRanges(c);
  }

  lemma LowerOfGeohashIsIdentity(s: string)
    requires AllGeohashChars(s)
    ensures ToLower(s) == s
  {
    forall i | 0 <= i < |s|
      ensures ToLower(s)[i] == s[i]
    {
      GeohashCharIsLower(s[i]);
    }
  }

  lemma ToLowerIdempotent(s: string)
    ensures ToLower(ToLower(s)) == ToLower(s)
  {
    var l := ToLower(s);
    forall i | 0 <= i < |s|
      ensures ToLower(l)[i] == l[i]
    {
    }
  }

  /** The four letters the alphabet leaves out, in either case, make the rounding fail. */
  lemma ExcludedLettersRejected(input: string, precision: int, i: nat)
    requires i < |input| && LowerChar(input[i]) in {'a', 'i', 'l', 'o'}
    ensures RoundGeohash(input, precision) == []
  {
    AlphabetIsRanges(ToLower(input)[i]);
    assert !IsGeohashChar(ToLower(input)[i]);
  }

  /**
    The rounding succeeds exactly when the input is non-empty, the precision is
    at least one and every lower-cased character is in the alphabet; a success
    is then the lower-cased input itself when it fits, and its first
    `precision` characters otherwise.
   */
  lemma RoundGeohashCharacterised(input: string, precision: int)
    ensures RoundGeohash(input, precision) != [] <==>
              input != [] && precision >= 1 &&
              forall i :: 0 <= i < |input| ==> IsGeohashChar(LowerChar(input[i]))
    ensures RoundGeohash(input, precision) != [] && |input| <= precision ==>
              RoundGeohash(input, precision) == ToLower(input)
    ensures RoundGeohash(input, precision) != [] && |input| > precision ==>
              RoundGeohash(input, precision) == ToLower(input)[..precision]
  {
    var l := ToLower(input);
    if !AllGeohashChars(l) {
      var i :| 0 <= i < |l| && !IsGeohashChar(l[i]);
      assert !IsGeohashChar(LowerChar(input[i]));
    }
  }

  /** Rounding an already rounded geohash to the same precision changes nothing. */
  lemma RoundGeohashIdempotent(input: string, precision: int)
    ensures RoundGeohash(RoundGeohash(input, precision), precision) == RoundGeohash(input, precision)
  {
    var r := RoundGeohash(input, precision);
    if r != [] {
      LowerOfGeohashIsIdentity(r);
    }
  }

  /** The rounding does not depend on the case of the input. */
  lemma RoundGeohashCaseInsensitive(input: string, precision: int)
    ensures RoundGeohash(input, precision) == RoundGeohash(ToLower(input), precision)
  {
    ToLowerIdempotent(input);
  }

  /** A geohash stored in upper case is rounded to the default precision in lower case. */
  lemma RoundGeohashUpperCaseExample()
    ensures RoundGeohash("9Q8YYK8", DefaultPrecision) == "9q8yyk"
  {
    var l := ToLower("9Q8YYK8");
    assert l == ['9', LowerChar('Q'), '8', LowerChar('Y'), LowerChar('Y'), LowerChar('K'), '8'];
    assert l == "9q8yyk8";
    forall c | c in "9q8yk"
      ensures IsGeohashChar(c)
    {
      AlphabetIsRanges(c);
    }
  }

  /** A geohash shorter than the precision comes back whole; one holding an 'a' is rejected. */
  lemma RoundGeohashShortExamples()
    ensures RoundGeohash("dr5r", DefaultPrecision) == "dr5r"
    ensures RoundGeohash("dr5ra", DefaultPrecision) == []
  {
    forall c | c in "dr5"
      ensures IsGeohashChar(c)
    {
      AlphabetIsRanges(c);
    }
    LowerOfGeohashIsIdentity("dr5r");
    ExcludedLettersRejected("dr5ra", DefaultPrecision, 4);
  }
}
