/**
 * Base-36 numerals for the timestamp segment of a token: a lowercase encoder
 * for `int_to_base36` and a parser for `base36_to_int` that accepts digits
 * and letters of either case, with Django's bounds on length and value.
 */
module Base36 {
  import opened Common

  predicate IsBase36Char(c: char) {
    '0' <= c <= '9' || 'a' <= c <= 'z' || 'A' <= c <= 'Z'
  }

  predicate IsLowerBase36Char(c: char) {
    '0' <= c <= '9' || 'a' <= c <= 'z'
  }

  function DigitValue(c: char): (v: nat)
    requires IsBase36Char(c)
    ensures v < 36
  {
    if '0' <= c <= '9' then c as int - '0' as int
    else if 'a' <= c <= 'z' then c as int - 'a' as int + 10
    else c as int - 'A' as int + 10
  }

  function DigitChar(v: nat): (c: char)
    requires v < 36
    ensures IsLowerBase36Char(c) && DigitValue(c) == v
  {
    if v < 10 then ('0' as int + v) as char else ('a' as int + v - 10) as char
  }

  /** The one spelling the encoder produces: lowercase, no leading zero except in "0". */
  predicate IsCanonical(s: string) {
    && |s| >= 1
    && (forall i :: 0 <= i < |s| ==> IsLowerBase36Char(s[i]))
    && (s[0] == '0' ==> |s| == 1)
  }

  function IntToBase36(n: nat): (s: string)
    ensures IsCanonical(s)
    ensures s[0] == '0' <==> n == 0
    decreases n
  {
    if n < 36 then [DigitChar(n)]
    else IntToBase36(n / 36) + [DigitChar(n % 36)]
  }

  function Value(s: string): nat
    requires forall i :: 0 <= i < |s| ==> IsBase36Char(s[i])
    decreases |s|
  {
    if |s| == 0 then 0 else Value(s[..|s| - 1]) * 36 + DigitValue(s[|s| - 1])
  }

  /** The longest input `base36_to_int` parses: 13 digits, enough for any 64-bit integer. */
  const MaxDigits := 13

  /** `sys.maxint` of a 64-bit build, the largest value `base36_to_int` returns. */
  const MaxInt := 0x7fff_ffff_ffff_ffff

  function Pow36(k: nat): nat {
    if k == 0 then 1 else 36 * Pow36(k - 1)
  }

  /**
   * `base36_to_int`: `None` where it raises `ValueError`, that is for input
   * longer than `MaxDigits`, input that is not base 36, and a value above `MaxInt`.
   */
  function Base36ToInt(s: string): (r: Option<nat>)
    ensures r.Some? <==> && 1 <= |s| <= MaxDigits
                         && (forall i :: 0 <= i < |s| ==> IsBase36Char(s[i]))
                         && Value(s) <= MaxInt
    ensures r.Some? ==> r.value == Value(s) && r.value <= MaxInt
  {
    if |s| > MaxDigits then None
    else if |s| >= 1 && forall i :: 0 <= i < |s| ==> IsBase36Char(s[i]) then
      var v := Value(s);
      if v > MaxInt then None else Some(v)
    else None
  }

  /** The encoding of `n` is made of base-36 digits whose value is `n`. */
  lemma {:induction false} EncodingValue(n: nat)
    ensures var s := IntToBase36(n); (forall i :: 0 <= i < |s| ==> IsBase36Char(s[i])) && Value(s) == n
    decreases n
  {
    var s := IntToBase36(n);
    if n < 36 {
      assert s[..0] == [];
    } else {
      EncodingValue(n / 36);
      assert s[..|s| - 1] == IntToBase36(n / 36);
      assert Value(s) == Value(IntToBase36(n / 36)) * 36 + n % 36;
    }
  }

  /** A number below `36^k` has at most `k` digits. */
  lemma {:induction false} EncodingLength(n: nat, k: nat)
    requires k >= 1 && n < Pow36(k)
    ensures |IntToBase36(n)| <= k
    decreases n
  {
    if n >= 36 {
      assert Pow36(1) == 36;
      assert k >= 2;
      assert n / 36 < Pow36(k - 1);
      EncodingLength(n / 36, k - 1);
    }
  }

  lemma MaxIntFitsDigits()
    ensures Pow36(MaxDigits - 1) <= MaxInt < Pow36(MaxDigits)
  {
    assert Pow36(1) == 36;
    assert Pow36(2) == 1296;
    assert Pow36(3) == 46656;
    assert Pow36(4) == 1679616;
    assert Pow36(5) == 60466176;
    assert Pow36(6) == 2176782336;
    assert Pow36(7) == 78364164096;
    assert Pow36(8) == 2821109907456;
    assert Pow36(9) == 101559956668416;
    assert Pow36(10) == 3656158440062976;
    assert Pow36(11) == 131621703842267136;
    assert Pow36(12) == 4738381338321616896;
    assert Pow36(13) == 170581728179578208256;
  }

  /** Decoding inverts encoding up to `sys.maxint`; a larger value is refused. */
  lemma Base36RoundTrip(n: nat)
    ensures Base36ToInt(IntToBase36(n)) == if n <= MaxInt then Some(n) else None
  {
    EncodingValue(n);
    if n <= MaxInt {
      MaxIntFitsDigits();
      EncodingLength(n, MaxDigits);
    }
  }

  lemma {:induction false} LeadingNonZeroIsPositive(s: string)
    requires IsCanonical(s) && s[0] != '0'
    ensures Value(s) >= 1
    decreases |s|
  {
    if |s| > 1 {
      var front := s[..|s| - 1];
      assert front[0] == s[0];
      LeadingNonZeroIsPositive(front);
    }
  }

  /** Every canonical spelling is the encoder's output for its value. */
  lemma {:induction false} CanonicalIsEncoded(s: string)
    requires IsCanonical(s)
    ensures IntToBase36(Value(s)) == s
    decreases |s|
  {
    var last := s[|s| - 1];
    if |s| == 1 {
      assert Value(s[..0]) == 0;
      assert DigitChar(DigitValue(last)) == last;
    } else {
      var front := s[..|s| - 1];
      assert front[0] == s[0];
      LeadingNonZeroIsPositive(front);
      CanonicalIsEncoded(front);
      var n := Value(s);
      assert n == Value(front) * 36 + DigitValue(last);
      assert n / 36 == Value(front) && n % 36 == DigitValue(last);
      assert DigitChar(DigitValue(last)) == last;
      assert s == front + [last];
    }
  }

  /** A parsed spelling is the encoder's spelling of its value exactly when it is canonical. */
  lemma ParsedSpellingIsCanonical(s: string, n: nat)
    requires Base36ToInt(s) == Some(n)
    ensures IntToBase36(n) == s <==> IsCanonical(s)
  {
    if IsCanonical(s) {
      CanonicalIsEncoded(s);
    }
  }
}
