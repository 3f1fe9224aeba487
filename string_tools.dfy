/** The helpers of `tools/tool.string.go`: random identifiers, one-time passwords and rune substrings. */
module StringTools {
  import opened Text

  /** The 62 runes `RandomStringGN` draws from: lower-case letters, upper-case letters, digits. */
  const Charset: string := seq(62, CharsetAt)

  /** Position i of "abc…xyzABC…XYZ012…9". */
  function CharsetAt(i: int): char {
    if i < 0 then 'a'
    else if i < 26 then ('a' as int + i) as char
    else if i < 52 then ('A' as int + (i - 26)) as char
    else if i < 62 then ('0' as int + (i - 52)) as char
    else '9'
  }

  predicate IsAlphanumeric(c: char) { IsAsciiLetter(c) || IsDigit(c) }

  /** What a call `RandomStringGN(n)` can return: n runes, each a letter or a digit. */
  predicate IsRandomString(s: string, n: nat) {
    |s| == n && forall i | 0 <= i < |s| :: IsAlphanumeric(s[i])
  }

  lemma CharsetIsAlphanumeric()
    ensures |Charset| == 62
    ensures forall i | 0 <= i < |Charset| :: IsAlphanumeric(Charset[i])
  {
  }

  /** A random string is ASCII, so its byte length is its length. */
  lemma RandomStringByteLen(s: string, n: nat)
    requires IsRandomString(s, n)
    ensures ByteLen(s) == n
    ensures !IsBlank(s) <==> n > 0
  {
    ByteLenAscii(s);
    if n > 0 {
      assert !IsRegexSpace(s[0]);
    }
  }

  /**
   * `RandomStringGN(length)`: fills a buffer of `length` runes, the i-th taken
   * from `Charset` at the position drawn by the i-th call of the random source
   * (`picks[i]`, a value of `Intn(62)`).
   */
  method RandomStringGN(length: nat, picks: seq<int>) returns (r: string)
    requires |picks| >= length
    requires forall i | 0 <= i < |picks| :: 0 <= picks[i] < |Charset|
    ensures |r| == length
    ensures forall i | 0 <= i < length :: r[i] == Charset[picks[i]]
    ensures IsRandomString(r, length)
  {
    var b := new char[length];
    for i := 0 to length
      invariant forall j | 0 <= j < i :: b[j] == Charset[picks[j]]
    {
      b[i] := Charset[picks[i]];
    }
    r := b[..];
    CharsetIsAlphanumeric();
  }

  lemma {:induction false} DecimalLength(n: nat, k: nat, p: nat)
    requires p == Pow10(k) && p <= n < 10 * p
    ensures |Decimal(n)| == k + 1
    decreases k
  {
    if k > 0 {
      assert Pow10(k) == 10 * Pow10(k - 1);
      DecimalLength(n / 10, k - 1, Pow10(k - 1));
    }
  }

  function Pow10(k: nat): nat {
    if k == 0 then 1 else 10 * Pow10(k - 1)
  }

  /**
   * `GenerateOTP`: the random draw `Int63n(8999)` shifted by 1000 and printed,
   * which is always a four-digit code between 1000 and 9998.
   */
  function GenerateOTP(draw: int): (otp: string)
    requires 0 <= draw < 8999
    ensures |otp| == 4 && AllDigits(otp)
    ensures 1000 <= ParseDecimal(otp) <= 9998
    ensures ParseDecimal(otp) == draw + 1000
  {
    var n := draw + 1000;
    DecimalLength(n, 3, 1000);
    DecimalRoundTrip(n);
    Decimal(n)
  }

  function Min(a: int, b: int): int { if a <= b then a else b }

  /**
   * `Substr(input, start, length)` on runes: at most `length` runes of `input`
   * starting at rune `start`, empty once `start` is past the end. The Go code
   * panics on a negative start or length when `start` is inside the input.
   */
  function Substr(input: string, start: int, length: int): (r: string)
    requires start < |input| ==> 0 <= start && 0 <= length
    ensures start >= |input| ==> r == ""
    ensures start < |input| ==> |r| == Min(length, |input| - start)
    ensures start < |input| ==> r == input[start..start + |r|]
  {
    if start >= |input| then ""
    else if start + length > |input| then input[start..]
    else input[start..start + length]
  }

  /**
   * Cutting a string at rune `n` with two `Substr` calls, the second asking
   * for "the rest" by the byte length, loses nothing and duplicates nothing.
   */
  lemma SubstrSplit(s: string, n: nat)
    ensures Substr(s, 0, n) + Substr(s, n, ByteLen(s)) == s
    ensures n < |s| ==> Substr(s, n, ByteLen(s)) == s[n..]
  {
    ByteLenAtLeastRunes(s);
    SubstrSplitBy(s, n, ByteLen(s));
  }

  /** The same cut, for any "rest" length that reaches the end of the string. */
  lemma SubstrSplitBy(s: string, n: nat, rest: nat)
    requires n + rest >= |s|
    ensures Substr(s, 0, n) + Substr(s, n, rest) == s
    ensures n < |s| ==> Substr(s, n, rest) == s[n..]
  {
    if n < |s| {
      assert Substr(s, 0, n) == s[..n];
      assert s[..n] + s[n..] == s;
    } else if |s| > 0 {
      assert Substr(s, 0, n) == s;
    }
  }
}
