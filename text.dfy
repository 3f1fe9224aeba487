/**
 * Character classes and string helpers shared by the whole model.
 * A Go string is modelled as the sequence of its runes; Go's `len` is
 * its UTF-8 length, `ByteLen` below.
 */
module Text {

  /** Go RE2 `\s`: space, tab, newline, form feed and carriage return (not vertical tab). */
  predicate IsRegexSpace(c: char) {
    c == ' ' || c == '\t' || c == '\n' || c == '\U{000C}' || c == '\r'
  }

  /** Go `unicode.IsSpace`, the separator `strings.Fields` splits on. */
  predicate IsFieldSpace(c: char) {
    ('\t' <= c <= '\r') || c == ' ' || c == '\U{0085}' || c == '\U{00A0}' || c == '\U{1680}'
    || ('\U{2000}' <= c <= '\U{200A}') || c == '\U{2028}' || c == '\U{2029}'
    || c == '\U{202F}' || c == '\U{205F}' || c == '\U{3000}'
  }

  predicate IsDigit(c: char) { '0' <= c <= '9' }

  predicate IsAsciiLetter(c: char) { ('a' <= c <= 'z') || ('A' <= c <= 'Z') }

  /** RE2 `\w`: ASCII letters, digits and underscore. */
  predicate IsWordChar(c: char) { IsAsciiLetter(c) || IsDigit(c) || c == '_' }

  /** `^\s*$`: the string is empty or only white space. */
  predicate IsBlank(s: string) {
    forall i | 0 <= i < |s| :: IsRegexSpace(s[i])
  }

  /** `^\w*$` */
  predicate AllWordChars(s: string) {
    forall i | 0 <= i < |s| :: IsWordChar(s[i])
  }

  /** `^\w+$` */
  predicate IsWord(s: string) {
    |s| > 0 && AllWordChars(s)
  }

  predicate AllDigits(s: string) {
    forall i | 0 <= i < |s| :: IsDigit(s[i])
  }

  lemma WordIsNotBlank(s: string)
    requires IsWord(s)
    ensures !IsBlank(s)
  {
    assert !IsRegexSpace(s[0]);
  }

  /* ----------------------------- case folding ----------------------------- */

  function LowerChar(c: char): char {
    if 'A' <= c <= 'Z' then (c as int + 32) as char else c
  }

  function UpperChar(c: char): char {
    if 'a' <= c <= 'z' then (c as int - 32) as char else c
  }

  /** `strings.ToLower` on the ASCII range. */
  function ToLower(s: string): (r: string)
    ensures |r| == |s|
    ensures forall i | 0 <= i < |s| :: r[i] == LowerChar(s[i])
  {
    seq(|s|, i requires 0 <= i < |s| => LowerChar(s[i]))
  }

  /** `strings.ToUpper` on the ASCII range. */
  function ToUpper(s: string): (r: string)
    ensures |r| == |s|
    ensures forall i | 0 <= i < |s| :: r[i] == UpperChar(s[i])
  {
    seq(|s|, i requires 0 <= i < |s| => UpperChar(s[i]))
  }

  /** Lower-casing is idempotent and keeps `\w` and `\s` membership. */
  lemma ToLowerProperties(s: string)
    ensures ToLower(ToLower(s)) == ToLower(s)
    ensures AllWordChars(ToLower(s)) <==> AllWordChars(s)
    ensures IsBlank(ToLower(s)) <==> IsBlank(s)
    ensures ByteLen(ToLower(s)) == ByteLen(s)
  {
    ByteLenPointwise(s, ToLower(s));
  }

  /** Upper-casing forgets a prior lower-casing, so case-insensitive comparison ignores it. */
  lemma UpperOfLower(a: string)
    ensures ToUpper(ToLower(a)) == ToUpper(a)
  {
    assert forall i | 0 <= i < |a| :: UpperChar(LowerChar(a[i])) == UpperChar(a[i]);
  }

  /* ----------------------------- UTF-8 length ----------------------------- */

  /** Number of bytes of the UTF-8 encoding of one rune. */
  function RuneBytes(c: char): nat {
    if c as int < 0x80 then 1
    else if c as int < 0x800 then 2
    else if c as int < 0x10000 then 3
    else 4
  }

  /** Go's `len(s)`: the UTF-8 byte length. */
  function ByteLen(s: string): nat
    decreases |s|
  {
    if |s| == 0 then 0 else RuneBytes(s[0]) + ByteLen(s[1..])
  }

  lemma {:induction false} ByteLenAppend(s: string, t: string)
    ensures ByteLen(s + t) == ByteLen(s) + ByteLen(t)
    decreases |s|
  {
    if |s| == 0 {
      assert s + t == t;
    } else {
      assert (s + t)[1..] == s[1..] + t;
      ByteLenAppend(s[1..], t);
    }
  }

  /** A rune takes at least one byte, so the byte length bounds the rune count. */
  lemma {:induction false} ByteLenAtLeastRunes(s: string)
    ensures ByteLen(s) >= |s|
    ensures ByteLen(s) == 0 <==> |s| == 0
    decreases |s|
  {
    if |s| > 0 {
      ByteLenAtLeastRunes(s[1..]);
    }
  }

  /** On ASCII text the byte length is the rune count. */
  lemma {:induction false} ByteLenAscii(s: string)
    requires forall i | 0 <= i < |s| :: s[i] as int < 0x80
    ensures ByteLen(s) == |s|
    decreases |s|
  {
    if |s| > 0 {
      ByteLenAscii(s[1..]);
    }
  }

  /** Strings whose runes take the same bytes pointwise have the same byte length. */
  lemma {:induction false} ByteLenPointwise(s: string, t: string)
    requires |s| == |t|
    requires forall i | 0 <= i < |s| :: RuneBytes(s[i]) == RuneBytes(t[i])
    ensures ByteLen(s) == ByteLen(t)
    decreases |s|
  {
    if |s| > 0 {
      ByteLenPointwise(s[1..], t[1..]);
    }
  }

  /* ------------------------------- decimals ------------------------------- */

  function DigitChar(d: nat): char
    requires d < 10
  {
    ('0' as int + d) as char
  }

  function DigitValue(c: char): nat
    requires IsDigit(c)
  {
    c as int - '0' as int
  }

  /** `strconv.Itoa` / `fmt.Sprint` of a non-negative integer. */
  function Decimal(n: nat): (r: string)
    ensures |r| > 0 && AllDigits(r)
    ensures |r| > 1 ==> r[0] != '0'
    decreases n
  {
    if n < 10 then [DigitChar(n)] else Decimal(n / 10) + [DigitChar(n % 10)]
  }

  /** Reads a run of decimal digits. */
  function ParseDecimal(s: string): nat
    requires AllDigits(s)
    decreases |s|
  {
    if |s| == 0 then 0 else ParseDecimal(s[..|s| - 1]) * 10 + DigitValue(s[|s| - 1])
  }

  lemma {:induction false} DecimalRoundTrip(n: nat)
    ensures ParseDecimal(Decimal(n)) == n
    decreases n
  {
    if n >= 10 {
      var r := Decimal(n);
      assert r[..|r| - 1] == Decimal(n / 10);
      DecimalRoundTrip(n / 10);
    }
  }

  /** Distinct numbers print differently. */
  lemma DecimalInjective(m: nat, n: nat)
    requires Decimal(m) == Decimal(n)
    ensures m == n
  {
    DecimalRoundTrip(m);
    DecimalRoundTrip(n);
  }

  /* ------------------------------ rewriting ------------------------------- */

  /** `strings.Join(strings.Fields(s), "")`: every white-space rune removed. */
  function StripSpaces(s: string): (r: string)
    ensures forall i | 0 <= i < |r| :: !IsFieldSpace(r[i])
    ensures |r| <= |s|
    decreases |s|
  {
    if |s| == 0 then ""
    else if IsFieldSpace(s[0]) then StripSpaces(s[1..])
    else [s[0]] + StripSpaces(s[1..])
  }

  lemma {:induction false} StripSpacesKeepsSpaceless(s: string)
    requires forall i | 0 <= i < |s| :: !IsFieldSpace(s[i])
    ensures StripSpaces(s) == s
    decreases |s|
  {
    if |s| > 0 {
      StripSpacesKeepsSpaceless(s[1..]);
    }
  }

  /** The runes `regexp.QuoteMeta` escapes. */
  predicate IsRegexMeta(c: char) {
    c in "\\.+*?()|[]{}^$"
  }

  /** `regexp.QuoteMeta`: every special rune gets a backslash in front. */
  function QuoteMeta(s: string): (q: string)
    ensures |q| >= |s|
  {
    if s == [] then []
    else (if IsRegexMeta(s[0]) then ['\\', s[0]] else [s[0]]) + QuoteMeta(s[1..])
  }

  /** The literal text a quoted pattern stands for: a backslash takes the next rune as it is. */
  function Unquote(q: string): string
    decreases |q|
  {
    if q == [] then []
    else if q[0] == '\\' && |q| > 1 then [q[1]] + Unquote(q[2..])
    else [q[0]] + Unquote(q[1..])
  }

  /** A quoted key stands for the key itself, so `"^" + QuoteMeta(key)` matches literally. */
  lemma {:induction false} UnquoteQuoteMeta(s: string)
    ensures Unquote(QuoteMeta(s)) == s
  {
    if s != [] {
      UnquoteQuoteMeta(s[1..]);
      var head := if IsRegexMeta(s[0]) then ['\\', s[0]] else [s[0]];
      assert QuoteMeta(s) == head + QuoteMeta(s[1..]);
      if IsRegexMeta(s[0]) {
        assert QuoteMeta(s)[2..] == QuoteMeta(s[1..]);
      } else {
        assert s[0] != '\\';
        assert QuoteMeta(s)[1..] == QuoteMeta(s[1..]);
      }
    }
  }

  /** `strings.ReplaceAll(s, string(c), "")`. */
  function RemoveRune(s: string, c: char): (r: string)
    ensures c !in r
    ensures |r| <= |s|
    decreases |s|
  {
    if |s| == 0 then ""
    else if s[0] == c then RemoveRune(s[1..], c)
    else [s[0]] + RemoveRune(s[1..], c)
  }

  lemma {:induction false} RemoveRuneCount(s: string, c: char)
    ensures |RemoveRune(s, c)| == |s| - multiset(s)[c]
    decreases |s|
  {
    if |s| > 0 {
      assert s == [s[0]] + s[1..];
      RemoveRuneCount(s[1..], c);
    }
  }

  /** The candidate equals one of the allowed values after upper-casing both. */
  predicate InFold(allowed: seq<string>, candidate: string) {
    exists i | 0 <= i < |allowed| :: ToUpper(allowed[i]) == ToUpper(candidate)
  }

  /**
   * The loop every validator uses for a fixed list of allowed values, leaving
   * at the first value that matches ignoring case.
   */
  method ContainsFold(allowed: seq<string>, candidate: string) returns (found: bool)
    ensures found <==> InFold(allowed, candidate)
  {
    found := false;
    var i := 0;
    while i < |allowed|
      invariant 0 <= i <= |allowed|
      invariant !found
      invariant forall j | 0 <= j < i :: ToUpper(allowed[j]) != ToUpper(candidate)
      decreases |allowed| - i
    {
      if ToUpper(allowed[i]) == ToUpper(candidate) {
        found := true;
        break;
      }
      i := i + 1;
    }
  }
}
