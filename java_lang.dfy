/**
 * The few java.lang string and integer operations the proxy's decisions rest on:
 * ASCII case folding, prefix and substring search, Integer.parseInt and the decimal
 * rendering that string concatenation uses for an int.
 */
module JavaLang {
  import opened Wrappers

  const INT_MIN: int := -0x8000_0000
  const INT_MAX: int := 0x7fff_ffff

  /** The values of a Java `int`. */
  predicate IsInt32(n: int) {
    INT_MIN <= n <= INT_MAX
  }

  // ---------------------------------------------------------------- case folding

  function ToLowerChar(c: char): char {
    if 'A' <= c <= 'Z' then (c as int + 32) as char else c
  }

  /** String.toLowerCase, restricted to the ASCII letters. */
  function ToLower(s: string): (r: string)
    ensures |r| == |s|
    ensures forall i :: 0 <= i < |s| ==> r[i] == ToLowerChar(s[i])
  {
    seq(|s|, i requires 0 <= i < |s| => ToLowerChar(s[i]))
  }

  /** String.equalsIgnoreCase, restricted to the ASCII letters. */
  predicate EqualsIgnoreCase(a: string, b: string) {
    ToLower(a) == ToLower(b)
  }

  lemma ToLowerIdempotent(s: string)
    ensures ToLower(ToLower(s)) == ToLower(s)
  {
  }

  // ---------------------------------------------------------------- searching

  predicate StartsWith(s: string, prefix: string) {
    |prefix| <= |s| && s[..|prefix|] == prefix
  }

  /** `sub` occurs in `s` at position `i`. */
  predicate OccursAt(s: string, sub: string, i: int) {
    0 <= i && i + |sub| <= |s| && s[i..i + |sub|] == sub
  }

  function IndexOfFrom(s: string, sub: string, k: nat): (r: int)
    requires k <= |s| + 1
    ensures r == -1 || (k <= r && r + |sub| <= |s|)
    decreases |s| + 1 - k
  {
    if k + |sub| > |s| then -1
    else if s[k..k + |sub|] == sub then k
    else IndexOfFrom(s, sub, k + 1)
  }

  /** String.indexOf(String): the first position of `sub` in `s`, or -1. */
  function IndexOf(s: string, sub: string): (r: int)
    ensures r == -1 || 0 <= r <= |s| - |sub|
  {
    IndexOfFrom(s, sub, 0)
  }

  lemma {:induction false} IndexOfFromFacts(s: string, sub: string, k: nat)
    requires k <= |s| + 1
    ensures var r := IndexOfFrom(s, sub, k);
      && (r == -1 || OccursAt(s, sub, r))
      && (r == -1 ==> forall j :: k <= j ==> !OccursAt(s, sub, j))
      && (r >= 0 ==> forall j :: k <= j < r ==> !OccursAt(s, sub, j))
    decreases |s| + 1 - k
  {
    if k + |sub| <= |s| && s[k..k + |sub|] != sub {
      IndexOfFromFacts(s, sub, k + 1);
    }
  }

  /** indexOf finds the first occurrence, and answers -1 exactly when there is none. */
  lemma IndexOfFacts(s: string, sub: string)
    ensures var r := IndexOf(s, sub);
      && (r == -1 || OccursAt(s, sub, r))
      && (r == -1 <==> forall j :: !OccursAt(s, sub, j))
      && (r >= 0 ==> forall j :: 0 <= j < r ==> !OccursAt(s, sub, j))
  {
    IndexOfFromFacts(s, sub, 0);
  }

  /** `s.indexOf(sub) >= 0`. */
  predicate Contains(s: string, sub: string) {
    IndexOf(s, sub) >= 0
  }

  /** String.indexOf(char): the first position of `c`, or -1. */
  function IndexOfChar(s: string, c: char): (r: int)
    ensures -1 <= r < |s|
    ensures r >= 0 ==> s[r] == c
    ensures forall j :: 0 <= j < |s| && (r == -1 || j < r) ==> s[j] != c
  {
    if |s| == 0 then -1
    else if s[0] == c then 0
    else
      var t := IndexOfChar(s[1..], c);
      if t == -1 then -1 else t + 1
  }

  /** String.lastIndexOf(char): the last position of `c`, or -1. */
  function LastIndexOfChar(s: string, c: char): (r: int)
    ensures -1 <= r < |s|
    ensures r >= 0 ==> s[r] == c
    ensures forall j :: r < j < |s| ==> s[j] != c
  {
    if |s| == 0 then -1
    else if s[|s| - 1] == c then |s| - 1
    else LastIndexOfChar(s[..|s| - 1], c)
  }

  /** StringUtils.isEmpty: null or of length zero. */
  predicate IsEmpty(s: Option<string>) {
    s.None? || s.value == ""
  }

  // ---------------------------------------------------------------- integers

  predicate IsDigit(c: char) {
    '0' <= c <= '9'
  }

  predicate AllDigits(s: string) {
    forall i :: 0 <= i < |s| ==> IsDigit(s[i])
  }

  function DigitValue(c: char): nat
    requires IsDigit(c)
  {
    c as int - '0' as int
  }

  function DigitChar(d: nat): (c: char)
    requires d < 10
    ensures IsDigit(c) && DigitValue(c) == d
  {
    ('0' as int + d) as char
  }

  /** The value of a run of decimal digits, most significant first. */
  function DigitsValue(s: string): nat
    requires AllDigits(s)
  {
    if s == [] then 0 else DigitsValue(s[..|s| - 1]) * 10 + DigitValue(s[|s| - 1])
  }

  /**
   * Integer.parseInt(s) (and Integer.valueOf(s)) on ASCII digits: an optional '-' or '+',
   * then at least one digit, and the value must fit in an int; None is NumberFormatException.
   */
  function ParseInt(s: string): (r: Option<int>)
    ensures r.Some? ==> IsInt32(r.value)
    ensures r.Some? ==> |s| > 0 && (IsDigit(s[0]) || s[0] == '-' || s[0] == '+')
  {
    if |s| == 0 then None
    else
      var digits := if s[0] == '-' || s[0] == '+' then s[1..] else s;
      if |digits| == 0 || !AllDigits(digits) then None
      else
        var magnitude: int := DigitsValue(digits);
        var v := if s[0] == '-' then -magnitude else magnitude;
        if IsInt32(v) then Some(v) else None
  }

  /** The decimal digits of a natural number, without leading zeros. */
  function NatToString(n: nat): (r: string)
    ensures |r| > 0 && AllDigits(r)
    ensures |r| > 1 ==> r[0] != '0'
  {
    if n < 10 then [DigitChar(n)] else NatToString(n / 10) + [DigitChar(n % 10)]
  }

  /** Integer.toString(n), as `"" + n` renders an int. */
  function IntToString(n: int): string {
    if n < 0 then "-" + NatToString(-n) else NatToString(n)
  }

  lemma {:induction false} DigitsValueOfNatToString(n: nat)
    ensures DigitsValue(NatToString(n)) == n
  {
    if n >= 10 {
      var s := NatToString(n);
      assert s[..|s| - 1] == NatToString(n / 10);
      DigitsValueOfNatToString(n / 10);
    }
  }

  /** Parsing the rendering of an int gives the int back. */
  lemma ParseIntOfIntToString(n: int)
    requires IsInt32(n)
    ensures ParseInt(IntToString(n)) == Some(n)
  {
    var s := IntToString(n);
    if n < 0 {
      var digits := NatToString(-n);
      assert s == "-" + digits && s[0] == '-';
      assert s[1..] == digits;
      DigitsValueOfNatToString(-n);
      assert DigitsValue(s[1..]) == -n;
    } else {
      var digits := NatToString(n);
      assert s == digits;
      assert IsDigit(s[0]);
      DigitsValueOfNatToString(n);
    }
  }
}
