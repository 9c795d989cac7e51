/**
 * The handful of `java.lang.String` / `Integer` operations the loaders and table readers
 * rely on, with Java's semantics: `split(",")`, `Integer.parseInt`, `startsWith`,
 * `equalsIgnoreCase`, and decimal rendering of integers.
 */
module Text {
  import opened Wrappers

  const INT_MIN: int := -0x8000_0000
  const INT_MAX: int := 0x7fff_ffff

  predicate IsDigit(c: char) { '0' <= c <= '9' }

  function DigitValue(c: char): (r: nat)
    requires IsDigit(c)
    ensures r < 10
  {
    (c as int - '0' as int) as nat
  }

  function DigitChar(d: nat): (c: char)
    requires d < 10
    ensures IsDigit(c) && DigitValue(c) == d
  {
    ('0' as int + d) as char
  }

  /** The value of a string of decimal digits, most significant first. */
  function DigitsValue(s: string): nat
    requires forall i :: 0 <= i < |s| ==> IsDigit(s[i])
  {
    if |s| == 0 then 0 else DigitsValue(s[..|s| - 1]) * 10 + DigitValue(s[|s| - 1])
  }

  /** The shortest decimal rendering of `n`. */
  function NatToString(n: nat): (s: string)
    ensures |s| > 0 && forall i :: 0 <= i < |s| ==> IsDigit(s[i])
    ensures n > 0 ==> s[0] != '0'
  {
    if n < 10 then [DigitChar(n)] else NatToString(n / 10) + [DigitChar(n % 10)]
  }

  /** `Integer.toString`: a minus sign for negative numbers, then the digits. */
  function IntToString(n: int): string {
    if n < 0 then "-" + NatToString(-n) else NatToString(n)
  }

  lemma {:induction false} NatToStringValue(n: nat)
    ensures DigitsValue(NatToString(n)) == n
  {
    if n >= 10 {
      NatToStringValue(n / 10);
      var s := NatToString(n);
      assert s[..|s| - 1] == NatToString(n / 10);
    }
  }

  /**
   * `Integer.parseInt` for ASCII text: an optional '+' or '-' followed by at least one
   * decimal digit, with a value in the 32-bit range; anything else is a NumberFormatException.
   */
  function ParseInt(s: string): (r: Result<int>)
    ensures r.Success? ==> INT_MIN <= r.value <= INT_MAX
    ensures r.Failure? ==> r.error == NumberFormat
    ensures |s| == 0 ==> r.Failure?
  {
    if |s| == 0 then Failure(NumberFormat)
    else
      var negative := s[0] == '-';
      var digits := if s[0] == '-' || s[0] == '+' then s[1..] else s;
      if |digits| == 0 || exists i :: 0 <= i < |digits| && !IsDigit(digits[i]) then Failure(NumberFormat)
      else
        var magnitude: int := DigitsValue(digits);
        var v := if negative then -magnitude else magnitude;
        if INT_MIN <= v <= INT_MAX then Success(v) else Failure(NumberFormat)
  }

  /** Rendering an int and parsing it back gives the int. */
  lemma ParseIntToString(n: int)
    requires INT_MIN <= n <= INT_MAX
    ensures ParseInt(IntToString(n)) == Success(n)
  {
    var s := IntToString(n);
    if n < 0 {
      var digits := NatToString(-n);
      NatToStringValue(-n);
      assert s[0] == '-';
      assert s[1..] == digits;
    } else {
      NatToStringValue(n);
      assert IsDigit(s[0]);
    }
  }

  predicate StartsWith(s: string, prefix: string) {
    |prefix| <= |s| && s[..|prefix|] == prefix
  }

  /** Simple case folding of ASCII and Latin-1 letters to lower case. */
  function ToLower(c: char): char {
    if 'A' <= c <= 'Z' || ('À' <= c <= 'Þ' && c != '×') then (c as int + 32) as char
    else c
  }

  /** `equalsIgnoreCase`: equal lengths and equal characters after case folding. */
  predicate EqualsIgnoreCase(a: string, b: string) {
    |a| == |b| && forall i :: 0 <= i < |a| ==> ToLower(a[i]) == ToLower(b[i])
  }

  lemma EqualsIgnoreCaseIsEquivalence(a: string, b: string, c: string)
    ensures EqualsIgnoreCase(a, a)
    ensures EqualsIgnoreCase(a, b) ==> EqualsIgnoreCase(b, a)
    ensures EqualsIgnoreCase(a, b) && EqualsIgnoreCase(b, c) ==> EqualsIgnoreCase(a, c)
  {
  }

  /** The index of the first `c` in `s`, or `|s|` when there is none. */
  function IndexOf(s: string, c: char): (r: nat)
    ensures r <= |s|
    ensures r < |s| ==> s[r] == c
    ensures c !in s[..r]
  {
    if |s| == 0 then 0
    else if s[0] == c then 0
    else
      var k := IndexOf(s[1..], c);
      assert s[..k + 1] == [s[0]] + s[1..][..k];
      k + 1
  }

  /** The comma-separated pieces of `s`, all of them, including empty ones. */
  function Fields(s: string): (r: seq<string>)
    ensures |r| > 0
    ensures forall k :: 0 <= k < |r| ==> ',' !in r[k]
    decreases |s|
  {
    var i := IndexOf(s, ',');
    if i == |s| then
      assert s[..i] == s;
      [s]
    else [s[..i]] + Fields(s[i + 1..])
  }

  /** Joining strings with commas between them. */
  function Join(parts: seq<string>): string
    requires |parts| > 0
  {
    if |parts| == 1 then parts[0] else parts[0] + "," + Join(parts[1..])
  }

  /** Splitting at commas loses nothing: joining the pieces gives the text back. */
  lemma {:induction false} JoinFields(s: string)
    ensures Join(Fields(s)) == s
    decreases |s|
  {
    var i := IndexOf(s, ',');
    if i < |s| {
      JoinFields(s[i + 1..]);
      assert s == s[..i] + "," + s[i + 1..];
    } else {
      assert s[..i] == s;
    }
  }

  /** Drops the empty strings at the end of `parts`. */
  function DropTrailingEmpty(parts: seq<string>): (r: seq<string>)
    ensures |r| <= |parts| && r == parts[..|r|]
    ensures |r| > 0 ==> r[|r| - 1] != ""
    ensures forall k :: |r| <= k < |parts| ==> parts[k] == ""
  {
    if |parts| == 0 || parts[|parts| - 1] != "" then parts
    else DropTrailingEmpty(parts[..|parts| - 1])
  }

  /**
   * `s.split(",")`: when `s` has no comma the result is `[s]` (even for the empty
   * string); otherwise the comma-separated fields with trailing empty fields removed.
   */
  function Split(s: string): (r: seq<string>)
    ensures ',' !in s ==> r == [s]
    ensures ',' in s ==> |r| <= |Fields(s)| && r == Fields(s)[..|r|]
    ensures ',' in s ==> forall k :: |r| <= k < |Fields(s)| ==> Fields(s)[k] == ""
    ensures ',' in s && |r| > 0 ==> r[|r| - 1] != ""
    ensures forall k :: 0 <= k < |r| ==> ',' !in r[k]
  {
    if ',' !in s then [s] else DropTrailingEmpty(Fields(s))
  }

  /** A text that does not end with a comma has a non-empty last field. */
  lemma {:induction false} LastFieldNonEmpty(s: string)
    requires |s| > 0 && s[|s| - 1] != ','
    ensures Fields(s)[|Fields(s)| - 1] != ""
    decreases |s|
  {
    var i := IndexOf(s, ',');
    if i < |s| {
      LastFieldNonEmpty(s[i + 1..]);
    } else {
      assert s[..i] == s;
    }
  }

  /** Nothing is dropped from a non-empty text that does not end with a comma. */
  lemma SplitRoundTrip(s: string)
    requires |s| > 0 && s[|s| - 1] != ','
    ensures Split(s) == Fields(s)
    ensures Join(Split(s)) == s
  {
    LastFieldNonEmpty(s);
    JoinFields(s);
  }
}
