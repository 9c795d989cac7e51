/**
 * The colour of a star from its temperature: a table read once from the black-body
 * radiation data file, keyed by temperatures in steps of 100 kelvins. Colours are kept as
 * their `#rrggbb` text.
 */
module BlackBodyColors {
  import opened Wrappers
  import opened Intervals
  import opened Preconditions
  import opened Text
  import CelestialObjects

  const TEMPERATURE_INTERVAL: Interval := ClosedInterval(1000.0, 40_000.0)

  /** The table key of a temperature: `(int) Math.round(t / 100) * 100`, halves rounded up. */
  function TemperatureKey(tempInKelvin: real): (k: int)
    requires TEMPERATURE_INTERVAL.Contains(tempInKelvin)
    ensures k % 100 == 0 && 1000 <= k <= 40_000
    ensures k as real - 50.0 <= tempInKelvin < k as real + 50.0
  {
    var q := tempInKelvin / 100.0;
    var n := (q + 0.5).Floor;
    assert q * 100.0 == tempInKelvin;
    assert 10.0 <= q <= 400.0;
    n * 100
  }

  /**
   * `colorForTemperature`: fails outside [1000, 40000] kelvins; otherwise the colour the
   * table holds for the nearest multiple of 100, or `None` (Java's null) when it holds none.
   */
  function ColorForTemperature(table: map<int, string>, tempInKelvin: real): (r: Result<Option<string>>)
    ensures r.Success? <==> 1000.0 <= tempInKelvin <= 40_000.0
    ensures r.Failure? ==> r.error == IllegalArgument
    ensures r.Success? ==> var k := TemperatureKey(tempInKelvin);
                           r.value == if k in table then Some(table[k]) else None
  {
    var t :- CheckInInterval(TEMPERATURE_INTERVAL, tempInKelvin);
    var key := TemperatureKey(t);
    if key in table then Success(Some(table[key])) else Success(None)
  }

  /** Every star's colour temperature lies in the range `colorForTemperature` accepts. */
  lemma StarTemperatureAccepted(table: map<int, string>, colorIndex: real)
    requires CelestialObjects.COLOR_INTERVAL.Contains(colorIndex)
    ensures ColorForTemperature(table, CelestialObjects.ColorTemperature(colorIndex) as real).Success?
  {
  }

  /**
   * `toInteger`: the temperature columns hold four or five digits, four of them after a
   * leading space, which is dropped before parsing.
   */
  function ToInteger(s: string): (r: Result<int>)
    ensures |s| == 0 ==> r == Failure(IndexOutOfBounds)
    ensures |s| > 0 && s[0] == ' ' ==> r == ParseInt(s[1..])
    ensures |s| > 0 && s[0] != ' ' ==> r == ParseInt(s)
  {
    if |s| == 0 then Failure(IndexOutOfBounds)
    else if s[0] == ' ' then ParseInt(s[1..])
    else ParseInt(s)
  }

  /** A temperature as the file writes it: right-aligned in five columns. */
  function Padded(n: nat): string {
    if n < 10_000 then " " + NatToString(n) else NatToString(n)
  }

  lemma FourDigits(n: nat)
    requires 1000 <= n < 10_000
    ensures |NatToString(n)| == 4
  {
    assert |NatToString(n / 1000)| == 1;
    assert |NatToString(n / 100)| == 2;
    assert |NatToString(n / 10)| == 3;
  }

  lemma FiveDigits(n: nat)
    requires 10_000 <= n < 100_000
    ensures |NatToString(n)| == 5
  {
    assert |NatToString(n / 10)| == 4 by { FourDigits(n / 10); }
  }

  /** Every four- or five-digit temperature the file can hold reads back as itself. */
  lemma {:induction false} ToIntegerPadded(n: nat)
    requires 1000 <= n < 100_000
    ensures |Padded(n)| == 5
    ensures ToInteger(Padded(n)) == Success(n)
  {
    ParseIntToString(n);
    if n < 10_000 {
      FourDigits(n);
      assert Padded(n)[1..] == NatToString(n);
    } else {
      FiveDigits(n);
      assert IsDigit(NatToString(n)[0]);
    }
  }

  /**
   * What one line of the data file contributes: `None` for a comment line or a line for
   * another observer field, the (temperature, colour) pair for a "10deg" line, or the
   * exception reading it raises (an empty or short line, a malformed temperature).
   */
  function LineEntry(line: string): (r: Result<Option<(int, string)>>)
    ensures r == Success(None) <==>
              |line| > 0 && (line[0] == '#' || (|line| >= 15 && !EqualsIgnoreCase(line[10..15], "10deg")))
    ensures r.Success? && r.value.Some? ==>
              |line| >= 87 && line[0] != '#' && EqualsIgnoreCase(line[10..15], "10deg")
              && ToInteger(line[1..6]) == Success(r.value.value.0) && r.value.value.1 == line[80..87]
  {
    if |line| == 0 then Failure(IndexOutOfBounds)
    else if line[0] == '#' then Success(None)
    else if |line| < 15 then Failure(IndexOutOfBounds)
    else if !EqualsIgnoreCase(line[10..15], "10deg") then Success(None)
    else
      var temperature :- ToInteger(line[1..6]);
      if |line| < 87 then Failure(IndexOutOfBounds)
      else Success(Some((temperature, line[80..87])))
  }

  /** The entry a line puts in the table, if it reads without error and is kept. */
  function Kept(line: string): Option<(int, string)> {
    var e := LineEntry(line);
    if e.Success? && e.value.Some? then e.value else None
  }

  /** The table `init` builds from `acc` and the remaining lines, stopping at the first failing line. */
  function TableFrom(acc: map<int, string>, lines: seq<string>): Result<map<int, string>>
    decreases |lines|
  {
    if |lines| == 0 then Success(acc)
    else
      var e :- LineEntry(lines[0]);
      var next := if e.Some? then acc[e.value.0 := e.value.1] else acc;
      TableFrom(next, lines[1..])
  }

  function TableOf(lines: seq<string>): Result<map<int, string>> {
    TableFrom(map[], lines)
  }

  /** The colour of the last kept line for `temperature`, if any. */
  function LastColor(lines: seq<string>, temperature: int): (r: Option<string>)
    ensures r.Some? <==> exists j :: 0 <= j < |lines| && Kept(lines[j]).Some? && Kept(lines[j]).value.0 == temperature
    decreases |lines|
  {
    if |lines| == 0 then None
    else
      var rest := LastColor(lines[1..], temperature);
      if rest.Some? then
        rest
      else
        var k := Kept(lines[0]);
        if k.Some? && k.value.0 == temperature then Some(k.value.1) else None
  }

  /** `init` succeeds exactly when no line raises an exception. */
  lemma {:induction false} TableFromSucceeds(acc: map<int, string>, lines: seq<string>)
    ensures TableFrom(acc, lines).Success? <==> forall j :: 0 <= j < |lines| ==> LineEntry(lines[j]).Success?
    decreases |lines|
  {
    if |lines| > 0 {
      var e := LineEntry(lines[0]);
      if e.Success? {
        var next := if e.value.Some? then acc[e.value.value.0 := e.value.value.1] else acc;
        TableFromSucceeds(next, lines[1..]);
        assert forall j :: 1 <= j < |lines| ==> lines[j] == lines[1..][j - 1];
      }
    }
  }

  /**
   * A later line for a temperature overwrites an earlier one: the table holds, for every
   * temperature, the colour of the last kept line for it, and only such temperatures.
   */
  lemma {:induction false} TableFromLastWins(acc: map<int, string>, lines: seq<string>, temperature: int)
    requires TableFrom(acc, lines).Success?
    ensures var t := TableFrom(acc, lines).value;
            (temperature in t <==> LastColor(lines, temperature).Some? || temperature in acc)
            && (LastColor(lines, temperature).Some? ==> t[temperature] == LastColor(lines, temperature).value)
            && (LastColor(lines, temperature).None? && temperature in acc ==> t[temperature] == acc[temperature])
    decreases |lines|
  {
    if |lines| > 0 {
      var e := LineEntry(lines[0]);
      var next := if e.value.Some? then acc[e.value.value.0 := e.value.value.1] else acc;
      TableFromLastWins(next, lines[1..], temperature);
    }
  }

  lemma TableOfLastWins(lines: seq<string>, temperature: int)
    requires TableOf(lines).Success?
    ensures temperature in TableOf(lines).value <==> LastColor(lines, temperature).Some?
    ensures LastColor(lines, temperature).Some? ==>
              TableOf(lines).value[temperature] == LastColor(lines, temperature).value
  {
    TableFromLastWins(map[], lines, temperature);
  }

  /** `init`: reads the data file line by line into a fresh table. */
  method Init(lines: seq<string>) returns (r: Result<map<int, string>>)
    ensures r == TableOf(lines)
  {
    var tempToColor: map<int, string> := map[];
    var i := 0;
    while i < |lines|
      invariant 0 <= i <= |lines|
      invariant TableFrom(tempToColor, lines[i..]) == TableOf(lines)
    {
      var entry := LineEntry(lines[i]);
      assert lines[i..][0] == lines[i] && lines[i..][1..] == lines[i + 1..];
      if entry.Failure? {
        return Failure(entry.error);
      }
      if entry.value.Some? {
        tempToColor := tempToColor[entry.value.value.0 := entry.value.value.1];
      }
      i := i + 1;
    }
    return Success(tempToColor);
  }
}
