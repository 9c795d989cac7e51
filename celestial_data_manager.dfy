/**
 * The descriptions behind the information windows: a comma-separated text file whose
 * header lines (starting with "Nom") give the captions and whose other lines describe one
 * celestial object each, its name first. Comment lines start with '#'.
 */
module CelestialDataManagers {
  import opened Wrappers
  import opened Text

  /** What `buildCelestialObjectsList` reads from some lines: data rows, captions, and how it ended. */
  datatype Listing = Listing(rows: seq<seq<string>>, labels: seq<string>, outcome: Outcome)

  /**
   * The lines read in order: an empty line stops the read with an exception (its first
   * character does not exist); a '#' line is skipped; a line starting with "Nom" adds its
   * fields to the captions; any other line becomes a data row of its fields.
   */
  function Classified(lines: seq<string>): (r: Listing)
    ensures r.outcome.Fail? ==> r.outcome.error == IndexOutOfBounds
    ensures |r.rows| <= |lines|
    decreases |lines|
  {
    if |lines| == 0 then Listing([], [], Pass)
    else if |lines[0]| == 0 then Listing([], [], Fail(IndexOutOfBounds))
    else
      var rest := Classified(lines[1..]);
      if lines[0][0] == '#' then rest
      else if StartsWith(lines[0], "Nom") then rest.(labels := Split(lines[0]) + rest.labels)
      else rest.(rows := [Split(lines[0])] + rest.rows)
  }

  /** The read ends normally exactly when no line is empty. */
  lemma {:induction false} ClassifiedPasses(lines: seq<string>)
    ensures Classified(lines).outcome.Pass? <==> forall j :: 0 <= j < |lines| ==> |lines[j]| > 0
    decreases |lines|
  {
    if |lines| > 0 && |lines[0]| > 0 {
      ClassifiedPasses(lines[1..]);
      assert forall j :: 1 <= j < |lines| ==> lines[j] == lines[1..][j - 1];
    }
  }

  /**
   * Reading a file in two pieces gives what reading it whole gives, as long as the first
   * piece reads without error.
   */
  lemma {:induction false} ClassifiedAppend(a: seq<string>, b: seq<string>)
    requires Classified(a).outcome.Pass?
    ensures Classified(a + b)
            == Listing(Classified(a).rows + Classified(b).rows, Classified(a).labels + Classified(b).labels,
                       Classified(b).outcome)
    decreases |a|
  {
    if |a| > 0 {
      var ab := a + b;
      assert ab[0] == a[0] && ab[1..] == a[1..] + b;
      ClassifiedAppend(a[1..], b);
      var rest, restA := Classified(ab[1..]), Classified(a[1..]);
      assert rest.rows == restA.rows + Classified(b).rows;
    } else {
      assert a + b == b;
    }
  }

  /** One data line gives one row, its comma fields; a comment line gives nothing. */
  lemma SingleLine(line: string)
    requires |line| > 0
    ensures line[0] == '#' ==> Classified([line]) == Listing([], [], Pass)
    ensures line[0] != '#' && !StartsWith(line, "Nom") ==> Classified([line]) == Listing([Split(line)], [], Pass)
    ensures line[0] != '#' && StartsWith(line, "Nom") ==> Classified([line]) == Listing([], Split(line), Pass)
  {
    assert [line][1..] == [];
  }

  /** A comment line can be inserted anywhere without changing what is read. */
  lemma CommentIgnored(a: seq<string>, comment: string, b: seq<string>)
    requires Classified(a).outcome.Pass?
    requires |comment| > 0 && comment[0] == '#'
    ensures Classified(a + [comment] + b) == Classified(a + b)
  {
    ClassifiedAppend(a, [comment] + b);
    ClassifiedAppend([comment], b);
    ClassifiedAppend(a, b);
    assert Classified([comment]) == Listing([], [], Pass);
    assert a + [comment] + b == a + ([comment] + b);
  }

  /** `getCelestialNames`: the first field of every row, in file order; an empty row has none. */
  function Names(rows: seq<seq<string>>): (r: Result<seq<string>>)
    ensures r.Success? <==> forall k :: 0 <= k < |rows| ==> |rows[k]| > 0
    ensures r.Failure? ==> r.error == IndexOutOfBounds
    ensures r.Success? ==> |r.value| == |rows| && forall k :: 0 <= k < |rows| ==> r.value[k] == rows[k][0]
    decreases |rows|
  {
    if |rows| == 0 then Success([])
    else if |rows[0]| == 0 then Failure(IndexOutOfBounds)
    else
      var rest :- Names(rows[1..]);
      assert forall k :: 1 <= k < |rows| ==> rows[k] == rows[1..][k - 1];
      Success([rows[0][0]] + rest)
  }

  /**
   * The lookup behind `getObjectInfoBox`: the first row whose name equals `name` ignoring
   * case. An empty row met before a match throws; no match throws IllegalArgumentException.
   */
  function Lookup(rows: seq<seq<string>>, name: string): (r: Result<seq<string>>)
    ensures r == Failure(IllegalArgument) <==>
              forall k :: 0 <= k < |rows| ==> |rows[k]| > 0 && !EqualsIgnoreCase(name, rows[k][0])
    ensures r == Failure(IndexOutOfBounds) <==> NamelessRowFirst(rows, name)
    ensures r.Failure? ==> r.error in {IllegalArgument, IndexOutOfBounds}
    decreases |rows|
  {
    if |rows| == 0 then Failure(IllegalArgument)
    else if |rows[0]| == 0 then Failure(IndexOutOfBounds)
    else if EqualsIgnoreCase(name, rows[0][0]) then Success(rows[0])
    else
      assert forall k :: 1 <= k < |rows| ==> rows[k] == rows[1..][k - 1];
      NamelessRowFirstTail(rows, name);
      Lookup(rows[1..], name)
  }

  /** Some row without a name comes before any row whose name matches `name`. */
  predicate NamelessRowFirst(rows: seq<seq<string>>, name: string)
  {
    exists k :: 0 <= k < |rows| && |rows[k]| == 0 && NamedMisses(rows[..k], name)
  }

  /** Every row has a name and none of them matches `name`. */
  predicate NamedMisses(rows: seq<seq<string>>, name: string)
  {
    forall j :: 0 <= j < |rows| ==> |rows[j]| > 0 && !EqualsIgnoreCase(name, rows[j][0])
  }

  /** Past a named row that does not match, a nameless row comes first in the rest exactly when it does in the whole. */
  lemma NamelessRowFirstTail(rows: seq<seq<string>>, name: string)
    requires |rows| > 0 && |rows[0]| > 0 && !EqualsIgnoreCase(name, rows[0][0])
    ensures NamelessRowFirst(rows, name) <==> NamelessRowFirst(rows[1..], name)
  {
    if NamelessRowFirst(rows, name) {
      var k :| 0 <= k < |rows| && |rows[k]| == 0 && NamedMisses(rows[..k], name);
      assert rows[1..][..k - 1] == rows[1..k];
      assert rows[1..][k - 1] == rows[k];
    }
    if NamelessRowFirst(rows[1..], name) {
      var k :| 0 <= k < |rows[1..]| && |rows[1..][k]| == 0 && NamedMisses(rows[1..][..k], name);
      assert rows[..k + 1] == [rows[0]] + rows[1..][..k];
      assert rows[k + 1] == rows[1..][k];
    }
  }

  /** A found row is the first one whose name matches, and every row before it has a name. */
  lemma {:induction false} LookupFindsFirstMatch(rows: seq<seq<string>>, name: string)
    requires Lookup(rows, name).Success?
    ensures exists k :: 0 <= k < |rows| && rows[k] == Lookup(rows, name).value && |rows[k]| > 0
                        && EqualsIgnoreCase(name, rows[k][0])
                        && forall k' :: 0 <= k' < k ==> |rows[k']| > 0 && !EqualsIgnoreCase(name, rows[k'][0])
    decreases |rows|
  {
    if !EqualsIgnoreCase(name, rows[0][0]) {
      LookupFindsFirstMatch(rows[1..], name);
      var k :| 0 <= k < |rows[1..]| && rows[1..][k] == Lookup(rows[1..], name).value && |rows[1..][k]| > 0
               && EqualsIgnoreCase(name, rows[1..][k][0])
               && forall k' :: 0 <= k' < k ==> |rows[1..][k']| > 0 && !EqualsIgnoreCase(name, rows[1..][k'][0]);
      assert rows[k + 1] == Lookup(rows, name).value;
      assert forall k' :: 1 <= k' < k + 1 ==> rows[k'] == rows[1..][k' - 1];
    } else {
      assert rows[0] == Lookup(rows, name).value;
    }
  }

  /** A name that matches row k, after only named rows that do not match, finds row k. */
  lemma {:induction false} LookupFindsPresent(rows: seq<seq<string>>, name: string, k: nat)
    requires k < |rows| && |rows[k]| > 0 && EqualsIgnoreCase(name, rows[k][0])
    requires NamedMisses(rows[..k], name)
    ensures Lookup(rows, name) == Success(rows[k])
    decreases k
  {
    if k > 0 {
      assert rows[..k][0] == rows[0];
      assert rows[1..][..k - 1] == rows[1..k];
      assert forall j :: 0 <= j < k - 1 ==> rows[1..k][j] == rows[..k][j + 1];
      LookupFindsPresent(rows[1..], name, k - 1);
    }
  }

  /** Two names that differ only in case find the same row. */
  lemma {:induction false} LookupIgnoresCase(rows: seq<seq<string>>, a: string, b: string)
    requires EqualsIgnoreCase(a, b)
    ensures Lookup(rows, a) == Lookup(rows, b)
    decreases |rows|
  {
    if |rows| > 0 && |rows[0]| > 0 {
      EqualsIgnoreCaseIsEquivalence(a, b, rows[0][0]);
      EqualsIgnoreCaseIsEquivalence(b, a, rows[0][0]);
      LookupIgnoresCase(rows[1..], a, b);
    }
  }

  /** The caption list; one list shared by every manager, as a static field is. */
  class InfoLabels {
    var labels: seq<string>

    constructor ()
      ensures labels == []
    {
      labels := [];
    }
  }

  class CelestialDataManager {
    var celestObjectData: seq<seq<string>>
    const infoLabels: InfoLabels

    constructor (infoLabels: InfoLabels)
      ensures celestObjectData == [] && this.infoLabels == infoLabels
    {
      celestObjectData := [];
      this.infoLabels := infoLabels;
    }

    /**
     * `buildCelestialObjectsList`: appends the rows and captions of `lines`. The captions go to
     * the shared list, so every manager built appends them once more; the rows and captions
     * of the lines before an empty line stay appended when it throws.
     */
    method BuildCelestialObjectsList(lines: seq<string>) returns (r: Outcome)
      modifies this, infoLabels
      ensures r == Classified(lines).outcome
      ensures celestObjectData == old(celestObjectData) + Classified(lines).rows
      ensures infoLabels.labels == old(infoLabels.labels) + Classified(lines).labels
    {
      var i := 0;
      while i < |lines|
        invariant 0 <= i <= |lines|
        invariant celestObjectData + Classified(lines[i..]).rows == old(celestObjectData) + Classified(lines).rows
        invariant infoLabels.labels + Classified(lines[i..]).labels
                  == old(infoLabels.labels) + Classified(lines).labels
        invariant Classified(lines[i..]).outcome == Classified(lines).outcome
      {
        var line := lines[i];
        assert lines[i..][0] == line && lines[i..][1..] == lines[i + 1..];
        if |line| == 0 {
          assert Classified(lines[i..]).rows == [] && Classified(lines[i..]).labels == [];
          assert celestObjectData + [] == celestObjectData;
          assert infoLabels.labels + [] == infoLabels.labels;
          return Fail(IndexOutOfBounds);
        }
        if line[0] != '#' {
          if !StartsWith(line, "Nom") {
            celestObjectData := celestObjectData + [Split(line)];
          } else {
            infoLabels.labels := infoLabels.labels + Split(line);
          }
        }
        i := i + 1;
      }
      assert celestObjectData + [] == celestObjectData;
      assert infoLabels.labels + [] == infoLabels.labels;
      return Pass;
    }

    /** `getCelestialNames`. */
    method GetCelestialNames() returns (r: Result<seq<string>>)
      ensures r == Names(celestObjectData)
    {
      var names: seq<string> := [];
      for k := 0 to |celestObjectData|
        invariant |names| == k
        invariant forall j :: 0 <= j < k ==> |celestObjectData[j]| > 0 && names[j] == celestObjectData[j][0]
      {
        var objData := celestObjectData[k];
        if |objData| == 0 {
          NamesFailure(celestObjectData, k);
          return Failure(IndexOutOfBounds);
        }
        names := names + [objData[0]];
      }
      assert Names(celestObjectData).value == names;
      return Success(names);
    }

    /** The row `getObjectInfoBox` shows for `celestialObject`. */
    method ObjectInfo(celestialObject: string) returns (r: Result<seq<string>>)
      ensures r == Lookup(celestObjectData, celestialObject)
    {
      for k := 0 to |celestObjectData|
        invariant Lookup(celestObjectData, celestialObject) == Lookup(celestObjectData[k..], celestialObject)
      {
        var objData := celestObjectData[k];
        assert celestObjectData[k..][0] == objData && celestObjectData[k..][1..] == celestObjectData[k + 1..];
        if |objData| == 0 {
          return Failure(IndexOutOfBounds);
        }
        if EqualsIgnoreCase(celestialObject, objData[0]) {
          return Success(objData);
        }
      }
      return Failure(IllegalArgument);
    }
  }

  /** An empty row makes `getCelestialNames` fail, whatever follows it. */
  lemma NamesFailure(rows: seq<seq<string>>, k: int)
    requires 0 <= k < |rows| && |rows[k]| == 0
    ensures Names(rows) == Failure(IndexOutOfBounds)
  {
  }
}
