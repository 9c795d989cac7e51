/**
 * The loader of the asterism file: one asterism per line, the Hipparcos numbers of its
 * stars followed by a label, separated by commas. Stars are looked up among the stars
 * already in the builder.
 */
module AsterismLoading {
  import opened Wrappers
  import opened Text
  import opened CelestialObjects
  import opened StarCatalogues
  import opened LineLoads

  /**
   * The Hipparcos index of the builder's stars, filled in list order so that of two stars
   * with the same number the later one is kept.
   */
  function HipIndex(stars: seq<CelestialObject>): (r: map<int, CelestialObject>)
    requires forall s <- stars :: s.IsStar()
  {
    if |stars| == 0 then map[]
    else
      var last := stars[|stars| - 1];
      HipIndex(stars[..|stars| - 1])[last.HipparcosId() := last]
  }

  /** The index holds exactly the numbers of the listed stars, each mapped to the last star with it. */
  lemma {:induction false} HipIndexLookup(stars: seq<CelestialObject>, hip: int)
    requires forall s <- stars :: s.IsStar()
    ensures hip in HipIndex(stars) <==> exists s <- stars :: s.HipparcosId() == hip
    ensures hip in HipIndex(stars) ==>
              exists i :: 0 <= i < |stars| && HipIndex(stars)[hip] == stars[i] && stars[i].HipparcosId() == hip
                          && forall j :: i < j < |stars| ==> stars[j].HipparcosId() != hip
    decreases |stars|
  {
    if |stars| > 0 {
      var front := stars[..|stars| - 1];
      var last := stars[|stars| - 1];
      HipIndexLookup(front, hip);
      assert stars == front + [last];
      if last.HipparcosId() == hip {
        assert HipIndex(stars)[hip] == stars[|stars| - 1];
      } else if hip in HipIndex(front) {
        var i :| 0 <= i < |front| && HipIndex(front)[hip] == front[i] && front[i].HipparcosId() == hip
                 && forall j :: i < j < |front| ==> front[j].HipparcosId() != hip;
        assert HipIndex(stars)[hip] == stars[i];
      } else {
        assert forall s <- stars :: s in front || s == last;
      }
    }
  }

  /** Every star in the index is one of the listed stars. */
  lemma {:induction false} HipIndexValues(stars: seq<CelestialObject>)
    requires forall s <- stars :: s.IsStar()
    ensures forall h <- HipIndex(stars).Keys :: HipIndex(stars)[h] in stars
    decreases |stars|
  {
    if |stars| > 0 {
      var front := stars[..|stars| - 1];
      HipIndexValues(front);
      assert forall s <- front :: s in stars;
    }
  }

  /** The loop that fills the index, star by star. */
  method BuildHipIndex(stars: seq<CelestialObject>) returns (starHashMap: map<int, CelestialObject>)
    requires forall s <- stars :: s.IsStar()
    ensures starHashMap == HipIndex(stars)
  {
    starHashMap := map[];
    var i := 0;
    while i < |stars|
      invariant 0 <= i <= |stars|
      invariant starHashMap == HipIndex(stars[..i])
    {
      assert stars[..i + 1][..i] == stars[..i];
      starHashMap := starHashMap[stars[i].HipparcosId() := stars[i]];
      i := i + 1;
    }
    assert stars[..i] == stars;
  }

  /**
   * The stars named by the number fields of a line, in order: a field that is not an int
   * is a NumberFormatException; a number that is not positive or not in the index is skipped.
   */
  function Members(ids: seq<string>, hipIndex: map<int, CelestialObject>): (r: Result<seq<CelestialObject>>)
    ensures r.Success? <==> forall k :: 0 <= k < |ids| ==> ParseInt(ids[k]).Success?
    ensures r.Failure? ==> r.error == NumberFormat
    ensures r.Success? ==> |r.value| <= |ids|
    ensures r.Success? ==> forall s <- r.value :: exists h <- hipIndex.Keys :: h > 0 && hipIndex[h] == s
  {
    if |ids| == 0 then Success([])
    else
      var front :- Members(ids[..|ids| - 1], hipIndex);
      var id :- ParseInt(ids[|ids| - 1]);
      Success(front + Resolved(id, hipIndex))
  }

  /** A field naming a known positive number contributes its star, in place. */
  lemma {:induction false} MembersKeepKnownStars(ids: seq<string>, hipIndex: map<int, CelestialObject>)
    requires forall k :: 0 <= k < |ids| ==> ParseInt(ids[k]).Success? && ParseInt(ids[k]).value in hipIndex
                                             && ParseInt(ids[k]).value > 0
    ensures Members(ids, hipIndex).Success?
    ensures Members(ids, hipIndex).value == seq(|ids|, k requires 0 <= k < |ids| => hipIndex[ParseInt(ids[k]).value])
    decreases |ids|
  {
    if |ids| > 0 {
      MembersKeepKnownStars(ids[..|ids| - 1], hipIndex);
    }
  }

  /** What one number field contributes once it parses: its star when it is positive and known, else nothing. */
  function Resolved(id: int, hipIndex: map<int, CelestialObject>): (r: seq<CelestialObject>)
    ensures |r| <= 1
    ensures |r| == 1 <==> id > 0 && id in hipIndex
    ensures |r| == 1 ==> r[0] == hipIndex[id]
  {
    if id in hipIndex && id > 0 then [hipIndex[id]] else []
  }

  /** A single field: a NumberFormatException when it is not an int, otherwise what it resolves to. */
  lemma MembersSingle(id: string, hipIndex: map<int, CelestialObject>)
    ensures Members([id], hipIndex)
            == if ParseInt(id).Failure? then Failure(NumberFormat) else Success(Resolved(ParseInt(id).value, hipIndex))
  {
    assert [id][..0] == [];
    if ParseInt(id).Success? {
      assert [] + Resolved(ParseInt(id).value, hipIndex) == Resolved(ParseInt(id).value, hipIndex);
    }
  }

  /**
   * The fields of a line read independently: the stars of two runs of fields are those of
   * the first run followed by those of the second, so resolved stars keep their order and
   * unresolved numbers are skipped.
   */
  lemma {:induction false} MembersAppend(a: seq<string>, b: seq<string>, hipIndex: map<int, CelestialObject>)
    requires Members(a, hipIndex).Success? && Members(b, hipIndex).Success?
    ensures Members(a + b, hipIndex) == Success(Members(a, hipIndex).value + Members(b, hipIndex).value)
    decreases |b|
  {
    if |b| == 0 {
      assert a + b == a;
      assert Members(a, hipIndex).value + [] == Members(a, hipIndex).value;
    } else {
      var ab := a + b;
      var b' := b[..|b| - 1];
      assert ab[..|ab| - 1] == a + b' && ab[|ab| - 1] == b[|b| - 1];
      assert Members(b', hipIndex).Success?;
      MembersAppend(a, b', hipIndex);
      var id := ParseInt(b[|b| - 1]).value;
      assert Members(b, hipIndex).value == Members(b', hipIndex).value + Resolved(id, hipIndex);
      assert Members(ab, hipIndex).value == Members(a + b', hipIndex).value + Resolved(id, hipIndex);
      var ma, mb' := Members(a, hipIndex).value, Members(b', hipIndex).value;
      assert (ma + mb') + Resolved(id, hipIndex) == ma + (mb' + Resolved(id, hipIndex));
    }
  }

  /** Numbers that are all unknown or not positive give no star at all. */
  lemma {:induction false} MembersNoneKnown(ids: seq<string>, hipIndex: map<int, CelestialObject>)
    requires forall k :: 0 <= k < |ids| ==> ParseInt(ids[k]).Success?
    requires forall k :: 0 <= k < |ids| ==> ParseInt(ids[k]).value <= 0 || ParseInt(ids[k]).value !in hipIndex
    ensures Members(ids, hipIndex) == Success([])
    decreases |ids|
  {
    if |ids| > 0 {
      MembersNoneKnown(ids[..|ids| - 1], hipIndex);
    }
  }

  /**
   * One line: the last field is the label (a line that splits to nothing is an
   * ArrayIndexOutOfBoundsException), the others are the numbers; an asterism without
   * stars is refused by the Asterism constructor.
   */
  function ParseLine(line: string, hipIndex: map<int, CelestialObject>): (r: Result<Description>)
    ensures r.Success? ==> |r.value.0| > 0
  {
    var parts := Split(line);
    if |parts| == 0 then Failure(IndexOutOfBounds)
    else
      var starList :- Members(parts[..|parts| - 1], hipIndex);
      if |starList| == 0 then Failure(IllegalArgument) else Success((starList, parts[|parts| - 1]))
  }

  /**
   * How a line reads: the label is its last field and the stars come from the other
   * fields; a line with no field fails on the label, one with a bad number on the number,
   * and one naming no known star in the Asterism constructor.
   */
  lemma ParseLineFields(line: string, hipIndex: map<int, CelestialObject>)
    ensures |Split(line)| == 0 ==> ParseLine(line, hipIndex) == Failure(IndexOutOfBounds)
    ensures ParseLine(line, hipIndex).Success? ==>
              var parts := Split(line);
              ParseLine(line, hipIndex).value.1 == parts[|parts| - 1]
              && Members(parts[..|parts| - 1], hipIndex) == Success(ParseLine(line, hipIndex).value.0)
    ensures ParseLine(line, hipIndex).Failure? && |Split(line)| > 0 ==>
              var parts := Split(line);
              ParseLine(line, hipIndex).error
              == (if Members(parts[..|parts| - 1], hipIndex).Failure? then NumberFormat else IllegalArgument)
  {
  }

  /**
   * A line whose numbers all parse but name no known positive Hipparcos number is refused by
   * the Asterism constructor with an IllegalArgumentException.
   */
  lemma LineWithoutKnownStar(line: string, hipIndex: map<int, CelestialObject>)
    requires |Split(line)| > 0
    requires var ids := Split(line)[..|Split(line)| - 1];
             forall k :: 0 <= k < |ids| ==> ParseInt(ids[k]).Success?
                                            && (ParseInt(ids[k]).value <= 0 || ParseInt(ids[k]).value !in hipIndex)
    ensures ParseLine(line, hipIndex) == Failure(IllegalArgument)
  {
    MembersNoneKnown(Split(line)[..|Split(line)| - 1], hipIndex);
  }

  /** What an asterism line contributes: its stars and its label. */
  type Description = (seq<CelestialObject>, string)

  /** Reading one line against the index: `ParseLine` as the reader of a load. */
  function ReadAsterism(hipIndex: map<int, CelestialObject>): string -> Result<Description> {
    line => ParseLine(line, hipIndex)
  }

  /** The description of each asterism. */
  function Described(asterisms: seq<Asterism>): (r: seq<Description>)
    ensures |r| == |asterisms|
    ensures forall i :: 0 <= i < |r| ==> r[i] == (asterisms[i].Stars(), asterisms[i].GetConstellationName())
  {
    seq(|asterisms|, i requires 0 <= i < |asterisms| => (asterisms[i].Stars(), asterisms[i].GetConstellationName()))
  }

  /** The asterism of one line: `new Asterism` on what `ParseLine` reads, or the line's error. */
  method AsterismOfLine(line: string, hipIndex: map<int, CelestialObject>) returns (r: Result<Asterism>)
    requires forall h <- hipIndex.Keys :: hipIndex[h].IsStar()
    ensures r.Failure? ==> ReadAsterism(hipIndex)(line) == Failure(r.error)
    ensures r.Success? ==> r.value.Valid()
                           && ReadAsterism(hipIndex)(line) == Success((r.value.Stars(), r.value.GetConstellationName()))
  {
    var parsed := ParseLine(line, hipIndex);
    if parsed.Failure? {
      return Failure(parsed.error);
    }
    r := NewAsterism(parsed.value.0, parsed.value.1);
    if r.Failure? {
      assert false;
    }
  }

  lemma DescribedSnoc(asterisms: seq<Asterism>, a: Asterism)
    ensures Described(asterisms + [a]) == Described(asterisms) + [(a.Stars(), a.GetConstellationName())]
  {
    assert Described(asterisms + [a]) == Described(asterisms) + [(a.Stars(), a.GetConstellationName())];
  }

  /**
   * One pass of the loop of `load`: the asterism of line `i` appended to the builder, or
   * the line's error with the builder unchanged. `added` holds the asterisms appended so far.
   */
  method LoadLine(lines: seq<string>, i: int, starHashMap: map<int, CelestialObject>, builder: Builder,
                  ghost before: seq<Asterism>, ghost added: seq<Asterism>)
    returns (r: Outcome, ghost added': seq<Asterism>)
    requires 0 <= i < |lines| && builder.Valid() && builder.asterisms == before + added
    requires forall h <- starHashMap.Keys :: starHashMap[h].IsStar()
    modifies builder
    ensures builder.Valid() && builder.stars == old(builder.stars) && builder.asterisms == before + added'
    ensures r.Fail? ==> added' == added && LoadOf(lines[i..], ReadAsterism(starHashMap)) == ([], r)
    ensures r.Pass? ==>
              && Described(added) + LoadOf(lines[i..], ReadAsterism(starHashMap)).0
                 == Described(added') + LoadOf(lines[i + 1..], ReadAsterism(starHashMap)).0
              && LoadOf(lines[i..], ReadAsterism(starHashMap)).1 == LoadOf(lines[i + 1..], ReadAsterism(starHashMap)).1
  {
    var asterism := AsterismOfLine(lines[i], starHashMap);
    if asterism.Failure? {
      LoadOfFail(lines, i, ReadAsterism(starHashMap), asterism.error);
      return Fail(asterism.error), added;
    }
    var _ := builder.AddAsterism(asterism.value);
    DescribedSnoc(added, asterism.value);
    LoadOfStep(Described(added) + LoadOf(lines[i..], ReadAsterism(starHashMap)).0, Described(added),
               (asterism.value.Stars(), asterism.value.GetConstellationName()), lines, i, ReadAsterism(starHashMap));
    return Pass, added + [asterism.value];
  }

  /**
   * `AsterismLoader.load`: appends one asterism per line, in order, until a line raises;
   * the asterisms appended before that stay in the builder.
   */
  method Load(lines: seq<string>, builder: Builder) returns (r: Outcome)
    requires builder.Valid()
    modifies builder
    ensures builder.Valid() && builder.stars == old(builder.stars)
    ensures |builder.asterisms| >= |old(builder.asterisms)|
    ensures builder.asterisms[..|old(builder.asterisms)|] == old(builder.asterisms)
    ensures (Described(builder.asterisms[|old(builder.asterisms)|..]), r)
            == LoadOf(lines, ReadAsterism(HipIndex(old(builder.stars))))
  {
    var starHashMap := BuildHipIndex(builder.stars);
    HipIndexValues(builder.stars);
    ghost var read := ReadAsterism(starHashMap);
    ghost var before := builder.asterisms;
    ghost var added: seq<Asterism> := [];
    ghost var spec := LoadOf(lines, read);
    var i := 0;
    assert lines[i..] == lines;
    while i < |lines|
      invariant 0 <= i <= |lines|
      invariant builder.Valid() && builder.stars == old(builder.stars)
      invariant builder.asterisms == before + added
      invariant spec.0 == Described(added) + LoadOf(lines[i..], read).0
      invariant spec.1 == LoadOf(lines[i..], read).1
    {
      r, added := LoadLine(lines, i, starHashMap, builder, before, added);
      if r.Fail? {
        assert (before + added)[|before|..] == added;
        assert Described(added) + [] == Described(added);
        return;
      }
      i := i + 1;
    }
    LoadOfDone(lines, read);
    assert Described(added) + [] == Described(added);
    assert (before + added)[|before|..] == added;
    return Pass;
  }

  /** The asterisms this loader builds only name stars of the builder, so `build` accepts them. */
  lemma LoadedMembersListed(stars: seq<CelestialObject>, line: string)
    requires forall s <- stars :: s.IsStar()
    requires ParseLine(line, HipIndex(stars)).Success?
    ensures forall s <- ParseLine(line, HipIndex(stars)).value.0 :: s in stars
  {
    HipIndexValues(stars);
  }
}
