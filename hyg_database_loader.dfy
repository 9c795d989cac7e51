/**
 * The loader of the HYG star database: a header line, then one star per line as
 * comma-separated columns. Text-to-double conversion is a parameter of the model.
 */
module HygLoading {
  import opened Wrappers
  import opened Text
  import opened Coordinates
  import opened CelestialObjects
  import opened StarCatalogues
  import opened LineLoads

  /** The columns of the database, in file order. */
  datatype Column =
    | ID | HIP | HD | HR | GL | BF | PROPER | RA | DEC | DIST | PMRA | PMDEC
    | RV | MAG | ABSMAG | SPECT | CI | X | Y | Z | VX | VY | VZ
    | RARAD | DECRAD | PMRARAD | PMDECRAD | BAYER | FLAM | CON
    | COMP | COMP_PRIMARY | BASE | LUM | VAR | VAR_MIN | VAR_MAX

  /** The position of a column in a line. */
  function Ordinal(c: Column): (r: nat)
    ensures r < 37
  {
    match c
    case ID => 0 case HIP => 1 case HD => 2 case HR => 3 case GL => 4 case BF => 5
    case PROPER => 6 case RA => 7 case DEC => 8 case DIST => 9 case PMRA => 10 case PMDEC => 11
    case RV => 12 case MAG => 13 case ABSMAG => 14 case SPECT => 15 case CI => 16 case X => 17
    case Y => 18 case Z => 19 case VX => 20 case VY => 21 case VZ => 22 case RARAD => 23
    case DECRAD => 24 case PMRARAD => 25 case PMDECRAD => 26 case BAYER => 27 case FLAM => 28
    case CON => 29 case COMP => 30 case COMP_PRIMARY => 31 case BASE => 32 case LUM => 33
    case VAR => 34 case VAR_MIN => 35 case VAR_MAX => 36
  }

  /** `parts[column.ordinal()]`: an ArrayIndexOutOfBoundsException past the last field. */
  function Field(parts: seq<string>, column: Column): (r: Result<string>)
    ensures r.Success? <==> Ordinal(column) < |parts|
    ensures r.Failure? ==> r.error == IndexOutOfBounds
    ensures r.Success? ==> r.value == parts[Ordinal(column)]
  {
    if Ordinal(column) < |parts| then Success(parts[Ordinal(column)]) else Failure(IndexOutOfBounds)
  }

  /** `stringOf`: the field, or the default when the field is empty. */
  function StringOf(parts: seq<string>, column: Column, defaultValue: string): (r: Result<string>)
    ensures r.Success? <==> Ordinal(column) < |parts|
    ensures r.Failure? ==> r.error == IndexOutOfBounds
    ensures r.Success? && parts[Ordinal(column)] != "" ==> r.value == parts[Ordinal(column)]
    ensures r.Success? && parts[Ordinal(column)] == "" ==> r.value == defaultValue
    ensures r.Success? && defaultValue != "" ==> r.value != ""
  {
    var content :- Field(parts, column);
    Success(if content == "" then defaultValue else content)
  }

  /** `Double.parseDouble`, given as a function: None stands for a NumberFormatException. */
  function ParseDouble(parseDouble: string -> Option<real>, s: string): (r: Result<real>)
    ensures r.Success? <==> parseDouble(s).Some?
    ensures r.Failure? ==> r.error == NumberFormat
    ensures r.Success? ==> r.value == parseDouble(s).value
  {
    match parseDouble(s)
    case Some(v) => Success(v)
    case None => Failure(NumberFormat)
  }

  /** The star name: the proper name, or else the Bayer designation ("?" if none), a space and the constellation. */
  function StarName(parts: seq<string>): (r: Result<string>)
    ensures r.Success? <==> Ordinal(PROPER) < |parts| && (parts[6] == "" ==> Ordinal(CON) < |parts|)
    ensures r.Failure? ==> r.error == IndexOutOfBounds
    ensures r.Success? ==> r.value != ""
    ensures r.Success? && parts[6] != "" ==> r.value == parts[6]
    ensures r.Success? && parts[6] == "" ==>
              r.value == (if parts[27] == "" then "?" else parts[27]) + " " + parts[29]
  {
    var proper :- Field(parts, PROPER);
    if proper == "" then
      var bayer :- StringOf(parts, BAYER, "?");
      var con :- Field(parts, CON);
      Success(bayer + " " + con)
    else Success(proper)
  }

  /** The default Hipparcos text "0" reads as 0. */
  lemma ParseIntZero()
    ensures ParseInt("0") == Success(0)
  {
    assert DigitsValue("0") == DigitValue('0');
  }

  /** The arguments of the `Star` constructor read from one line. */
  datatype StarArguments = StarArguments(hipparcosId: int, name: string, equatorialPos: EquatorialCoordinates,
                                         magnitude: real, colorIndex: real)

  /** The Hipparcos number: the HIP column, "0" when empty, read as an int. */
  function RecordHip(parts: seq<string>): (r: Result<int>)
    ensures |parts| < 2 ==> r == Failure(IndexOutOfBounds)
    ensures |parts| >= 2 && parts[1] == "" ==> r == Success(0)
    ensures |parts| >= 2 && parts[1] != "" ==> r == ParseInt(parts[1])
  {
    ParseIntZero();
    var hipText :- StringOf(parts, HIP, "0");
    ParseInt(hipText)
  }

  /** The position: RARAD then DECRAD, each read as a double, checked by `EquatorialCoordinates.of`. */
  function RecordPosition(parts: seq<string>, parseDouble: string -> Option<real>): (r: Result<EquatorialCoordinates>)
    ensures r.Success? ==> |parts| > Ordinal(DECRAD) && r.value.Valid()
    ensures r.Success? ==> Success(r.value.Ra()) == ParseDouble(parseDouble, parts[23])
                           && Success(r.value.Dec()) == ParseDouble(parseDouble, parts[24])
    ensures |parts| > Ordinal(DECRAD) && parseDouble(parts[23]).Some? && parseDouble(parts[24]).Some? ==>
              r == EquatorialOf(parseDouble(parts[23]).value, parseDouble(parts[24]).value)
  {
    var raText :- Field(parts, RARAD);
    var ra :- ParseDouble(parseDouble, raText);
    var decText :- Field(parts, DECRAD);
    var dec :- ParseDouble(parseDouble, decText);
    EquatorialOf(ra, dec)
  }

  /** A double column, "0" when empty. */
  function RecordDouble(parts: seq<string>, column: Column, parseDouble: string -> Option<real>): (r: Result<real>)
    ensures r.Success? ==> Ordinal(column) < |parts|
    ensures Ordinal(column) < |parts| && parts[Ordinal(column)] == "" ==> r == ParseDouble(parseDouble, "0")
    ensures Ordinal(column) < |parts| && parts[Ordinal(column)] != "" ==>
              r == ParseDouble(parseDouble, parts[Ordinal(column)])
  {
    var text :- StringOf(parts, column, "0");
    ParseDouble(parseDouble, text)
  }

  /**
   * The fields of one line, read in the order of the loader: the Hipparcos number, the
   * name, the position, the magnitude and the colour index.
   */
  function RecordArguments(parts: seq<string>, parseDouble: string -> Option<real>): (r: Result<StarArguments>)
    ensures |parts| < 2 ==> r == Failure(IndexOutOfBounds)
    ensures r.Success? ==> |parts| > Ordinal(CI)
    ensures r.Success? ==> Success(r.value.hipparcosId) == RecordHip(parts)
    ensures r.Success? ==> Success(r.value.name) == StarName(parts)
    ensures r.Success? ==> Success(r.value.equatorialPos) == RecordPosition(parts, parseDouble)
    ensures r.Success? ==> Success(r.value.magnitude) == RecordDouble(parts, MAG, parseDouble)
    ensures r.Success? ==> Success(r.value.colorIndex) == RecordDouble(parts, CI, parseDouble)
  {
    var hipparcosNumber :- RecordHip(parts);
    var name :- StarName(parts);
    var eqPosition :- RecordPosition(parts, parseDouble);
    var magnitude :- RecordDouble(parts, MAG, parseDouble);
    var colorIndex :- RecordDouble(parts, CI, parseDouble);
    Success(StarArguments(hipparcosNumber, name, eqPosition, magnitude, colorIndex))
  }

  /** The star of one line, or the exception reading it raises. */
  function LineStar(line: string, parseDouble: string -> Option<real>): (r: Result<ObjectData>)
    ensures r.Success? ==> WellFormed(r.value) && r.value.body.StarBody?
  {
    var a :- RecordArguments(Split(line), parseDouble);
    StarData(a.hipparcosId, Some(a.name), Some(a.equatorialPos), a.magnitude, a.colorIndex)
  }

  /**
   * A loaded star carries the number and the name its line gives: the Hipparcos column
   * (0 when empty), and a name that is never empty.
   */
  lemma LineStarFields(line: string, parseDouble: string -> Option<real>)
    requires LineStar(line, parseDouble).Success?
    ensures |Split(line)| > Ordinal(CI)
    ensures RecordArguments(Split(line), parseDouble).Success?
    ensures Success(LineStar(line, parseDouble).value.name) == StarName(Split(line))
    ensures LineStar(line, parseDouble).value.name != ""
    ensures Split(line)[1] == "" ==> LineStar(line, parseDouble).value.body.hipparcosId == 0
    ensures Split(line)[1] != "" ==> ParseInt(Split(line)[1]) == Success(LineStar(line, parseDouble).value.body.hipparcosId)
    ensures LineStar(line, parseDouble).value.equatorialPos.Valid()
  {
  }

  /** The records after the header line. */
  function Records(lines: seq<string>): (r: seq<string>)
    ensures |lines| > 0 ==> r == lines[1..]
    ensures |lines| == 0 ==> r == []
  {
    if |lines| == 0 then [] else lines[1..]
  }

  /** Reading one record: `LineStar` as the reader of a load. */
  function ReadStar(parseDouble: string -> Option<real>): string -> Result<ObjectData> {
    record => LineStar(record, parseDouble)
  }

  /** The data of each star. */
  function DataOf(stars: seq<CelestialObject>): (r: seq<ObjectData>)
    ensures |r| == |stars|
    ensures forall i :: 0 <= i < |r| ==> r[i] == stars[i].data
  {
    seq(|stars|, i requires 0 <= i < |stars| => stars[i].data)
  }

  lemma DataOfSnoc(stars: seq<CelestialObject>, star: CelestialObject)
    ensures DataOf(stars + [star]) == DataOf(stars) + [star.data]
  {
    assert DataOf(stars + [star]) == DataOf(stars) + [star.data];
  }

  /** `new Star(...)` on the fields of one record: the star `LineStar` describes, or its error. */
  method StarOfRecord(record: string, parseDouble: string -> Option<real>) returns (r: Result<CelestialObject>)
    ensures r.Failure? ==> ReadStar(parseDouble)(record) == Failure(r.error)
    ensures r.Success? ==> fresh(r.value) && r.value.IsStar() && ReadStar(parseDouble)(record) == Success(r.value.data)
  {
    var args := RecordArguments(Split(record), parseDouble);
    if args.Failure? {
      return Failure(args.error);
    }
    var a := args.value;
    r := NewStar(a.hipparcosId, Some(a.name), Some(a.equatorialPos), a.magnitude, a.colorIndex);
  }

  /**
   * One pass of the loop of `load`: the star of record `i` appended to the builder, or the
   * record's error with the builder unchanged. `added` holds the stars appended so far.
   */
  method LoadRecord(records: seq<string>, i: int, parseDouble: string -> Option<real>, builder: Builder,
                    ghost before: seq<CelestialObject>, ghost added: seq<CelestialObject>)
    returns (r: Outcome, ghost added': seq<CelestialObject>)
    requires 0 <= i < |records| && builder.Valid() && builder.stars == before + added
    modifies builder
    ensures builder.Valid() && builder.asterisms == old(builder.asterisms) && builder.stars == before + added'
    ensures r.Fail? ==> added' == added && LoadOf(records[i..], ReadStar(parseDouble)) == ([], r)
    ensures r.Pass? ==>
              && DataOf(added) + LoadOf(records[i..], ReadStar(parseDouble)).0
                 == DataOf(added') + LoadOf(records[i + 1..], ReadStar(parseDouble)).0
              && LoadOf(records[i..], ReadStar(parseDouble)).1 == LoadOf(records[i + 1..], ReadStar(parseDouble)).1
  {
    var star := StarOfRecord(records[i], parseDouble);
    if star.Failure? {
      LoadOfFail(records, i, ReadStar(parseDouble), star.error);
      return Fail(star.error), added;
    }
    var _ := builder.AddStar(star.value);
    DataOfSnoc(added, star.value);
    LoadOfStep(DataOf(added) + LoadOf(records[i..], ReadStar(parseDouble)).0, DataOf(added),
               star.value.data, records, i, ReadStar(parseDouble));
    return Pass, added + [star.value];
  }

  /**
   * `HygDatabaseLoader.load`: skips the header, then appends one star per record, in
   * order, until a record raises; the stars appended before that stay in the builder.
   */
  method Load(lines: seq<string>, parseDouble: string -> Option<real>, builder: Builder) returns (r: Outcome)
    requires builder.Valid()
    modifies builder
    ensures builder.Valid() && builder.asterisms == old(builder.asterisms)
    ensures |builder.stars| >= |old(builder.stars)|
    ensures builder.stars[..|old(builder.stars)|] == old(builder.stars)
    ensures (DataOf(builder.stars[|old(builder.stars)|..]), r) == LoadOf(Records(lines), ReadStar(parseDouble))
  {
    var records := Records(lines);
    ghost var read := ReadStar(parseDouble);
    ghost var before := builder.stars;
    ghost var added: seq<CelestialObject> := [];
    ghost var spec := LoadOf(records, read);
    var i := 0;
    assert records[i..] == records;
    while i < |records|
      invariant 0 <= i <= |records|
      invariant builder.Valid() && builder.asterisms == old(builder.asterisms)
      invariant builder.stars == before + added
      invariant spec.0 == DataOf(added) + LoadOf(records[i..], read).0
      invariant spec.1 == LoadOf(records[i..], read).1
    {
      r, added := LoadRecord(records, i, parseDouble, builder, before, added);
      if r.Fail? {
        assert (before + added)[|before|..] == added;
        assert DataOf(added) + [] == DataOf(added);
        return;
      }
      i := i + 1;
    }
    LoadOfDone(records, read);
    assert DataOf(added) + [] == DataOf(added);
    assert (before + added)[|before|..] == added;
    return Pass;
  }
}
