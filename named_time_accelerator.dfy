/** The six accelerators the user can choose from, each with its display label. */
module NamedTimeAccelerators {
  import opened TimeAccelerators

  const NANOS_PER_HOUR: int := 3600 * NANOS_PER_SECOND

  /** `PT24H`, in nanoseconds. */
  const DAY_STEP: int := 24 * NANOS_PER_HOUR
  /** `PT23H56M4S`, in nanoseconds. */
  const SIDEREAL_DAY_STEP: int := 23 * NANOS_PER_HOUR + 56 * 60 * NANOS_PER_SECOND + 4 * NANOS_PER_SECOND

  datatype NamedTimeAccelerator = TIMES_1 | TIMES_30 | TIMES_300 | TIMES_3000 | DAY | SIDEREAL_DAY
  {
    /** `getName`: the label shown in the accelerator choice box. */
    function Name(): (r: string)
      ensures |r| > 0
    {
      match this
      case TIMES_1 => "1x"
      case TIMES_30 => "30x"
      case TIMES_300 => "300x"
      case TIMES_3000 => "3000x"
      case DAY => "jour"
      case SIDEREAL_DAY => "jour sidéral"
    }

    /**
     * `getAccelerator`: the four `TIMES_n` values speed time up continuously by `n`; the
     * two day values jump by a day, or a sidereal day, sixty times per real second.
     */
    function Accelerator(): (r: TimeAccelerator)
      ensures r.Continuous? <==> this in {TIMES_1, TIMES_30, TIMES_300, TIMES_3000}
      ensures r.Continuous? ==> r.accFactor > 0 && Name() == NatLabel(r.accFactor) + "x"
      ensures r.Discrete? ==> r.frequency == 60 && r.stepNanos > 0
      ensures this == DAY ==> r.stepNanos == 86_400 * NANOS_PER_SECOND
      ensures this == SIDEREAL_DAY ==> r.stepNanos == 86_164 * NANOS_PER_SECOND
    {
      match this
      case TIMES_1 => Continuous(1)
      case TIMES_30 => Continuous(30)
      case TIMES_300 => Continuous(300)
      case TIMES_3000 => Continuous(3000)
      case DAY => Discrete(60, DAY_STEP)
      case SIDEREAL_DAY => Discrete(60, SIDEREAL_DAY_STEP)
    }

    /** `toString`: the same label as `getName`. */
    function ToString(): (r: string)
      ensures r == Name()
    {
      Name()
    }
  }

  /** The decimal label of the continuous factors. */
  function NatLabel(n: nat): string {
    match n
    case 1 => "1"
    case 30 => "30"
    case 300 => "300"
    case 3000 => "3000"
    case _ => ""
  }

  /** `values()`: the declaration order. */
  const VALUES: seq<NamedTimeAccelerator> := [TIMES_1, TIMES_30, TIMES_300, TIMES_3000, DAY, SIDEREAL_DAY]

  /** Every value is listed exactly once, and no two values share a label. */
  lemma ValuesComplete(n: NamedTimeAccelerator, m: NamedTimeAccelerator)
    ensures |VALUES| == 6 && n in VALUES
    ensures forall i, j :: 0 <= i < j < |VALUES| ==> VALUES[i] != VALUES[j]
    ensures n.Name() == m.Name() ==> n == m
  {
  }
}
