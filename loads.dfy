/**
 * The shape both catalogue loaders share: read the lines one by one, append what each
 * line describes, and stop at the first line whose reading raises. Whatever was
 * appended before that line stays appended.
 */
module LineLoads {
  import opened Wrappers

  /**
   * The whole load as a value: what each line describes, in order, until a line raises,
   * and how the load ends.
   */
  function LoadOf<T>(lines: seq<string>, read: string -> Result<T>): (r: (seq<T>, Outcome))
    ensures |r.0| <= |lines|
  {
    if |lines| == 0 then ([], Pass)
    else
      match read(lines[0])
      case Failure(e) => ([], Fail(e))
      case Success(d) =>
        var rest := LoadOf(lines[1..], read);
        ([d] + rest.0, rest.1)
  }

  /**
   * The load appends what each leading line describes, passes exactly when every line
   * reads, and otherwise ends with the error of the first line that does not.
   */
  lemma {:induction false} LoadOfLines<T>(lines: seq<string>, read: string -> Result<T>)
    ensures var (loaded, outcome) := LoadOf(lines, read);
            && (forall j :: 0 <= j < |loaded| ==> read(lines[j]) == Success(loaded[j]))
            && (outcome.Pass? <==> |loaded| == |lines|)
            && (outcome.Fail? ==> read(lines[|loaded|]) == Failure(outcome.error))
    decreases |lines|
  {
    if |lines| > 0 && read(lines[0]).Success? {
      var d := read(lines[0]).value;
      var tail := lines[1..];
      var rest := LoadOf(tail, read);
      LoadOfLines(tail, read);
      forall j | 1 <= j < 1 + |rest.0|
        ensures read(lines[j]) == Success(([d] + rest.0)[j])
      {
        assert lines[j] == tail[j - 1];
      }
      if rest.1.Fail? {
        assert lines[1 + |rest.0|] == tail[|rest.0|];
      }
    }
  }

  /** The `k`-th value the load appends is what line `k` reads as. */
  lemma LoadOfAt<T>(lines: seq<string>, read: string -> Result<T>, k: int)
    requires 0 <= k < |LoadOf(lines, read).0|
    ensures read(lines[k]) == Success(LoadOf(lines, read).0[k])
  {
    LoadOfLines(lines, read);
  }

  /** The load from line `i` on: that line's value then the rest, or that line's error. */
  lemma LoadOfFrom<T>(lines: seq<string>, i: int, read: string -> Result<T>)
    requires 0 <= i < |lines|
    ensures read(lines[i]).Failure? ==> LoadOf(lines[i..], read) == ([], Fail(read(lines[i]).error))
    ensures read(lines[i]).Success? ==>
              && LoadOf(lines[i..], read).0 == [read(lines[i]).value] + LoadOf(lines[i + 1..], read).0
              && LoadOf(lines[i..], read).1 == LoadOf(lines[i + 1..], read).1
  {
    assert lines[i..][1..] == lines[i + 1..];
  }

  /** A load from a line that raises appends nothing and ends with that line's error. */
  lemma LoadOfFail<T>(lines: seq<string>, i: int, read: string -> Result<T>, e: Error)
    requires 0 <= i < |lines| && read(lines[i]) == Failure(e)
    ensures LoadOf(lines[i..], read) == ([], Fail(e))
  {
    LoadOfFrom(lines, i, read);
  }

  /** A load over no lines appends nothing and passes. */
  lemma LoadOfDone<T>(lines: seq<string>, read: string -> Result<T>)
    ensures LoadOf(lines[|lines|..], read) == ([], Pass)
  {
    assert lines[|lines|..] == [];
  }

  lemma AppendAssociative<T>(a: seq<T>, b: seq<T>, c: seq<T>)
    ensures a + (b + c) == (a + b) + c
  {
  }

  /**
   * The bookkeeping of one appended value: if `done` was the loaded prefix before line `i`,
   * then `done + [v]` is the loaded prefix before line `i + 1`.
   */
  lemma LoadOfStep<T>(spec: seq<T>, done: seq<T>, v: T, lines: seq<string>, i: int, read: string -> Result<T>)
    requires 0 <= i < |lines| && read(lines[i]) == Success(v)
    requires spec == done + LoadOf(lines[i..], read).0
    ensures spec == (done + [v]) + LoadOf(lines[i + 1..], read).0
    ensures LoadOf(lines[i..], read).1 == LoadOf(lines[i + 1..], read).1
  {
    LoadOfFrom(lines, i, read);
    AppendAssociative(done, [v], LoadOf(lines[i + 1..], read).0);
  }
}
