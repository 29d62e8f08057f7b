/** Folding a per-line count over the lines of a response: the total of the counts, or the
    exception of the first line that raises one. */
module LineFold {
  import opened Results
  import Int32

  /** `x + y` where either may be an exception; the left one is raised first. */
  function AddResults(x: Result<nat>, y: Result<nat>): Result<nat> {
    match x
    case Err(e) => Err(e)
    case Ok(m) => (match y case Err(e) => Err(e) case Ok(n) => Ok(m + n))
  }

  lemma AddResultsZero(x: Result<nat>)
    ensures AddResults(Ok(0), x) == x
  {
  }

  lemma AddResultsAssoc(x: Result<nat>, y: Result<nat>, z: Result<nat>)
    ensures AddResults(x, AddResults(y, z)) == AddResults(AddResults(x, y), z)
  {
  }

  /** A left fold of `step` over the lines in unbounded arithmetic: the first exception
      aborts it, and it has no other way to stop early. */
  function Fold(step: string -> Result<Int32.count32>, lines: seq<string>): (r: Result<nat>)
    ensures lines == [] ==> r == Ok(0)
    ensures lines != [] && step(lines[0]).Err? ==> r == Err(step(lines[0]).error)
    ensures lines != [] && r.Ok? ==> step(lines[0]).Ok? && step(lines[0]).value <= r.value
  {
    if lines == [] then Ok(0)
    else AddResults(match step(lines[0]) case Ok(n) => Ok(n) case Err(e) => Err(e), Fold(step, lines[1..]))
  }

  /** The fold is additive over concatenation of line sequences. */
  lemma {:induction false} FoldAppend(step: string -> Result<Int32.count32>, a: seq<string>, b: seq<string>)
    ensures Fold(step, a + b) == AddResults(Fold(step, a), Fold(step, b))
  {
    if a == [] {
      assert a + b == b;
      AddResultsZero(Fold(step, b));
    } else {
      assert (a + b)[1..] == a[1..] + b;
      FoldAppend(step, a[1..], b);
      var head: Result<nat> := match step(a[0]) case Ok(n) => Ok(n) case Err(e) => Err(e);
      AddResultsAssoc(head, Fold(step, a[1..]), Fold(step, b));
    }
  }

  /** The running total never decreases: a successful fold over `a + b` has already
      succeeded over `a`, with a total no larger. */
  lemma FoldMonotone(step: string -> Result<Int32.count32>, a: seq<string>, b: seq<string>)
    requires Fold(step, a + b).Ok?
    ensures Fold(step, a).Ok? && Fold(step, a).value <= Fold(step, a + b).value
  {
    FoldAppend(step, a, b);
  }

  /** A line that raises makes the whole fold raise: once the lines before it have been
      folded, the fold ends with that line's exception whatever follows. */
  lemma FoldFails(step: string -> Result<Int32.count32>, lines: seq<string>, i: nat, e: Error)
    requires i < |lines|
    requires Fold(step, lines[..i]).Ok?
    requires step(lines[i]) == Err(e)
    ensures Fold(step, lines) == Err(e)
  {
    var rest := lines[i..];
    assert lines == lines[..i] + rest;
    FoldAppend(step, lines[..i], rest);
    assert rest[0] == lines[i];
  }

  /** Folding one more line that counts `n` adds `n` to the total. */
  lemma FoldStep(step: string -> Result<Int32.count32>, lines: seq<string>, i: nat, t: nat, n: Int32.count32)
    requires i < |lines|
    requires Fold(step, lines[..i]) == Ok(t)
    requires step(lines[i]) == Ok(n)
    ensures Fold(step, lines[..i + 1]) == Ok(t + n)
  {
    assert lines[..i + 1] == lines[..i] + [lines[i]];
    FoldAppend(step, lines[..i], [lines[i]]);
    assert [lines[i]][1..] == [];
  }

  /** Every line of a successful fold was counted without an exception. */
  lemma FoldSucceeds(step: string -> Result<Int32.count32>, lines: seq<string>, i: nat)
    requires i < |lines|
    requires Fold(step, lines).Ok?
    ensures step(lines[i]).Ok?
  {
    assert lines == lines[..i] + lines[i..];
    FoldAppend(step, lines[..i], lines[i..]);
    assert lines[i..][0] == lines[i];
  }

  function Sum(counts: seq<nat>): nat {
    if counts == [] then 0 else counts[0] + Sum(counts[1..])
  }

  /** When no line raises, the fold is the plain sum of what the lines count. */
  lemma {:induction false} FoldAllOk(step: string -> Result<Int32.count32>, lines: seq<string>, counts: seq<nat>)
    requires |counts| == |lines|
    requires forall i :: 0 <= i < |lines| ==> step(lines[i]) == Ok(counts[i])
    ensures Fold(step, lines) == Ok(Sum(counts))
  {
    if lines != [] {
      FoldAllOk(step, lines[1..], counts[1..]);
    }
  }

  /** The loop that adds up the lines: the count is kept in an Int32 and `+=` wraps, the
      first line whose step raises aborts the loop with that exception. */
  method CountLines(step: string -> Result<Int32.count32>, lines: seq<string>) returns (r: Result<Int32.int32>)
    ensures r == (match Fold(step, lines) case Ok(total) => Ok(Int32.Wrap(total)) case Err(e) => Err(e))
  {
    var count: Int32.int32 := 0;
    ghost var total: nat := 0;
    var i := 0;
    while i < |lines|
      invariant 0 <= i <= |lines|
      invariant Fold(step, lines[..i]) == Ok(total)
      invariant count == Int32.Wrap(total)
    {
      var frame := step(lines[i]);
      if frame.Err? {
        FoldFails(step, lines, i, frame.error);
        return Err(frame.error);
      }
      var n := frame.value;
      FoldStep(step, lines, i, total, n);
      Int32.WrapAdd(total, n);
      count := Int32.Wrap(count + n);
      total := total + n;
      i := i + 1;
    }
    assert lines[..i] == lines;
    return Ok(count);
  }
}
