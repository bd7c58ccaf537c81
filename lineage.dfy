/** The operation lineage of conv_utils.h: the `operation` record, the
    (resulting extent, operation) pairs kept on a view's `img_ops` stack, the
    extent each push records, and the backward walk of `at_util` that turns a
    logical (row, col) into either the fill value or a coordinate of the base
    storage. Channels never take part: every operation acts on rows and
    columns only. */
module Lineage {

  /** `operation`: a zero padding, an upsampling or a downsampling. */
  datatype Operation =
    | PadZero(left: int, top: int, right: int, bottom: int)
    | Upsample(scaleX: int, scaleY: int)
    | Downsample(scaleX: int, scaleY: int)

  /** Margins are never negative and scales are at least 1 (a zero scale
      divides by zero in the source). */
  predicate ValidOp(op: Operation)
  {
    match op
    case PadZero(left, top, right, bottom) => left >= 0 && top >= 0 && right >= 0 && bottom >= 0
    case Upsample(scaleX, scaleY) => scaleX >= 1 && scaleY >= 1
    case Downsample(scaleX, scaleY) => scaleX >= 1 && scaleY >= 1
  }

  /** `rows_cols`. */
  datatype Extent = Extent(rows: nat, cols: nat)

  /** `resultsize_op_pair`: an operation with the extent it produced. */
  datatype Step = Step(result: Extent, op: Operation)

  /** The extent an operation produces from the extent before it; division
      truncates. */
  function Apply(e: Extent, op: Operation): Extent
    requires ValidOp(op)
  {
    match op
    case PadZero(left, top, right, bottom) => Extent(e.rows + top + bottom, e.cols + left + right)
    case Upsample(scaleX, scaleY) => Extent(e.rows * scaleY, e.cols * scaleX)
    case Downsample(scaleX, scaleY) => Extent(e.rows / scaleY, e.cols / scaleX)
  }

  /** The extent after the first k steps: the base extent when k is 0,
      otherwise the extent recorded by step k - 1. */
  function ExtentAfter(base: Extent, steps: seq<Step>, k: nat): Extent
    requires k <= |steps|
  {
    if k == 0 then base else steps[k - 1].result
  }

  /** The current extent of a view (`get_rows`, `get_cols`). */
  function Current(base: Extent, steps: seq<Step>): Extent
  {
    ExtentAfter(base, steps, |steps|)
  }

  /** Every recorded extent is the one its operation produces from the
      extent recorded before it, and every operation is valid. */
  ghost predicate WellFormed(base: Extent, steps: seq<Step>)
  {
    && (forall k: nat | k < |steps| :: ValidOp(steps[k].op))
    && (forall k: nat | k < |steps| :: StepFollows(base, steps, k))
  }

  /** Step k is valid and records the extent its operation produces from
      the extent before it. */
  ghost predicate StepFollows(base: Extent, steps: seq<Step>, k: nat)
    requires k < |steps|
  {
    ValidOp(steps[k].op) && steps[k].result == Apply(ExtentAfter(base, steps, k), steps[k].op)
  }

  /** No step of the lineage is a padding. */
  predicate NoPad(steps: seq<Step>)
  {
    forall k :: 0 <= k < |steps| ==> !steps[k].op.PadZero?
  }

  /** The operations of a lineage, without their cached extents. */
  function OpsOf(steps: seq<Step>): (ops: seq<Operation>)
    ensures |ops| == |steps| && forall k :: 0 <= k < |steps| ==> ops[k] == steps[k].op
  {
    seq(|steps|, k requires 0 <= k < |steps| => steps[k].op)
  }

  /** The extent obtained by applying a list of operations to the base
      extent, computed afresh. */
  function Replay(base: Extent, ops: seq<Operation>): Extent
    requires forall k :: 0 <= k < |ops| ==> ValidOp(ops[k])
  {
    if ops == [] then base else Apply(Replay(base, ops[..|ops| - 1]), ops[|ops| - 1])
  }

  /** The extents cached on the stack agree with replaying its operations. */
  lemma {:induction false} CachedExtentIsReplay(base: Extent, steps: seq<Step>)
    requires WellFormed(base, steps)
    ensures Current(base, steps) == Replay(base, OpsOf(steps))
  {
    if steps != [] {
      var n := |steps|;
      var prefix := steps[..n - 1];
      WellFormedPrefix(base, steps, n - 1);
      CachedExtentIsReplay(base, prefix);
      assert OpsOf(steps)[..n - 1] == OpsOf(prefix);
      assert ExtentAfter(base, steps, n - 1) == Current(base, prefix);
      assert StepFollows(base, steps, n - 1);
    }
  }

  /** A lineage with its last step removed is still well formed. */
  lemma WellFormedPrefix(base: Extent, steps: seq<Step>, n: nat)
    requires WellFormed(base, steps) && n <= |steps|
    ensures WellFormed(base, steps[..n])
  {
    forall k: nat | k < n
      ensures StepFollows(base, steps[..n], k)
    {
      assert StepFollows(base, steps, k);
      assert ExtentAfter(base, steps[..n], k) == ExtentAfter(base, steps, k);
    }
  }

  /** Pushing a step whose extent follows from the current one keeps the
      lineage well formed. */
  lemma WellFormedPush(base: Extent, steps: seq<Step>, op: Operation)
    requires WellFormed(base, steps) && ValidOp(op)
    ensures WellFormed(base, steps + [Step(Apply(Current(base, steps), op), op)])
  {
    var pushed := steps + [Step(Apply(Current(base, steps), op), op)];
    forall k: nat | k < |pushed|
      ensures StepFollows(base, pushed, k)
    {
      assert ExtentAfter(base, pushed, k) == ExtentAfter(base, steps, k);
      if k < |steps| {
        assert StepFollows(base, steps, k);
      }
    }
  }

  /** Where a logical coordinate comes from: the fill value 0, or a
      coordinate one step (or, for Resolve, all steps) earlier. */
  datatype Resolved = Fill | Source(row: nat, col: nat)

  /** One step of `at_util`'s walk, for the step's operation. */
  function Unwind(step: Step, row: nat, col: nat): Resolved
    requires ValidOp(step.op)
  {
    match step.op
    case PadZero(left, top, right, bottom) =>
      if row < top || col < left || row >= step.result.rows - bottom || col >= step.result.cols - right
      then Fill
      else Source(row - top, col - left)
    case Upsample(scaleX, scaleY) =>
      if row % scaleY != 0 || col % scaleX != 0 then Fill else Source(row / scaleY, col / scaleX)
    case Downsample(scaleX, scaleY) =>
      Source(row * scaleY, col * scaleX)
  }

  /** A coordinate inside the extent a step produced unwinds to the fill
      value or to a coordinate inside the extent before the step; a
      downsampling never yields the fill value. */
  lemma UnwindWithin(prev: Extent, step: Step, row: nat, col: nat)
    requires ValidOp(step.op) && step.result == Apply(prev, step.op)
    requires row < step.result.rows && col < step.result.cols
    ensures Unwind(step, row, col).Source? ==>
              Unwind(step, row, col).row < prev.rows && Unwind(step, row, col).col < prev.cols
    ensures step.op.Downsample? ==> Unwind(step, row, col).Source?
  {
    match step.op
    case PadZero(left, top, right, bottom) =>
    case Upsample(scaleX, scaleY) =>
      QuotientBelow(row, scaleY, prev.rows);
      QuotientBelow(col, scaleX, prev.cols);
    case Downsample(scaleX, scaleY) =>
      ProductBelow(row, scaleY, prev.rows);
      ProductBelow(col, scaleX, prev.cols);
  }

  lemma QuotientBelow(x: nat, d: int, n: nat)
    requires d >= 1 && x < n * d
    ensures 0 <= x / d < n && 0 <= x % d < d
  {
  }

  lemma ProductBelow(x: nat, d: int, n: nat)
    requires d >= 1 && x < n / d
    ensures 0 <= x * d < n
  {
    assert x + 1 <= n / d;
    assert (x + 1) * d <= (n / d) * d;
  }

  /** `at_util`'s walk over the first `offset` steps: each step either
      yields the fill value or rewrites the coordinate and hands it to the
      step before; with no step left the coordinate addresses the base
      storage, and it lies inside the base extent. */
  function Resolve(base: Extent, steps: seq<Step>, row: nat, col: nat, offset: nat): (r: Resolved)
    requires WellFormed(base, steps) && offset <= |steps|
    requires row < ExtentAfter(base, steps, offset).rows && col < ExtentAfter(base, steps, offset).cols
    ensures r.Source? ==> r.row < base.rows && r.col < base.cols
    decreases offset
  {
    if offset == 0 then Source(row, col)
    else
      assert StepFollows(base, steps, offset - 1);
      UnwindWithin(ExtentAfter(base, steps, offset - 1), steps[offset - 1], row, col);
      match Unwind(steps[offset - 1], row, col)
      case Fill => Fill
      case Source(r, c) => Resolve(base, steps, r, c, offset - 1)
  }

  /** The walk over the first `offset` steps does not look at the steps
      after them. */
  lemma {:induction false} ResolvePrefix(base: Extent, steps: seq<Step>, more: seq<Step>, row: nat, col: nat, offset: nat)
    requires WellFormed(base, steps) && WellFormed(base, steps + more) && offset <= |steps|
    requires row < ExtentAfter(base, steps, offset).rows && col < ExtentAfter(base, steps, offset).cols
    ensures Resolve(base, steps + more, row, col, offset) == Resolve(base, steps, row, col, offset)
    decreases offset
  {
    if offset > 0 {
      assert (steps + more)[offset - 1] == steps[offset - 1];
      assert StepFollows(base, steps, offset - 1);
      UnwindWithin(ExtentAfter(base, steps, offset - 1), steps[offset - 1], row, col);
      match Unwind(steps[offset - 1], row, col)
      case Fill =>
      case Source(r, c) => ResolvePrefix(base, steps, more, r, c, offset - 1);
    }
  }

  /** After a push, the walk over the whole lineage is one Unwind of the new
      step followed by the walk over the lineage before the push. */
  lemma ResolvePushed(base: Extent, steps: seq<Step>, op: Operation, row: nat, col: nat)
    requires WellFormed(base, steps) && ValidOp(op)
    requires row < Apply(Current(base, steps), op).rows && col < Apply(Current(base, steps), op).cols
    ensures WellFormed(base, steps + [Step(Apply(Current(base, steps), op), op)])
    ensures
      var u := Unwind(Step(Apply(Current(base, steps), op), op), row, col);
      u.Source? ==> u.row < Current(base, steps).rows && u.col < Current(base, steps).cols
    ensures
      var top := Step(Apply(Current(base, steps), op), op);
      var u := Unwind(top, row, col);
      Resolve(base, steps + [top], row, col, |steps| + 1) ==
        if u.Fill? then Fill else Resolve(base, steps, u.row, u.col, |steps|)
  {
    var top := Step(Apply(Current(base, steps), op), op);
    WellFormedPush(base, steps, op);
    UnwindWithin(Current(base, steps), top, row, col);
    match Unwind(top, row, col)
    case Fill =>
    case Source(r, c) => ResolvePrefix(base, steps, [top], r, c, |steps|);
  }
}
