/** The two lazy views of conv_utils.h: `image_tensor` over (channel, row,
    col) storage and `filter_tensor` over (out-channel, in-channel, row, col)
    storage. Each owns its storage, keeps its lineage on the `imgOps` stack,
    and reads an element by resolving the logical coordinate through the
    lineage. The matrix fields (`matRows`, `matCols`, and for the image `fr`,
    `fc`, `fi`, `fo`, `outr`, `outc`) are written by the matrix constructors
    of module Matrices. */
module ConvUtils {
  import opened Tensors
  import opened Lineage

  /** Every Toeplitz (im2col) matrix coordinate lands inside the image: the
      channel is below the channel count and the window position plus the
      offset inside the window stays inside the current rows and columns. */
  lemma ToeplitzInside(r: nat, c: nat, fr: nat, fc: nat, channels: nat, rows: nat, cols: nat, outr: nat, outc: nat)
    requires outr == rows - fr + 1 && outc == cols - fc + 1
    requires r < fr * fc * channels && c < outr * outc
    ensures fr * fc > 0 && fc > 0 && outc > 0
    ensures 0 <= r / (fr * fc) < channels
    ensures 0 <= c / outc + (r % (fr * fc)) / fc < rows
    ensures 0 <= c % outc + (r % (fr * fc)) % fc < cols
  {
    var w := fr * fc;
    PositiveFactors(r, w, channels);
    PositiveFactors(c, outr, outc);
    PositiveFactors(r % w, fr, fc);
    QuotientBelow(r, w, channels);
    QuotientBelow(c, outc, outr);
    QuotientBelow(r % w, fc, fr);
  }

  lemma PositiveFactors(x: nat, a: nat, b: nat)
    requires x < a * b
    ensures a > 0 && b > 0 && a * b > 0
  {
  }

  /** Every coordinate of the flattened filter matrix lands inside the
      filter: the in-channel and the (row, col) inside the current extent. */
  lemma FlattenInside(c: nat, ichannels: nat, ir: nat, ic: nat)
    requires c < ichannels * ir * ic
    ensures ir * ic > 0 && ic > 0
    ensures c / (ir * ic) < ichannels
    ensures (c % (ir * ic)) / ic < ir && (c % (ir * ic)) % ic < ic
  {
    var rc := ir * ic;
    assert ichannels * ir * ic == rc * ichannels;
    QuotientBelow(c, rc, ichannels);
    QuotientBelow(c % rc, ic, ir);
  }

  class ImageTensor {
    const storage: Tensor      // the tensor base object: (channels, rows, cols)
    const rows: nat
    const cols: nat
    const channels: nat
    var imgOps: seq<Step>      // the lineage stack
    var matRows: int
    var matCols: int
    var fr: int                // filter rows, cols, in- and out-channels
    var fc: int
    var fi: int
    var fo: int
    var outr: int              // output rows and cols of the convolution
    var outc: int

    function Base(): Extent
    {
      Extent(rows, cols)
    }

    ghost predicate Valid()
      reads this
    {
      && storage.Valid()
      && storage.shape == [channels, rows, cols]
      && WellFormed(Base(), imgOps)
    }

    constructor (rows: nat, cols: nat, channels: nat := 1)
      ensures Valid() && fresh(storage) && fresh(storage.data)
      ensures this.rows == rows && this.cols == cols && this.channels == channels && imgOps == []
    {
      storage := new Tensor([channels, rows, cols]);
      this.rows := rows;
      this.cols := cols;
      this.channels := channels;
      imgOps := [];
    }

    /** The element at `offset` steps into `lineage`: the fill value, or the
        base element the walk arrives at. The source reads `img_ops`; the
        lineage is a parameter here so that a view can be compared with
        itself before and after a push or an undo. */
    function AtUtil(lineage: seq<Step>, channel: nat, row: nat, col: nat, offset: nat): int
      reads storage.data
      requires storage.Valid() && storage.shape == [channels, rows, cols]
      requires WellFormed(Base(), lineage) && offset <= |lineage| && channel < channels
      requires row < ExtentAfter(Base(), lineage, offset).rows && col < ExtentAfter(Base(), lineage, offset).cols
    {
      match Resolve(Base(), lineage, row, col, offset)
      case Fill => 0
      case Source(r, c) =>
        OffsetInRange([channel, r, c], storage.shape);
        storage.Element([channel, r, c])
    }

    /** The element of the current view. */
    function At(channel: nat, row: nat, col: nat): int
      reads this, storage.data
      requires Valid() && channel < channels && row < GetRows() && col < GetCols()
    {
      AtUtil(imgOps, channel, row, col, |imgOps|)
    }

    /** After a push, an element of the new view is the fill value or the
        element of the view before the push that the new step unwinds to. */
    lemma PushedAt(before: seq<Step>, step: Step, ch: nat, r: nat, c: nat)
      requires storage.Valid() && storage.shape == [channels, rows, cols]
      requires WellFormed(Base(), before) && ValidOp(step.op)
      requires step.result == Apply(Current(Base(), before), step.op)
      requires ch < channels && r < step.result.rows && c < step.result.cols
      ensures WellFormed(Base(), before + [step])
      ensures Unwind(step, r, c).Source? ==>
                Unwind(step, r, c).row < Current(Base(), before).rows &&
                Unwind(step, r, c).col < Current(Base(), before).cols
      ensures AtUtil(before + [step], ch, r, c, |before| + 1) ==
                match Unwind(step, r, c)
                case Fill => 0
                case Source(r0, c0) => AtUtil(before, ch, r0, c0, |before|)
    {
      ResolvePushed(Base(), before, step.op, r, c);
    }

    /** Current number of rows: the extent recorded by the last push, which
        is the extent that replaying the whole lineage gives. */
    function GetRows(): (r: nat)
      reads this
      requires Valid()
    {
      if |imgOps| == 0 then rows else imgOps[|imgOps| - 1].result.rows
    }

    /** Current number of columns. */
    function GetCols(): (r: nat)
      reads this
      requires Valid()
    {
      if |imgOps| == 0 then cols else imgOps[|imgOps| - 1].result.cols
    }

    /** The extent cached by the last push is the one obtained by replaying
        every operation of the lineage on the base extent. */
    lemma ExtentIsReplay()
      requires Valid()
      ensures GetRows() == Replay(Base(), OpsOf(imgOps)).rows
      ensures GetCols() == Replay(Base(), OpsOf(imgOps)).cols
    {
      CachedExtentIsReplay(Base(), imgOps);
    }

    /** Number of channels: the first storage extent, whatever the lineage. */
    function GetChannels(): (r: nat)
      reads this
      requires Valid()
      ensures r == storage.shape[0]
    {
      channels
    }

    method PadImage(left: nat, top: nat, right: nat, bottom: nat)
      requires Valid()
      modifies this`imgOps
      ensures Valid()
      ensures imgOps == old(imgOps) + [Step(Extent(old(GetRows()) + top + bottom, old(GetCols()) + left + right),
                                            PadZero(left, top, right, bottom))]
      ensures forall ch: nat, r: nat, c: nat | ch < channels && r < GetRows() && c < GetCols() ::
                At(ch, r, c) ==
                  if r < top || c < left || r >= GetRows() - bottom || c >= GetCols() - right then 0
                  else old(At(ch, r - top, c - left))
    {
      ghost var before := imgOps;
      var currRows := GetRows();
      var currCols := GetCols();
      var op := PadZero(left, top, right, bottom);
      var step := Step(Extent(currRows + top + bottom, currCols + left + right), op);
      assert step.result == Apply(Current(Base(), before), op);
      imgOps := imgOps + [step];
      WellFormedPush(Base(), before, op);
      forall ch: nat, r: nat, c: nat | ch < channels && r < GetRows() && c < GetCols()
        ensures At(ch, r, c) ==
                  if r < top || c < left || r >= GetRows() - bottom || c >= GetCols() - right then 0
                  else old(At(ch, r - top, c - left))
      {
        PushedAt(before, step, ch, r, c);
      }
    }

    method UpsampleImage(scaleX: int, scaleY: int)
      requires Valid() && scaleX >= 1 && scaleY >= 1
      modifies this`imgOps
      ensures Valid()
      ensures imgOps == old(imgOps) + [Step(Apply(old(Current(Base(), imgOps)), Upsample(scaleX, scaleY)),
                                            Upsample(scaleX, scaleY))]
      ensures GetRows() == old(GetRows()) * scaleY && GetCols() == old(GetCols()) * scaleX
      ensures forall r: nat | r < GetRows() :: r / scaleY < old(GetRows())
      ensures forall c: nat | c < GetCols() :: c / scaleX < old(GetCols())
      ensures forall ch: nat, r: nat, c: nat | ch < channels && r < GetRows() && c < GetCols() ::
                At(ch, r, c) ==
                  if r % scaleY == 0 && c % scaleX == 0 then old(At(ch, r / scaleY, c / scaleX)) else 0
    {
      ghost var before := imgOps;
      var currRows := GetRows();
      var currCols := GetCols();
      var op := Upsample(scaleX, scaleY);
      assert Extent(currRows * scaleY, currCols * scaleX) == Apply(Current(Base(), before), op);
      imgOps := imgOps + [Step(Extent(currRows * scaleY, currCols * scaleX), op)];
      WellFormedPush(Base(), before, op);
      assert WellFormed(Base(), imgOps);
      forall r: nat | r < GetRows() ensures r / scaleY < old(GetRows()) {
        QuotientBelow(r, scaleY, currRows);
      }
      forall c: nat | c < GetCols() ensures c / scaleX < old(GetCols()) {
        QuotientBelow(c, scaleX, currCols);
      }
      forall ch: nat, r: nat, c: nat | ch < channels && r < GetRows() && c < GetCols()
        ensures At(ch, r, c) ==
                  if r % scaleY == 0 && c % scaleX == 0 then old(At(ch, r / scaleY, c / scaleX)) else 0
      {
        ResolvePushed(Base(), before, op, r, c);
      }
    }

    method DownsampleImage(scaleX: int, scaleY: int)
      requires Valid() && scaleX >= 1 && scaleY >= 1
      modifies this`imgOps
      ensures Valid()
      ensures imgOps == old(imgOps) + [Step(Apply(old(Current(Base(), imgOps)), Downsample(scaleX, scaleY)),
                                            Downsample(scaleX, scaleY))]
      ensures GetRows() == old(GetRows()) / scaleY && GetCols() == old(GetCols()) / scaleX
      ensures forall r: nat | r < GetRows() :: 0 <= r * scaleY < old(GetRows())
      ensures forall c: nat | c < GetCols() :: 0 <= c * scaleX < old(GetCols())
      ensures forall ch: nat, r: nat, c: nat | ch < channels && r < GetRows() && c < GetCols() ::
                At(ch, r, c) == old(At(ch, r * scaleY, c * scaleX))
    {
      ghost var before := imgOps;
      var currRows := GetRows();
      var currCols := GetCols();
      var op := Downsample(scaleX, scaleY);
      assert Extent(currRows / scaleY, currCols / scaleX) == Apply(Current(Base(), before), op);
      imgOps := imgOps + [Step(Extent(currRows / scaleY, currCols / scaleX), op)];
      WellFormedPush(Base(), before, op);
      assert WellFormed(Base(), imgOps);
      forall r: nat | r < GetRows() ensures 0 <= r * scaleY < old(GetRows()) {
        ProductBelow(r, scaleY, currRows);
      }
      forall c: nat | c < GetCols() ensures 0 <= c * scaleX < old(GetCols()) {
        ProductBelow(c, scaleX, currCols);
      }
      forall ch: nat, r: nat, c: nat | ch < channels && r < GetRows() && c < GetCols()
        ensures At(ch, r, c) == old(At(ch, r * scaleY, c * scaleX))
      {
        ResolvePushed(Base(), before, op, r, c);
      }
    }

    /** Pops the last lineage entry, if any; the view becomes the one seen
        one step earlier. */
    method UndoOperation()
      requires Valid()
      modifies this`imgOps
      ensures Valid()
      ensures imgOps == if |old(imgOps)| > 0 then old(imgOps)[..|old(imgOps)| - 1] else old(imgOps)
      ensures |old(imgOps)| > 0 ==>
                forall ch: nat, r: nat, c: nat | ch < channels && r < GetRows() && c < GetCols() ::
                  At(ch, r, c) == old(AtUtil(imgOps, ch, r, c, |imgOps| - 1))
    {
      if |imgOps| > 0 {
        var n := |imgOps|;
        WellFormedPrefix(Base(), imgOps, n - 1);
        assert imgOps == imgOps[..n - 1] + [imgOps[n - 1]];
        imgOps := imgOps[..n - 1];
        forall ch: nat, r: nat, c: nat | ch < channels && r < GetRows() && c < GetCols()
          ensures At(ch, r, c) == old(AtUtil(imgOps, ch, r, c, |imgOps| - 1))
        {
          ResolvePrefix(Base(), imgOps, [old(imgOps)[n - 1]], r, c, n - 1);
        }
      }
    }

    /** The matrix fields describe the Toeplitz matrix of this image for a
        filter of fr x fc that fits inside the current extent. */
    ghost predicate ToeplitzReady()
      reads this
    {
      && Valid()
      && fr >= 0 && fc >= 0 && outr >= 0 && outc >= 0
      && outr == GetRows() - fr + 1 && outc == GetCols() - fc + 1
      && matRows == fr * fc * channels && matCols == outr * outc
    }

    /** Toeplitz entry (r, c): row r picks the channel and the offset inside
        the filter window, column c picks the window's origin. */
    function MatValueAt(r: nat, c: nat): int
      reads this, storage.data
      requires ToeplitzReady() && r < matRows && c < matCols
    {
      ToeplitzInside(r, c, fr, fc, channels, GetRows(), GetCols(), outr, outc);
      var channel := r / (fr * fc);
      var inWindow := r % (fr * fc);
      At(channel, c / outc + inWindow / fc, c % outc + inWindow % fc)
    }
  }

  class FilterTensor {
    const storage: Tensor      // the tensor base object: (ochannels, ichannels, irows, icols)
    const irows: nat
    const icols: nat
    const ichannels: nat
    const ochannels: nat
    var imgOps: seq<Step>      // the lineage stack
    var matRows: int
    var matCols: int

    function Base(): Extent
    {
      Extent(irows, icols)
    }

    /** A filter's lineage holds no padding: the filter has no pad operation. */
    ghost predicate Valid()
      reads this
    {
      && storage.Valid()
      && storage.shape == [ochannels, ichannels, irows, icols]
      && WellFormed(Base(), imgOps)
      && NoPad(imgOps)
    }

    constructor (ochannels: nat, ichannels: nat, irows: nat, icols: nat)
      ensures Valid() && fresh(storage) && fresh(storage.data)
      ensures this.ochannels == ochannels && this.ichannels == ichannels
      ensures this.irows == irows && this.icols == icols && imgOps == []
    {
      storage := new Tensor([ochannels, ichannels, irows, icols]);
      this.ochannels := ochannels;
      this.ichannels := ichannels;
      this.irows := irows;
      this.icols := icols;
      imgOps := [];
    }

    /** The element at `offset` steps into `lineage` (see ImageTensor.AtUtil). */
    function AtUtil(lineage: seq<Step>, ochannel: nat, ichannel: nat, row: nat, col: nat, offset: nat): int
      reads storage.data
      requires storage.Valid() && storage.shape == [ochannels, ichannels, irows, icols]
      requires WellFormed(Base(), lineage) && offset <= |lineage|
      requires ochannel < ochannels && ichannel < ichannels
      requires row < ExtentAfter(Base(), lineage, offset).rows && col < ExtentAfter(Base(), lineage, offset).cols
    {
      match Resolve(Base(), lineage, row, col, offset)
      case Fill => 0
      case Source(r, c) =>
        OffsetInRange([ochannel, ichannel, r, c], storage.shape);
        storage.Element([ochannel, ichannel, r, c])
    }

    /** The element of the current view. */
    function At(ochannel: nat, ichannel: nat, row: nat, col: nat): int
      reads this, storage.data
      requires Valid() && ochannel < ochannels && ichannel < ichannels
      requires row < GetIRows() && col < GetICols()
    {
      AtUtil(imgOps, ochannel, ichannel, row, col, |imgOps|)
    }

    /** Current number of rows (see ImageTensor.GetRows). */
    function GetIRows(): (r: nat)
      reads this
      requires Valid()
    {
      if |imgOps| == 0 then irows else imgOps[|imgOps| - 1].result.rows
    }

    /** Current number of columns. */
    function GetICols(): (r: nat)
      reads this
      requires Valid()
    {
      if |imgOps| == 0 then icols else imgOps[|imgOps| - 1].result.cols
    }

    /** The cached extent agrees with a replay (see ImageTensor.ExtentIsReplay). */
    lemma ExtentIsReplay()
      requires Valid()
      ensures GetIRows() == Replay(Base(), OpsOf(imgOps)).rows
      ensures GetICols() == Replay(Base(), OpsOf(imgOps)).cols
    {
      CachedExtentIsReplay(Base(), imgOps);
    }

    /** Number of input channels: the second storage extent, whatever the lineage. */
    function GetIChannels(): (r: nat)
      reads this
      requires Valid()
      ensures r == storage.shape[1]
    {
      ichannels
    }

    /** Number of output channels: the first storage extent, whatever the lineage. */
    function GetOChannels(): (r: nat)
      reads this
      requires Valid()
      ensures r == storage.shape[0]
    {
      ochannels
    }

    method UpsampleFilter(scaleX: int, scaleY: int)
      requires Valid() && scaleX >= 1 && scaleY >= 1
      modifies this`imgOps
      ensures Valid()
      ensures imgOps == old(imgOps) + [Step(Apply(old(Current(Base(), imgOps)), Upsample(scaleX, scaleY)),
                                            Upsample(scaleX, scaleY))]
      ensures GetIRows() == old(GetIRows()) * scaleY && GetICols() == old(GetICols()) * scaleX
      ensures forall r: nat | r < GetIRows() :: r / scaleY < old(GetIRows())
      ensures forall c: nat | c < GetICols() :: c / scaleX < old(GetICols())
      ensures forall o: nat, i: nat, r: nat, c: nat | o < ochannels && i < ichannels && r < GetIRows() && c < GetICols() ::
                At(o, i, r, c) ==
                  if r % scaleY == 0 && c % scaleX == 0 then old(At(o, i, r / scaleY, c / scaleX)) else 0
    {
      ghost var before := imgOps;
      var currRows := GetIRows();
      var currCols := GetICols();
      var op := Upsample(scaleX, scaleY);
      assert Extent(currRows * scaleY, currCols * scaleX) == Apply(Current(Base(), before), op);
      imgOps := imgOps + [Step(Extent(currRows * scaleY, currCols * scaleX), op)];
      WellFormedPush(Base(), before, op);
      assert WellFormed(Base(), imgOps);
      forall r: nat | r < GetIRows() ensures r / scaleY < old(GetIRows()) {
        QuotientBelow(r, scaleY, currRows);
      }
      forall c: nat | c < GetICols() ensures c / scaleX < old(GetICols()) {
        QuotientBelow(c, scaleX, currCols);
      }
      forall o: nat, i: nat, r: nat, c: nat | o < ochannels && i < ichannels && r < GetIRows() && c < GetICols()
        ensures At(o, i, r, c) ==
                  if r % scaleY == 0 && c % scaleX == 0 then old(At(o, i, r / scaleY, c / scaleX)) else 0
      {
        ResolvePushed(Base(), before, op, r, c);
      }
    }

    method DownsampleFilter(scaleX: int, scaleY: int)
      requires Valid() && scaleX >= 1 && scaleY >= 1
      modifies this`imgOps
      ensures Valid()
      ensures imgOps == old(imgOps) + [Step(Apply(old(Current(Base(), imgOps)), Downsample(scaleX, scaleY)),
                                            Downsample(scaleX, scaleY))]
      ensures GetIRows() == old(GetIRows()) / scaleY && GetICols() == old(GetICols()) / scaleX
      ensures forall r: nat | r < GetIRows() :: 0 <= r * scaleY < old(GetIRows())
      ensures forall c: nat | c < GetICols() :: 0 <= c * scaleX < old(GetICols())
      ensures forall o: nat, i: nat, r: nat, c: nat | o < ochannels && i < ichannels && r < GetIRows() && c < GetICols() ::
                At(o, i, r, c) == old(At(o, i, r * scaleY, c * scaleX))
    {
      ghost var before := imgOps;
      var currRows := GetIRows();
      var currCols := GetICols();
      var op := Downsample(scaleX, scaleY);
      assert Extent(currRows / scaleY, currCols / scaleX) == Apply(Current(Base(), before), op);
      imgOps := imgOps + [Step(Extent(currRows / scaleY, currCols / scaleX), op)];
      WellFormedPush(Base(), before, op);
      assert WellFormed(Base(), imgOps);
      forall r: nat | r < GetIRows() ensures 0 <= r * scaleY < old(GetIRows()) {
        ProductBelow(r, scaleY, currRows);
      }
      forall c: nat | c < GetICols() ensures 0 <= c * scaleX < old(GetICols()) {
        ProductBelow(c, scaleX, currCols);
      }
      forall o: nat, i: nat, r: nat, c: nat | o < ochannels && i < ichannels && r < GetIRows() && c < GetICols()
        ensures At(o, i, r, c) == old(At(o, i, r * scaleY, c * scaleX))
      {
        ResolvePushed(Base(), before, op, r, c);
      }
    }

    /** Pops the last lineage entry, if any (see ImageTensor.UndoOperation). */
    method UndoOperation()
      requires Valid()
      modifies this`imgOps
      ensures Valid()
      ensures imgOps == if |old(imgOps)| > 0 then old(imgOps)[..|old(imgOps)| - 1] else old(imgOps)
      ensures |old(imgOps)| > 0 ==>
                forall o: nat, i: nat, r: nat, c: nat | o < ochannels && i < ichannels && r < GetIRows() && c < GetICols() ::
                  At(o, i, r, c) == old(AtUtil(imgOps, o, i, r, c, |imgOps| - 1))
    {
      if |imgOps| > 0 {
        var n := |imgOps|;
        WellFormedPrefix(Base(), imgOps, n - 1);
        assert imgOps == imgOps[..n - 1] + [imgOps[n - 1]];
        imgOps := imgOps[..n - 1];
        forall o: nat, i: nat, r: nat, c: nat | o < ochannels && i < ichannels && r < GetIRows() && c < GetICols()
          ensures At(o, i, r, c) == old(AtUtil(imgOps, o, i, r, c, |imgOps| - 1))
        {
          ResolvePrefix(Base(), imgOps, [old(imgOps)[n - 1]], r, c, n - 1);
        }
      }
    }

    /** The matrix fields describe the flattened filter matrix. */
    ghost predicate FlatReady()
      reads this
    {
      && Valid()
      && matRows == ochannels
      && matCols == ichannels * GetIRows() * GetICols()
    }

    /** Entry (r, c) of the filter flattened row-major: row r is the output
        channel, column c the (in-channel, row, col) triple. */
    function MatValueAt(r: nat, c: nat): int
      reads this, storage.data
      requires FlatReady() && r < matRows && c < matCols
    {
      var ir := GetIRows();
      var ic := GetICols();
      var rc := ir * ic;
      FlattenInside(c, ichannels, ir, ic);
      At(r, c / rc, (c % rc) / ic, (c % rc) % ic)
    }
  }
}
