/** The two example sequences of main.cpp, stated and proved on the model:
    a filter whose view is blown up twice and shrunk back, and an image
    whose view is padded, resampled and then unwound with `undo_operation`. */
module Driver {
  import opened Tensors
  import opened Lineage
  import opened ConvUtils

  /** Row-major strides of a (3, 2, 3, 3) tensor. */
  lemma FilterStrides()
    ensures Strides([3, 2, 3, 3]) == [18, 9, 3, 1]
  {
    var shape: seq<nat> := [3, 2, 3, 3];
    assert shape[1..] == [2, 3, 3] && shape[2..] == [3, 3] && shape[3..] == [3] && shape[4..] == [];
    assert Product([3]) == 3;
    assert Product([3, 3]) == 9;
    assert Product([2, 3, 3]) == 18;
    var s := Strides(shape);
    assert s[0] == 18 && s[1] == 9 && s[2] == 3 && s[3] == 1;
  }

  /** Offset of an element of a (3, 2, 3, 3) tensor under those strides. */
  lemma FilterOffset(o: nat, i: nat, r: nat, c: nat)
    ensures Offset([o, i, r, c], [18, 9, 3, 1]) == 18 * o + 9 * i + 3 * r + c
  {
    var idx, st := [o, i, r, c], [18, 9, 3, 1];
    assert idx[1..] == [i, r, c] && st[1..] == [9, 3, 1];
    assert idx[1..][1..] == [r, c] && st[1..][1..] == [3, 1];
    assert idx[1..][1..][1..] == [c] && st[1..][1..][1..] == [1];
    assert Offset([c], [1]) == c;
    assert Offset([r, c], [3, 1]) == 3 * r + c;
    assert Offset([i, r, c], [9, 3, 1]) == 9 * i + 3 * r + c;
  }

  /** Row-major layout of a (2, 5, 5) tensor. */
  lemma ImageLayout(ch: nat, r: nat, c: nat)
    ensures Strides([2, 5, 5]) == [25, 5, 1]
    ensures Offset([ch, r, c], [25, 5, 1]) == 25 * ch + 5 * r + c
  {
    var shape: seq<nat> := [2, 5, 5];
    assert shape[1..] == [5, 5] && shape[2..] == [5] && shape[3..] == [];
    assert Product([5]) == 5;
    assert Product([5, 5]) == 25;
    var s := Strides(shape);
    assert s[0] == 25 && s[1] == 5 && s[2] == 1;
    var idx, st := [ch, r, c], [25, 5, 1];
    assert idx[1..] == [r, c] && st[1..] == [5, 1];
    assert idx[1..][1..] == [c] && st[1..][1..] == [1];
    assert Offset([c], [1]) == c;
  }

  /** Any push followed by `undo_operation` restores the lineage, the
      extent and every element of an image view. */
  method PushThenUndo(img: ImageTensor, op: Operation)
    requires img.Valid() && ValidOp(op)
    modifies img`imgOps
    ensures img.Valid() && img.imgOps == old(img.imgOps)
    ensures img.GetRows() == old(img.GetRows()) && img.GetCols() == old(img.GetCols())
    ensures forall ch: nat, r: nat, c: nat | ch < img.channels && r < img.GetRows() && c < img.GetCols() ::
              img.At(ch, r, c) == old(img.At(ch, r, c))
  {
    match op {
      case PadZero(left, top, right, bottom) => img.PadImage(left, top, right, bottom);
      case Upsample(scaleX, scaleY) => img.UpsampleImage(scaleX, scaleY);
      case Downsample(scaleX, scaleY) => img.DownsampleImage(scaleX, scaleY);
    }
    img.UndoOperation();
  }

  /** The same for a filter view, whose operations are the two resamplings. */
  method PushThenUndoFilter(f: FilterTensor, op: Operation)
    requires f.Valid() && ValidOp(op) && !op.PadZero?
    modifies f`imgOps
    ensures f.Valid() && f.imgOps == old(f.imgOps)
    ensures f.GetIRows() == old(f.GetIRows()) && f.GetICols() == old(f.GetICols())
    ensures forall o: nat, i: nat, r: nat, c: nat | o < f.ochannels && i < f.ichannels && r < f.GetIRows() && c < f.GetICols() ::
              f.At(o, i, r, c) == old(f.At(o, i, r, c))
  {
    if op.Upsample? {
      f.UpsampleFilter(op.scaleX, op.scaleY);
    } else {
      f.DownsampleFilter(op.scaleX, op.scaleY);
    }
    f.UndoOperation();
  }

  /** A sequentially initialised (3 out, 2 in, 3 x 3) filter reads
      18 * o + 9 * i + 3 * r + c at every position. */
  method SequentialFilter() returns (f: FilterTensor)
    ensures fresh(f) && f.Valid() && f.imgOps == [] && f.ochannels == 3 && f.ichannels == 2
    ensures f.GetIRows() == 3 && f.GetICols() == 3
    ensures forall o: nat, i: nat, r: nat, c: nat | o < 3 && i < 2 && r < 3 && c < 3 ::
              f.At(o, i, r, c) == 18 * o + 9 * i + 3 * r + c
  {
    f := new FilterTensor(3, 2, 3, 3);
    f.storage.Initialize(Sequential, 0, []);
    forall o: nat, i: nat, r: nat, c: nat | o < 3 && i < 2 && r < 3 && c < 3
      ensures f.At(o, i, r, c) == 18 * o + 9 * i + 3 * r + c
    {
      FilterStrides();
      FilterOffset(o, i, r, c);
    }
  }

  /** A multiple of four halves twice into its quarter. */
  lemma Halves(x: nat)
    requires x % 4 == 0
    ensures x % 2 == 0 && (x / 2) % 2 == 0 && (x / 2) / 2 == x / 4
  {
    var q := x / 4;
    assert x == 4 * q;
    assert x / 2 == 2 * q;
  }

  /** The first upsampling of the filter sequence of main.cpp: the 3 x 3
      view becomes 6 x 6, with the original elements at even positions. */
  method UpsampledFilter() returns (f: FilterTensor)
    ensures fresh(f) && f.Valid() && |f.imgOps| == 1 && f.ochannels == 3 && f.ichannels == 2
    ensures f.GetIRows() == 6 && f.GetICols() == 6
    ensures forall o: nat, i: nat, r: nat, c: nat | o < 3 && i < 2 && r < 6 && c < 6 && r % 2 == 0 && c % 2 == 0 ::
              f.At(o, i, r, c) == 18 * o + 9 * i + 3 * (r / 2) + c / 2
  {
    f := SequentialFilter();
    f.UpsampleFilter(2, 2);
  }

  /** The second upsampling: 12 x 12, with the original elements at the
      positions that are multiples of four. */
  method BlownUpFilter() returns (f: FilterTensor)
    ensures fresh(f) && f.Valid() && |f.imgOps| == 2 && f.ochannels == 3 && f.ichannels == 2
    ensures f.GetIRows() == 12 && f.GetICols() == 12
    ensures forall o: nat, i: nat, r: nat, c: nat | o < 3 && i < 2 && r < 12 && c < 12 && r % 4 == 0 && c % 4 == 0 ::
              f.At(o, i, r, c) == 18 * o + 9 * i + 3 * (r / 4) + c / 4
  {
    f := UpsampledFilter();
    label Once:
    f.UpsampleFilter(2, 2);
    forall o: nat, i: nat, r: nat, c: nat | o < 3 && i < 2 && r < 12 && c < 12 && r % 4 == 0 && c % 4 == 0
      ensures f.At(o, i, r, c) == 18 * o + 9 * i + 3 * (r / 4) + c / 4
    {
      Halves(r);
      Halves(c);
      var h, w := r / 2, c / 2;
      assert f.At(o, i, r, c) == old@Once(f.At(o, i, h, w));
    }
  }

  /** The filter sequence of main.cpp: upsampling by (2, 2) twice and then
      downsampling by (4, 4) brings the 3 x 3 filter view back to 3 x 3,
      with every element equal to the original one. */
  method FilterScenario() returns (f: FilterTensor)
    ensures f.Valid() && |f.imgOps| == 3 && f.ochannels == 3 && f.ichannels == 2
    ensures f.GetIRows() == 3 && f.GetICols() == 3
    ensures forall o: nat, i: nat, r: nat, c: nat | o < 3 && i < 2 && r < 3 && c < 3 ::
              f.At(o, i, r, c) == 18 * o + 9 * i + 3 * r + c
  {
    f := BlownUpFilter();
    label Twice:
    f.DownsampleFilter(4, 4);
    forall o: nat, i: nat, r: nat, c: nat | o < 3 && i < 2 && r < 3 && c < 3
      ensures f.At(o, i, r, c) == 18 * o + 9 * i + 3 * r + c
    {
      var h, w := r * 4, c * 4;
      assert h % 4 == 0 && w % 4 == 0 && h / 4 == r && w / 4 == c;
      assert f.At(o, i, r, c) == old@Twice(f.At(o, i, h, w));
    }
  }

  /** A sequentially initialised 2-channel 5 x 5 image reads
      25 * ch + 5 * r + c at every position. */
  method SequentialImage() returns (img: ImageTensor)
    ensures fresh(img) && img.Valid() && img.imgOps == [] && img.channels == 2
    ensures img.GetRows() == 5 && img.GetCols() == 5
    ensures forall ch: nat, r: nat, c: nat | ch < 2 && r < 5 && c < 5 ::
              img.At(ch, r, c) == 25 * ch + 5 * r + c
  {
    img := new ImageTensor(5, 5, 2);
    img.storage.Initialize(Sequential, 0, []);
    forall ch: nat, r: nat, c: nat | ch < 2 && r < 5 && c < 5
      ensures img.At(ch, r, c) == 25 * ch + 5 * r + c
    {
      ImageLayout(ch, r, c);
    }
  }

  /** The element of the padded 7 x 7 view of the sequential image: zero
      on the one-element border, the original element inside it. */
  function Padded(ch: nat, r: nat, c: nat): int
  {
    if r == 0 || c == 0 || r == 6 || c == 6 then 0 else 25 * ch + 5 * (r - 1) + (c - 1)
  }

  /** The lineage entries main.cpp pushes on the image, in order. */
  const PadStep := Step(Extent(7, 7), PadZero(1, 1, 1, 1))
  const UpStep := Step(Extent(14, 14), Upsample(2, 2))
  const DownStep := Step(Extent(7, 7), Downsample(2, 2))

  /** Padding the sequential 5 x 5 image by one on every side gives a 7 x 7
      view with a zero border around the original elements. */
  method PadSequential(img: ImageTensor)
    requires img.Valid() && img.imgOps == [] && img.channels == 2 && img.GetRows() == 5 && img.GetCols() == 5
    requires forall ch: nat, r: nat, c: nat | ch < 2 && r < 5 && c < 5 :: img.At(ch, r, c) == 25 * ch + 5 * r + c
    modifies img`imgOps
    ensures img.Valid() && img.imgOps == [PadStep] && img.GetRows() == 7 && img.GetCols() == 7
    ensures forall ch: nat, r: nat, c: nat | ch < 2 && r < 7 && c < 7 :: img.At(ch, r, c) == Padded(ch, r, c)
  {
    img.PadImage(1, 1, 1, 1);
  }

  /** Upsampling the padded view by (2, 2) gives a 14 x 14 view: the padded
      element at even positions, zero everywhere else. */
  method UpsamplePadded(img: ImageTensor)
    requires img.Valid() && img.imgOps == [PadStep] && img.channels == 2 && img.GetRows() == 7 && img.GetCols() == 7
    requires forall ch: nat, r: nat, c: nat | ch < 2 && r < 7 && c < 7 :: img.At(ch, r, c) == Padded(ch, r, c)
    modifies img`imgOps
    ensures img.Valid() && img.imgOps == [PadStep, UpStep] && img.GetRows() == 14 && img.GetCols() == 14
    ensures forall ch: nat, r: nat, c: nat | ch < 2 && r < 14 && c < 14 ::
              img.At(ch, r, c) == if r % 2 == 0 && c % 2 == 0 then Padded(ch, r / 2, c / 2) else 0
  {
    img.UpsampleImage(2, 2);
  }

  /** Downsampling the 14 x 14 view by (2, 2) keeps its even positions:
      the padded 7 x 7 view again. */
  method DownsampleUpsampled(img: ImageTensor)
    requires img.Valid() && img.imgOps == [PadStep, UpStep] && img.channels == 2
    requires img.GetRows() == 14 && img.GetCols() == 14
    requires forall ch: nat, r: nat, c: nat | ch < 2 && r < 14 && c < 14 ::
               img.At(ch, r, c) == if r % 2 == 0 && c % 2 == 0 then Padded(ch, r / 2, c / 2) else 0
    modifies img`imgOps
    ensures img.Valid() && img.imgOps == [PadStep, UpStep, DownStep] && img.GetRows() == 7 && img.GetCols() == 7
    ensures forall ch: nat, r: nat, c: nat | ch < 2 && r < 7 && c < 7 :: img.At(ch, r, c) == Padded(ch, r, c)
  {
    label Upsampled:
    img.DownsampleImage(2, 2);
    forall ch: nat, r: nat, c: nat | ch < 2 && r < 7 && c < 7
      ensures img.At(ch, r, c) == Padded(ch, r, c)
    {
      var h, w := r * 2, c * 2;
      assert h % 2 == 0 && w % 2 == 0 && h / 2 == r && w / 2 == c;
      assert img.At(ch, r, c) == old@Upsampled(img.At(ch, h, w));
    }
  }

  /** The first three image operations of main.cpp: padding by one on
      every side (7 x 7), upsampling by (2, 2) (14 x 14) and downsampling
      by (2, 2) leave a 7 x 7 view showing the padded image. */
  method PadAndResample(img: ImageTensor)
    requires img.Valid() && img.imgOps == [] && img.channels == 2 && img.GetRows() == 5 && img.GetCols() == 5
    requires forall ch: nat, r: nat, c: nat | ch < 2 && r < 5 && c < 5 :: img.At(ch, r, c) == 25 * ch + 5 * r + c
    modifies img`imgOps
    ensures img.Valid() && img.imgOps == [PadStep, UpStep, DownStep] && img.GetRows() == 7 && img.GetCols() == 7
    ensures forall ch: nat, r: nat, c: nat | ch < 2 && r < 7 && c < 7 :: img.At(ch, r, c) == Padded(ch, r, c)
  {
    PadSequential(img);
    UpsamplePadded(img);
    DownsampleUpsampled(img);
  }

  /** The image sequence of main.cpp: after padding and resampling, three
      undos return to the 5 x 5 view with its original elements. */
  method ImageScenario() returns (img: ImageTensor)
    ensures img.Valid() && img.imgOps == [] && img.channels == 2
    ensures img.GetRows() == 5 && img.GetCols() == 5
    ensures forall ch: nat, r: nat, c: nat | ch < 2 && r < 5 && c < 5 ::
              img.At(ch, r, c) == 25 * ch + 5 * r + c
  {
    img := SequentialImage();
    PadAndResample(img);
    img.UndoOperation();
    assert img.GetRows() == 14 && img.GetCols() == 14;
    img.UndoOperation();
    assert img.GetRows() == 7 && img.GetCols() == 7;
    img.UndoOperation();
  }
}
