/** Why multiplying the flattened filter by the Toeplitz matrix of the image
    convolves them: entry (o, outc * oi + oj) of the product is the
    cross-correlation of filter o with the window of the image whose origin
    is (oi, oj), summed over the input channels, with no kernel flip. */
module Convolution {
  import opened Tensors
  import opened Lineage
  import opened ConvUtils
  import opened Matrices

  /** The filter window placed at (oi, oj) lies inside the current image,
      and the filter's in-channels are the image's channels. */
  ghost predicate WindowFits(f: FilterTensor, img: ImageTensor, oi: nat, oj: nat)
    reads f, img
  {
    && f.Valid() && img.Valid() && f.ichannels == img.channels
    && oi + f.GetIRows() <= img.GetRows() && oj + f.GetICols() <= img.GetCols()
  }

  /** Σ_{j<n} f(o, ch, i, j) * img(ch, oi + i, oj + j): one filter row. */
  function RowSum(f: FilterTensor, img: ImageTensor, o: nat, ch: nat, i: nat, oi: nat, oj: nat, n: nat): int
    reads f, f.storage.data, img, img.storage.data
    requires WindowFits(f, img, oi, oj) && o < f.ochannels && ch < f.ichannels
    requires i < f.GetIRows() && n <= f.GetICols()
  {
    if n == 0 then 0
    else RowSum(f, img, o, ch, i, oi, oj, n - 1) + f.At(o, ch, i, n - 1) * img.At(ch, oi + i, oj + n - 1)
  }

  /** Σ_{i<m} Σ_{j<fc} f(o, ch, i, j) * img(ch, oi + i, oj + j): the first m
      filter rows of one channel. */
  function WindowSum(f: FilterTensor, img: ImageTensor, o: nat, ch: nat, oi: nat, oj: nat, m: nat): int
    reads f, f.storage.data, img, img.storage.data
    requires WindowFits(f, img, oi, oj) && o < f.ochannels && ch < f.ichannels && m <= f.GetIRows()
  {
    if m == 0 then 0
    else WindowSum(f, img, o, ch, oi, oj, m - 1) + RowSum(f, img, o, ch, m - 1, oi, oj, f.GetICols())
  }

  /** Σ_{ch<c} Σ_{i<fr} Σ_{j<fc} f(o, ch, i, j) * img(ch, oi + i, oj + j): the
      cross-correlation of filter o with the window at (oi, oj), over the
      first c channels. */
  function CrossCorrelation(f: FilterTensor, img: ImageTensor, o: nat, oi: nat, oj: nat, c: nat): int
    reads f, f.storage.data, img, img.storage.data
    requires WindowFits(f, img, oi, oj) && o < f.ochannels && c <= f.ichannels
  {
    if c == 0 then 0
    else CrossCorrelation(f, img, o, oi, oj, c - 1) + WindowSum(f, img, o, c - 1, oi, oj, f.GetIRows())
  }

  /** q * p + r, for r < p and q < n, is a slot below n * p that splits back
      into q and r. */
  lemma SplitIndex(q: nat, r: nat, p: nat, n: nat)
    requires r < p && q < n
    ensures 0 <= q * p + r < n * p && q * p + r < p * n && p * q + r < p * n
    ensures (q * p + r) / p == q && (q * p + r) % p == r
    ensures (p * q + r) / p == q && (p * q + r) % p == r
  {
    MulBelow(q, r, p, n);
    assert p * q == q * p && p * n == n * p;
    var x: nat := q * p + r;
    var d: nat, m: nat := x / p, x % p;
    assert x == d * p + m && m < p;
    DivUnique(d, m, q, r, p);
  }

  lemma Assoc(a: nat, b: nat, c: nat)
    ensures a * b * c == a * (b * c) && a * b * c == b * c * a
  {
  }

  /** Entry (o, ch * (ir * ic) + i * ic + j) of the flattened filter is the
      filter element (o, ch, i, j). */
  lemma FilterEntry(f: FilterTensor, A: seq<seq<int>>, o: nat, ch: nat, i: nat, j: nat)
    requires FilterMatrix(f).Denotes(A)
    requires o < f.ochannels && ch < f.ichannels && i < f.GetIRows() && j < f.GetICols()
    ensures o < |A| && 0 <= ch * (f.GetIRows() * f.GetICols()) + (i * f.GetICols() + j) < |A[o]|
    ensures A[o][ch * (f.GetIRows() * f.GetICols()) + (i * f.GetICols() + j)] == f.At(o, ch, i, j)
  {
    var ir, ic := f.GetIRows(), f.GetICols();
    var w := ir * ic;
    SplitIndex(i, j, ic, ir);
    SplitIndex(ch, i * ic + j, w, f.ichannels);
    Assoc(f.ichannels, ir, ic);
    var k := ch * w + (i * ic + j);
    assert A[o][k] == FilterMatrix(f).MatAt(o, k);
  }

  /** Entry (ch * (fr * fc) + i * fc + j, outc * oi + oj) of the Toeplitz
      matrix is the image element (ch, oi + i, oj + j). */
  lemma ToeplitzEntry(img: ImageTensor, B: seq<seq<int>>, ch: nat, i: nat, j: nat, oi: nat, oj: nat)
    requires ImageMatrix(img).Denotes(B)
    requires ch < img.channels && i < img.fr && j < img.fc && oi < img.outr && oj < img.outc
    ensures 0 <= ch * (img.fr * img.fc) + (i * img.fc + j) < |B|
    ensures 0 <= img.outc * oi + oj < |B[ch * (img.fr * img.fc) + (i * img.fc + j)]|
    ensures oi + i < img.GetRows() && oj + j < img.GetCols()
    ensures B[ch * (img.fr * img.fc) + (i * img.fc + j)][img.outc * oi + oj] == img.At(ch, oi + i, oj + j)
  {
    var fr: nat, fc: nat, outr: nat, outc: nat := img.fr, img.fc, img.outr, img.outc;
    var w := fr * fc;
    SplitIndex(i, j, fc, fr);
    SplitIndex(ch, i * fc + j, w, img.channels);
    SplitIndex(oi, oj, outc, outr);
    var r := ch * w + (i * fc + j);
    var c := outc * oi + oj;
    assert B[r][c] == ImageMatrix(img).MatAt(r, c);
  }

  /** The convolution setting: A and B are the flattened filter and the
      Toeplitz matrix of the image built for that filter, whose in-channels
      are the image's channels. */
  ghost predicate ConvSetting(f: FilterTensor, img: ImageTensor, A: seq<seq<int>>, B: seq<seq<int>>)
    reads f, f.storage.data, img, img.storage.data
  {
    && FilterMatrix(f).Denotes(A) && ImageMatrix(img).Denotes(B)
    && img.fr == f.GetIRows() && img.fc == f.GetICols() && img.channels == f.ichannels
  }

  /** In the convolution setting, for output channel o and output position
      (oi, oj): the filter row of A and the columns of B have the shared
      inner dimension, column outc * oi + oj exists in every row of B, and
      the window at (oi, oj) fits inside the image. */
  ghost predicate Aligned(f: FilterTensor, img: ImageTensor, A: seq<seq<int>>, B: seq<seq<int>>,
                          o: nat, oi: nat, oj: nat, col: nat)
    reads f, f.storage.data, img, img.storage.data
  {
    && ConvSetting(f, img, A, B)
    && o < f.ochannels && oi < img.outr && oj < img.outc && col == img.outc * oi + oj
    && o < |A| && |A[o]| == |B| == f.ichannels * (img.fr * img.fc)
    && (forall k :: 0 <= k < |B| ==> col < |B[k]|)
    && WindowFits(f, img, oi, oj)
  }

  lemma SettingAligned(f: FilterTensor, img: ImageTensor, A: seq<seq<int>>, B: seq<seq<int>>,
                       o: nat, oi: nat, oj: nat, col: nat)
    requires ConvSetting(f, img, A, B) && o < f.ochannels && oi < img.outr && oj < img.outc
    requires col == img.outc * oi + oj
    ensures Aligned(f, img, A, B, o, oi, oj, col)
  {
    var fr: nat, fc: nat, outr: nat, outc: nat := img.fr, img.fc, img.outr, img.outc;
    Assoc(f.ichannels, fr, fc);
    SplitIndex(oi, oj, outc, outr);
  }

  /** Filter row i of channel ch starts at ch * (fr * fc) + i * fc, and
      its first n terms stay inside the inner dimension. */
  lemma RowBase(ch: nat, i: nat, n: nat, channels: nat, fr: nat, fc: nat)
    requires ch < channels && i < fr && n <= fc
    ensures ch * (fr * fc) >= 0 && i * fc >= 0
    ensures ch * (fr * fc) + i * fc + n <= channels * (fr * fc)
    ensures ch * (fr * fc) + i * fc + fc == ch * (fr * fc) + (i + 1) * fc
  {
    assert i * fc + n <= (i + 1) * fc <= fr * fc;
    assert ch * (fr * fc) + fr * fc == (ch + 1) * (fr * fc) <= channels * (fr * fc);
  }

  /** Dot-product terms base + j for j < n, where base = ch * (fr * fc) +
      i * fc, are the products along filter row i of channel ch. */
  lemma {:induction false} DotRow(f: FilterTensor, img: ImageTensor, A: seq<seq<int>>, B: seq<seq<int>>,
                                  o: nat, oi: nat, oj: nat, col: nat, ch: nat, i: nat, base: nat, n: nat)
    requires Aligned(f, img, A, B, o, oi, oj, col)
    requires ch < f.ichannels && i < f.GetIRows() && n <= f.GetICols()
    requires base == ch * (img.fr * img.fc) + i * img.fc
    ensures base + n <= |B|
    ensures Dot(A, B, o, col, base + n) ==
              Dot(A, B, o, col, base) + RowSum(f, img, o, ch, i, oi, oj, n)
  {
    var fr: nat, fc: nat := img.fr, img.fc;
    RowBase(ch, i, n, f.ichannels, fr, fc);
    if n > 0 {
      DotRow(f, img, A, B, o, oi, oj, col, ch, i, base, n - 1);
      FilterEntry(f, A, o, ch, i, n - 1);
      ToeplitzEntry(img, B, ch, i, n - 1, oi, oj);
    }
  }

  /** Dot-product terms from base = ch * (fr * fc) up to top = base + m * fc
      are the first m filter rows of channel ch. */
  lemma {:induction false} DotWindow(f: FilterTensor, img: ImageTensor, A: seq<seq<int>>, B: seq<seq<int>>,
                                     o: nat, oi: nat, oj: nat, col: nat, ch: nat, base: nat, m: nat, top: nat)
    requires Aligned(f, img, A, B, o, oi, oj, col)
    requires ch < f.ichannels && m <= f.GetIRows()
    requires base == ch * (img.fr * img.fc) && top == base + m * img.fc && base <= top <= |B|
    ensures Dot(A, B, o, col, top) ==
              Dot(A, B, o, col, base) + WindowSum(f, img, o, ch, oi, oj, m)
  {
    var fr: nat, fc: nat := img.fr, img.fc;
    if m > 0 {
      RowBase(ch, m - 1, fc, f.ichannels, fr, fc);
      var rowStart := base + (m - 1) * fc;
      DotWindow(f, img, A, B, o, oi, oj, col, ch, base, m - 1, rowStart);
      DotRow(f, img, A, B, o, oi, oj, col, ch, m - 1, rowStart, fc);
    }
  }

  /** The first top = c * (fr * fc) dot-product terms are the
      cross-correlation over the first c channels. */
  lemma {:induction false} DotChannels(f: FilterTensor, img: ImageTensor, A: seq<seq<int>>, B: seq<seq<int>>,
                                       o: nat, oi: nat, oj: nat, col: nat, c: nat, top: nat)
    requires Aligned(f, img, A, B, o, oi, oj, col)
    requires c <= f.ichannels && top == c * (img.fr * img.fc)
    ensures top <= |B|
    ensures Dot(A, B, o, col, top) == CrossCorrelation(f, img, o, oi, oj, c)
  {
    var fr: nat, fc: nat := img.fr, img.fc;
    ChannelBelow(c, f.ichannels, fr * fc);
    if c > 0 {
      ChannelStep(c, fr, fc);
      var base := (c - 1) * (fr * fc);
      DotChannels(f, img, A, B, o, oi, oj, col, c - 1, base);
      DotWindow(f, img, A, B, o, oi, oj, col, c - 1, base, fr, top);
    }
  }

  lemma ChannelBelow(c: nat, channels: nat, w: nat)
    requires c <= channels
    ensures 0 <= c * w <= channels * w
  {
    assert channels * w == c * w + (channels - c) * w;
  }

  lemma ChannelStep(c: nat, fr: nat, fc: nat)
    requires c > 0
    ensures (c - 1) * (fr * fc) >= 0 && (c - 1) * (fr * fc) + fr * fc == c * (fr * fc)
  {
  }

  /** Convolution equivalence: entry (o, outc * oi + oj) of the product of
      the flattened filter with the Toeplitz matrix of the image is the
      cross-correlation of filter o with the image window at (oi, oj),
      summed over all input channels. */
  lemma ConvolutionAsProduct(f: FilterTensor, img: ImageTensor, A: seq<seq<int>>, B: seq<seq<int>>,
                             o: nat, oi: nat, oj: nat)
    requires ConvSetting(f, img, A, B)
    requires o < f.ochannels && oi < img.outr && oj < img.outc
    ensures WindowFits(f, img, oi, oj)
    ensures img.outr >= 0 && img.outc >= 0
    ensures o < |A| && |A[o]| == |B|
    ensures forall k :: 0 <= k < |B| ==> Slot(img.outr, img.outc, oi, oj) < |B[k]|
    ensures Dot(A, B, o, Slot(img.outr, img.outc, oi, oj), |B|) == CrossCorrelation(f, img, o, oi, oj, f.ichannels)
  {
    var col := Slot(img.outr, img.outc, oi, oj);
    SettingAligned(f, img, A, B, o, oi, oj, col);
    DotChannels(f, img, A, B, o, oi, oj, col, f.ichannels, |B|);
  }

  /** The layout of a (n, rows, cols) tensor: strides rows * cols, cols
      and 1, size n * (rows * cols), and the offset of (ch, r, c) is the
      slot of pixel (r, c) in row ch of a n x (rows * cols) matrix. */
  lemma OutputLayout(n: nat, rows: nat, cols: nat, ch: nat, r: nat, c: nat)
    ensures Strides([n, rows, cols]) == [rows * cols, cols, 1]
    ensures Product([n, rows, cols]) == n * (rows * cols)
    ensures Offset([ch, r, c], [rows * cols, cols, 1]) == (rows * cols) * ch + (cols * r + c)
  {
    var shape := [n, rows, cols];
    assert shape[1..] == [rows, cols] && shape[2..] == [cols] && shape[3..] == [];
    assert Product([cols]) == cols;
    assert Product([rows, cols]) == rows * cols;
    var s := Strides(shape);
    assert s[0] == rows * cols && s[1] == cols && s[2] == 1;
    var idx, st := [ch, r, c], [rows * cols, cols, 1];
    assert idx[1..] == [r, c] && st[1..] == [cols, 1];
    assert idx[1..][1..] == [c] && st[1..][1..] == [1];
    assert Offset([c], [1]) == c;
    assert Offset([r, c], [cols, 1]) == r * cols + c;
  }

  /** On an image with an empty lineage, the output-matrix slot of channel
      ch and pixel (r, c) is the buffer element that `at(ch, r, c)` reads:
      the row-major layout of the storage tensor and of the output matrix
      (channels x (rows * cols)) agree. */
  lemma OutputSlot(res: ImageTensor, ch: nat, r: nat, c: nat)
    requires res.Valid() && res.imgOps == [] && ch < res.channels && r < res.rows && c < res.cols
    ensures res.GetRows() == res.rows && res.GetCols() == res.cols
    ensures Slot(res.channels, res.rows * res.cols, ch, Slot(res.rows, res.cols, r, c)) < res.storage.data.Length
    ensures res.storage.data[Slot(res.channels, res.rows * res.cols, ch, Slot(res.rows, res.cols, r, c))]
            == res.At(ch, r, c)
  {
    OutputLayout(res.channels, res.rows, res.cols, ch, r, c);
  }

  /** Once the result buffer holds the product of the flattened filter with
      the Toeplitz matrix, every element of the result is the
      cross-correlation of the filter with the image at that position. */
  lemma ProductIsConvolution(f: FilterTensor, img: ImageTensor, res: ImageTensor, A: seq<seq<int>>, B: seq<seq<int>>)
    requires ConvSetting(f, img, A, B)
    requires res.Valid() && res.imgOps == [] && res.channels == f.ochannels
    requires res.rows == img.outr && res.cols == img.outc
    requires res.channels * (res.rows * res.cols) <= res.storage.data.Length
    requires |A| == res.channels && (forall i :: 0 <= i < |A| ==> |A[i]| == |B|)
    requires forall k :: 0 <= k < |B| ==> |B[k]| == res.rows * res.cols
    requires forall i: nat, j: nat | i < res.channels && j < res.rows * res.cols ::
               res.storage.data[Slot(res.channels, res.rows * res.cols, i, j)] == Dot(A, B, i, j, |B|)
    ensures forall oi: nat, oj: nat | oi < res.rows && oj < res.cols :: WindowFits(f, img, oi, oj)
    ensures forall o: nat, oi: nat, oj: nat | o < res.channels && oi < res.rows && oj < res.cols ::
              res.At(o, oi, oj) == CrossCorrelation(f, img, o, oi, oj, f.ichannels)
  {
    forall oi: nat, oj: nat | oi < res.rows && oj < res.cols
      ensures WindowFits(f, img, oi, oj)
    {
      assert img.ToeplitzReady();
    }
    forall o: nat, oi: nat, oj: nat | o < res.channels && oi < res.rows && oj < res.cols
      ensures res.At(o, oi, oj) == CrossCorrelation(f, img, o, oi, oj, f.ichannels)
    {
      ConvolutionAsProduct(f, img, A, B, o, oi, oj);
      OutputSlot(res, o, oi, oj);
      var j := Slot(res.rows, res.cols, oi, oj);
      assert j == Slot(img.outr, img.outc, oi, oj);
      assert res.storage.data[Slot(res.channels, res.rows * res.cols, o, j)] == Dot(A, B, o, j, |B|);
    }
  }

  /** The two operand matrices of the convolution, with the values they
      denote: the flattened filter and the Toeplitz matrix of the image. */
  method BuildOperands(img: ImageTensor, f: FilterTensor) returns (m1: Matrix2D, m2: Matrix2D,
                                                                   ghost A: seq<seq<int>>, ghost B: seq<seq<int>>)
    requires img.Valid() && f.Valid() && f.ichannels == img.channels
    requires f.GetIRows() <= img.GetRows() && f.GetICols() <= img.GetCols()
    modifies img`fr, img`fc, img`fi, img`fo, img`outr, img`outc, img`matRows, img`matCols
    modifies f`matRows, f`matCols
    ensures m1 == FilterMatrix(f) && m2 == ImageMatrix(img) && ConvSetting(f, img, A, B)
    ensures img.imgOps == old(img.imgOps) && f.imgOps == old(f.imgOps)
    ensures img.outr == old(img.GetRows()) - old(f.GetIRows()) + 1
    ensures img.outc == old(img.GetCols()) - old(f.GetICols()) + 1
    ensures m1.GetRows() == f.ochannels && m1.GetCols() == m2.GetRows()
  {
    m1 := FilterMatrixOf(f);
    A := Snapshot(m1);
    label FilterBuilt:
    m2 := ToeplitzMatrixOf(img, f);
    assert f.imgOps == old(f.imgOps) && img.imgOps == old(img.imgOps);
    assert f.GetIRows() <= img.GetRows() && f.GetICols() <= img.GetCols();
    DenotesFramed@FilterBuilt(m1, A);
    B := Snapshot(m2);
    Assoc(f.ichannels, img.fr, img.fc);
  }

  /** The convolution the matrices are built for: flatten the filter, build
      the Toeplitz matrix of the image, view the result tensor (whose extent
      is the output extent) as a channels x (rows * cols) matrix, and
      multiply. Every element of the result is then the cross-correlation
      of the filter with the image at that position. */
  method Convolve(img: ImageTensor, f: FilterTensor, res: ImageTensor)
    requires img.Valid() && f.Valid() && res.Valid()
    requires f.ichannels == img.channels
    requires f.GetIRows() <= img.GetRows() && f.GetICols() <= img.GetCols()
    requires res.imgOps == [] && res.channels == f.ochannels
    requires res.rows == img.GetRows() - f.GetIRows() + 1 && res.cols == img.GetCols() - f.GetICols() + 1
    requires res != img && res.storage.data != img.storage.data && res.storage.data != f.storage.data
    modifies img`fr, img`fc, img`fi, img`fo, img`outr, img`outc, img`matRows, img`matCols
    modifies f`matRows, f`matCols, res`matRows, res`matCols, res.storage.data
    ensures f.Valid() && img.Valid() && res.Valid()
    ensures forall oi: nat, oj: nat | oi < res.rows && oj < res.cols :: WindowFits(f, img, oi, oj)
    ensures forall o: nat, oi: nat, oj: nat | o < res.channels && oi < res.rows && oj < res.cols ::
              res.At(o, oi, oj) == CrossCorrelation(f, img, o, oi, oj, f.ichannels)
  {
    var m1, m2, A, B := BuildOperands(img, f);
    label OperandsBuilt:
    var out := OutputMatrixOf(res);
    DenotesFramed@OperandsBuilt(m1, A);
    DenotesFramed@OperandsBuilt(m2, B);
    OutputFits(res);
    ghost var rows: nat, cols: nat := res.channels, res.GetRows() * res.GetCols();
    assert Conformable(m1, m2, out);
    label Built:
    MultMatrix2D(m1, m2, out, A, B);
    DenotesFramed@Built(m1, A);
    DenotesFramed@Built(m2, B);
    ProductIsConvolution(f, img, res, A, B);
  }

  /** The output matrix covers the whole result buffer. */
  lemma OutputFits(res: ImageTensor)
    requires res.Valid()
    ensures res.channels * (res.rows * res.cols) == res.storage.data.Length
  {
    OutputLayout(res.channels, res.rows, res.cols, 0, 0, 0);
  }
}
