/** `matrix2D` of conv_utils.h: a 2D interpretation borrowed from an image or
    a filter view, the three constructors that fix its dimensions, the checked
    triple-loop product `mult_matrix2D`, and the statement that makes the
    product a convolution: multiplying the flattened filter by the Toeplitz
    matrix of the image gives the cross-correlation of the two views. */
module Matrices {
  import opened Tensors
  import opened Lineage
  import opened ConvUtils

  /** The tensor a matrix is interpreted from; the source reaches the two
      kinds through a virtual `mat_value_at`. */
  datatype Matrix2D = ImageMatrix(image: ImageTensor) | FilterMatrix(filter: FilterTensor)
  {
    /** The flat buffer that `at` addresses directly. */
    function Data(): array<int>
    {
      if ImageMatrix? then image.storage.data else filter.storage.data
    }

    /** The borrowed tensor object, whose fields hold the dimensions. */
    ghost function Owner(): set<object>
    {
      if ImageMatrix? then {image} else {filter}
    }

    /** Everything an interpreted value depends on. */
    ghost function Footprint(): set<object>
    {
      if ImageMatrix? then {image, Data()} else {filter, Data()}
    }

    ghost predicate Valid()
      reads Owner()
    {
      if ImageMatrix? then image.Valid() else filter.Valid()
    }

    /** `get_rows`: the `mat_rows` field of the borrowed tensor. */
    function GetRows(): int
      reads Owner()
    {
      if ImageMatrix? then image.matRows else filter.matRows
    }

    /** `get_cols`: the `mat_cols` field of the borrowed tensor. */
    function GetCols(): int
      reads Owner()
    {
      if ImageMatrix? then image.matCols else filter.matCols
    }

    /** The matrix fields describe the interpretation `mat_at` computes
        (and so are never negative). */
    ghost predicate Readable()
      reads Owner()
    {
      && GetRows() >= 0 && GetCols() >= 0
      && if ImageMatrix? then image.ToeplitzReady() else filter.FlatReady()
    }

    /** `mat_at`: the interpreted value. */
    function MatAt(r: nat, c: nat): int
      reads Owner(), Data()
      requires Readable() && r < GetRows() && c < GetCols()
    {
      if ImageMatrix? then image.MatValueAt(r, c) else filter.MatValueAt(r, c)
    }

    /** E holds the interpreted values of this matrix, row by row: the
        matrix as a value. */
    ghost predicate Denotes(E: seq<seq<int>>)
      reads Owner(), Data()
    {
      && Readable()
      && |E| == GetRows()
      && (forall r :: 0 <= r < |E| ==> |E[r]| == GetCols())
      && forall r: nat, c: nat {:trigger MatAt(r, c)} | r < |E| && c < |E[r]| :: E[r][c] == MatAt(r, c)
    }

    /** `at`: the raw buffer slot mat_cols * r + c, bypassing the lineage. */
    function At(r: nat, c: nat): int
      reads Owner(), Data()
      requires 0 <= GetCols() * r + c < Data().Length
    {
      Data()[GetCols() * r + c]
    }
  }

  /** The filter-matrix constructor: one row per output channel, one column
      per (in-channel, row, col) of the current filter extent. */
  method FilterMatrixOf(f: FilterTensor) returns (m: Matrix2D)
    requires f.Valid()
    modifies f`matRows, f`matCols
    ensures m == FilterMatrix(f) && m.Readable()
    ensures f.matRows == f.GetOChannels() && f.matCols == f.GetIChannels() * f.GetIRows() * f.GetICols()
  {
    f.matRows := f.GetOChannels();
    f.matCols := f.GetIChannels() * f.GetIRows() * f.GetICols();
    NonNegProduct(f.GetIChannels() * f.GetIRows(), f.GetICols());
    m := FilterMatrix(f);
  }

  /** The Toeplitz-matrix constructor: records the filter's extents and the
      output extent (rows - fr + 1) x (cols - fc + 1) in the image, and sizes
      the matrix (fr * fc * channels) x (outr * outc). The matrix is readable
      once the filter fits inside the current image extent. */
  method ToeplitzMatrixOf(img: ImageTensor, f: FilterTensor) returns (m: Matrix2D)
    requires img.Valid() && f.Valid()
    modifies img`fr, img`fc, img`fi, img`fo, img`outr, img`outc, img`matRows, img`matCols
    ensures m == ImageMatrix(img) && img.Valid()
    ensures img.fr == f.GetIRows() && img.fc == f.GetICols()
    ensures img.fi == f.GetIChannels() && img.fo == f.GetOChannels()
    ensures img.outr == img.GetRows() - img.fr + 1 && img.outc == img.GetCols() - img.fc + 1
    ensures img.matRows == img.fr * img.fc * img.GetChannels() && img.matCols == img.outr * img.outc
    ensures f.GetIRows() <= img.GetRows() && f.GetICols() <= img.GetCols() ==> m.Readable()
  {
    var rowsNow := img.GetRows();
    var colsNow := img.GetCols();
    var fr := f.GetIRows();
    var fc := f.GetICols();
    var outr := rowsNow - fr + 1;
    var outc := colsNow - fc + 1;
    img.fr, img.fc, img.fi, img.fo := fr, fc, f.GetIChannels(), f.GetOChannels();
    img.outr, img.outc := outr, outc;
    img.matRows, img.matCols := fr * fc * img.GetChannels(), outr * outc;
    assert img.Valid();
    NonNegProducts(fr, fc, img.GetChannels());
    if fr <= rowsNow && fc <= colsNow {
      NonNegProduct(outr, outc);
    }
    m := ImageMatrix(img);
  }

  /** The output-matrix constructor: one row per channel, one column per
      (row, col) of the current extent. */
  method OutputMatrixOf(img: ImageTensor) returns (m: Matrix2D)
    requires img.Valid()
    modifies img`matRows, img`matCols
    ensures m == ImageMatrix(img) && img.Valid()
    ensures img.matRows == img.GetChannels() && img.matCols == img.GetRows() * img.GetCols()
  {
    img.matRows := img.GetChannels();
    img.matCols := img.GetRows() * img.GetCols();
    m := ImageMatrix(img);
  }

  lemma NonNegProduct(a: nat, b: nat)
    ensures a * b >= 0
  {
  }

  lemma NonNegProducts(a: nat, b: nat, c: nat)
    ensures a * b >= 0 && a * b * c >= 0
  {
    NonNegProduct(a, b);
    NonNegProduct(a * b, c);
  }

  /** Σ_{k<n} A[i][k] * B[k][j]: the first n terms of the (i, j) entry of
      the product of two matrices given as values. */
  function Dot(A: seq<seq<int>>, B: seq<seq<int>>, i: nat, j: nat, n: nat): int
    requires i < |A| && n <= |A[i]| && n <= |B|
    requires forall k :: 0 <= k < n ==> j < |B[k]|
  {
    if n == 0 then 0 else Dot(A, B, i, j, n - 1) + A[i][n - 1] * B[n - 1][j]
  }

  /** The dimension checks of `mult_matrix2D`. */
  predicate Conformable(m1: Matrix2D, m2: Matrix2D, out: Matrix2D)
    reads m1.Owner(), m2.Owner(), out.Owner()
  {
    out.GetRows() == m1.GetRows() && out.GetCols() == m2.GetCols() && m1.GetCols() == m2.GetRows()
  }

  /** Row-major slot of (r, c) in a rows x cols matrix; it lies in
      [0, rows * cols). */
  function Slot(rows: nat, cols: nat, r: nat, c: nat): (s: nat)
    requires r < rows && c < cols
    ensures s < rows * cols && s < cols * rows
  {
    MulBelow(r, c, cols, rows);
    cols * r + c
  }

  /** The slots of row i are cols * i, ..., cols * i + cols - 1: those of
      earlier rows lie below them and those of later rows above. */
  lemma SlotOfRow(p: nat, q: nat, i: nat, start: nat, rows: nat, cols: nat)
    requires p < rows && i < rows && q < cols && start == cols * i
    ensures p < i ==> Slot(rows, cols, p, q) < start
    ensures p == i ==> start <= Slot(rows, cols, p, q) < start + cols
  {
    if p < i {
      MulBelow(p, q, cols, i);
    }
  }

  /** The first n interpreted values of row r. */
  ghost function RowValues(m: Matrix2D, r: nat, n: nat): (row: seq<int>)
    reads m.Owner(), m.Data()
    requires m.Readable() && r < m.GetRows() && n <= m.GetCols()
    ensures |row| == n
    ensures forall c: nat {:trigger m.MatAt(r, c)} | c < n :: row[c] == m.MatAt(r, c)
  {
    if n == 0 then [] else RowValues(m, r, n - 1) + [m.MatAt(r, n - 1)]
  }

  /** The first n rows of interpreted values. */
  ghost function RowsValues(m: Matrix2D, n: nat): (rows: seq<seq<int>>)
    reads m.Owner(), m.Data()
    requires m.Readable() && n <= m.GetRows()
    ensures |rows| == n
    ensures forall r :: 0 <= r < n ==> |rows[r]| == m.GetCols()
    ensures forall r: nat, c: nat {:trigger m.MatAt(r, c)} | r < n && c < |rows[r]| :: rows[r][c] == m.MatAt(r, c)
  {
    if n == 0 then [] else RowsValues(m, n - 1) + [RowValues(m, n - 1, m.GetCols())]
  }

  /** Every readable matrix denotes some value: its rows of interpreted
      values. */
  ghost function Snapshot(m: Matrix2D): (E: seq<seq<int>>)
    reads m.Owner(), m.Data()
    requires m.Readable()
    ensures m.Denotes(E)
  {
    RowsValues(m, m.GetRows())
  }

  /** Writing outside a matrix's footprint keeps the values it denotes. */
  twostate lemma DenotesFramed(m: Matrix2D, new E: seq<seq<int>>)
    requires old(m.Denotes(E)) && unchanged(m.Footprint())
    ensures m.Denotes(E)
  {
    assert m.Readable() && m.GetRows() == old(m.GetRows()) && m.GetCols() == old(m.GetCols());
    forall r: nat, c: nat | r < |E| && c < |E[r]|
      ensures E[r][c] == m.MatAt(r, c)
    {
      assert E[r][c] == old(m.MatAt(r, c));
    }
  }

  /** The innermost loop of `mult_matrix2D`: zeroes one output slot and
      adds the products of row i of m1 with column j of m2 into it; every
      other slot keeps its value. */
  method AccumulateDot(m1: Matrix2D, m2: Matrix2D, a: array<int>, slot: nat, i: nat, j: nat,
                       ghost A: seq<seq<int>>, ghost B: seq<seq<int>>)
    requires m1.Denotes(A) && m2.Denotes(B) && m1.GetCols() == m2.GetRows()
    requires i < m1.GetRows() && j < m2.GetCols()
    requires a !in m1.Footprint() && a !in m2.Footprint() && slot < a.Length
    modifies a
    ensures a[slot] == Dot(A, B, i, j, |B|)
    ensures forall x | 0 <= x < a.Length && x != slot :: a[x] == old(a[x])
  {
    var inner: nat := m1.GetCols();
    a[slot] := 0;
    var k := 0;
    while k < inner
      invariant 0 <= k <= inner
      invariant a[slot] == Dot(A, B, i, j, k)
      invariant forall x | 0 <= x < a.Length && x != slot :: a[x] == old(a[x])
    {
      DenotesFramed(m1, A);
      DenotesFramed(m2, B);
      a[slot] := a[slot] + m1.MatAt(i, k) * m2.MatAt(k, j);
      k := k + 1;
    }
  }

  /** The middle loop of `mult_matrix2D`: fills the slots of row i of the
      output, which start at start = cols * i; every slot outside that row
      keeps its value. */
  method FillRow(m1: Matrix2D, m2: Matrix2D, a: array<int>, i: nat, start: nat, rows: nat, cols: nat,
                 ghost A: seq<seq<int>>, ghost B: seq<seq<int>>)
    requires m1.Denotes(A) && m2.Denotes(B) && m1.GetCols() == m2.GetRows()
    requires rows == m1.GetRows() && cols == m2.GetCols() && i < rows && start == cols * i
    requires a !in m1.Footprint() && a !in m2.Footprint() && rows * cols <= a.Length
    modifies a
    ensures forall q: nat | q < cols :: a[Slot(rows, cols, i, q)] == Dot(A, B, i, q, |B|)
    ensures forall x | 0 <= x < a.Length && !(start <= x < start + cols) :: a[x] == old(a[x])
  {
    var j := 0;
    while j < cols
      invariant 0 <= j <= cols
      invariant forall q: nat | q < j :: a[Slot(rows, cols, i, q)] == Dot(A, B, i, q, |B|)
      invariant forall x | 0 <= x < a.Length && !(start <= x < start + j) :: a[x] == old(a[x])
    {
      DenotesFramed(m1, A);
      DenotesFramed(m2, B);
      AccumulateDot(m1, m2, a, Slot(rows, cols, i, j), i, j, A, B);
      j := j + 1;
    }
  }

  /** One iteration of the outer loop of `mult_matrix2D`: with rows 0..i-1
      of the output filled and the slots from start = cols * i on untouched,
      filling row i extends both facts by one row. */
  method FillNextRow(m1: Matrix2D, m2: Matrix2D, a: array<int>, i: nat, start: nat, rows: nat, cols: nat,
                     ghost A: seq<seq<int>>, ghost B: seq<seq<int>>)
    requires m1.Denotes(A) && m2.Denotes(B) && m1.GetCols() == m2.GetRows()
    requires rows == m1.GetRows() && cols == m2.GetCols() && i < rows && start == cols * i
    requires a !in m1.Footprint() && a !in m2.Footprint() && rows * cols <= a.Length
    requires forall p: nat, q: nat | p < i && q < cols :: a[Slot(rows, cols, p, q)] == Dot(A, B, p, q, |B|)
    modifies a
    ensures forall p: nat, q: nat | p < i + 1 && q < cols :: a[Slot(rows, cols, p, q)] == Dot(A, B, p, q, |B|)
    ensures forall x | 0 <= x < a.Length && !(start <= x < start + cols) :: a[x] == old(a[x])
  {
    FillRow(m1, m2, a, i, start, rows, cols, A, B);
    forall p: nat, q: nat | p < i + 1 && q < cols
      ensures a[Slot(rows, cols, p, q)] == Dot(A, B, p, q, |B|)
    {
      SlotOfRow(p, q, i, start, rows, cols);
    }
  }

  /** The outer loop of `mult_matrix2D`, once the dimension checks have
      passed: row after row, every slot of the rows x cols output receives
      its dot product; the slots past rows * cols keep their values. */
  method FillRows(m1: Matrix2D, m2: Matrix2D, a: array<int>, rows: nat, cols: nat,
                  ghost A: seq<seq<int>>, ghost B: seq<seq<int>>)
    requires m1.Denotes(A) && m2.Denotes(B) && m1.GetCols() == m2.GetRows()
    requires rows == m1.GetRows() && cols == m2.GetCols()
    requires a !in m1.Footprint() && a !in m2.Footprint() && rows * cols <= a.Length
    modifies a
    ensures forall i: nat, j: nat | i < rows && j < cols :: a[Slot(rows, cols, i, j)] == Dot(A, B, i, j, |B|)
    ensures forall x: nat | rows * cols <= x < a.Length :: a[x] == old(a[x])
  {
    var i := 0;
    var start: nat := 0;
    while i < rows
      invariant 0 <= i <= rows && start == cols * i
      invariant forall p: nat, q: nat | p < i && q < cols :: a[Slot(rows, cols, p, q)] == Dot(A, B, p, q, |B|)
      invariant forall x | start <= x < a.Length :: a[x] == old(a[x])
    {
      DenotesFramed(m1, A);
      DenotesFramed(m2, B);
      FillNextRow(m1, m2, a, i, start, rows, cols, A, B);
      NextRow(i, start, cols);
      i := i + 1;
      start := start + cols;
    }
    assert start == rows * cols by { NonNegProduct(rows, cols); }
  }

  lemma NextRow(i: nat, start: nat, cols: nat)
    requires start == cols * i
    ensures start + cols == cols * (i + 1)
  {
  }

  /** `mult_matrix2D`, for operands whose interpreted values are A and B:
      when the dimensions disagree the output is left as it was; otherwise
      slot mat_cols * i + j of the output buffer receives the dot product of
      row i of A with column j of B, and no slot past rows * cols is
      written. The output buffer is not one the operands read. */
  method MultMatrix2D(m1: Matrix2D, m2: Matrix2D, out: Matrix2D, ghost A: seq<seq<int>>, ghost B: seq<seq<int>>)
    requires m1.Denotes(A) && m2.Denotes(B)
    requires out.Data() != m1.Data() && out.Data() != m2.Data()
    requires Conformable(m1, m2, out) ==> out.GetRows() * out.GetCols() <= out.Data().Length
    modifies out.Data()
    ensures !old(Conformable(m1, m2, out)) ==> unchanged(out.Data())
    ensures old(Conformable(m1, m2, out)) ==>
              var rows: nat, cols: nat := old(out.GetRows()), old(out.GetCols());
              && (forall i: nat, j: nat | i < rows && j < cols ::
                    out.Data()[Slot(rows, cols, i, j)] == Dot(A, B, i, j, |B|))
              && (forall x: nat | rows * cols <= x < out.Data().Length :: out.Data()[x] == old(out.Data()[x]))
  {
    if out.GetRows() != m1.GetRows() || out.GetCols() != m2.GetCols() {
      return;
    }
    if m1.GetCols() != m2.GetRows() {
      return;
    }
    FillRows(m1, m2, out.Data(), m1.GetRows(), m2.GetCols(), A, B);
  }
}
