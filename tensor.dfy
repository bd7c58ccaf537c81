/** Dense row-major storage: the `tensor<T>` class of tensor.h, with T = int.
    The extents and the strides are fixed at construction; only the buffer's
    contents change afterwards. */
module Tensors {

  /** Product of a list of extents (1 for the empty list). */
  function Product(extents: seq<nat>): nat
  {
    if extents == [] then 1 else extents[0] * Product(extents[1..])
  }

  /** Row-major strides: the stride of dimension d is the product of the
      extents of the dimensions after d. */
  function Strides(shape: seq<nat>): (s: seq<nat>)
    ensures |s| == |shape|
  {
    seq(|shape|, d requires 0 <= d < |shape| => Product(shape[d + 1..]))
  }

  /** The flat buffer offset of a multi-index: the sum of idx[d] * strides[d]. */
  function Offset(idx: seq<nat>, strides: seq<nat>): nat
    requires |idx| == |strides|
  {
    if idx == [] then 0 else idx[0] * strides[0] + Offset(idx[1..], strides[1..])
  }

  /** Every index lies inside the extent of its dimension. */
  predicate InRange(idx: seq<nat>, shape: seq<nat>)
  {
    |idx| == |shape| && forall d :: 0 <= d < |idx| ==> idx[d] < shape[d]
  }

  lemma {:induction false} ProductSnoc(s: seq<nat>, x: nat)
    ensures Product(s + [x]) == Product(s) * x
  {
    if s != [] {
      assert (s + [x])[1..] == s[1..] + [x];
      ProductSnoc(s[1..], x);
    }
  }

  /** The strides are those of row-major order: the last one is 1 and each
      other one is the next stride times the next extent. */
  lemma StridesRowMajor(shape: seq<nat>)
    requires |shape| >= 1
    ensures Strides(shape)[|shape| - 1] == 1
    ensures forall d :: 0 <= d < |shape| - 1 ==>
              Strides(shape)[d] == Strides(shape)[d + 1] * shape[d + 1]
  {
    forall d | 0 <= d < |shape| - 1
      ensures Strides(shape)[d] == Strides(shape)[d + 1] * shape[d + 1]
    {
      assert shape[d + 1..][1..] == shape[d + 2..];
    }
  }

  /** Dropping the first dimension drops the first stride. */
  lemma StridesTail(shape: seq<nat>)
    requires |shape| >= 1
    ensures Strides(shape)[1..] == Strides(shape[1..])
  {
    forall d | 0 <= d < |shape| - 1
      ensures Strides(shape)[1..][d] == Strides(shape[1..])[d]
    {
      assert shape[1..][d + 1..] == shape[d + 2..];
    }
  }

  lemma MulBelow(q: nat, r: nat, p: nat, n: nat)
    requires r < p && q < n
    ensures q * p + r < n * p
  {
    assert q * p + p == (q + 1) * p;
    assert (q + 1) * p <= n * p;
  }

  /** An in-range multi-index addresses a slot of the buffer. */
  lemma {:induction false} OffsetInRange(idx: seq<nat>, shape: seq<nat>)
    requires InRange(idx, shape)
    ensures Offset(idx, Strides(shape)) < Product(shape)
  {
    if idx != [] {
      StridesTail(shape);
      assert InRange(idx[1..], shape[1..]);
      OffsetInRange(idx[1..], shape[1..]);
      MulBelow(idx[0], Offset(idx[1..], Strides(shape[1..])), Product(shape[1..]), shape[0]);
    }
  }

  lemma DivUnique(q1: nat, r1: nat, q2: nat, r2: nat, p: nat)
    requires r1 < p && r2 < p
    requires q1 * p + r1 == q2 * p + r2
    ensures q1 == q2 && r1 == r2
  {
    if q1 < q2 {
      MulBelow(q1, r1, p, q2);
    } else if q2 < q1 {
      MulBelow(q2, r2, p, q1);
    }
  }

  /** Two in-range multi-indices with the same offset are the same index. */
  lemma {:induction false} OffsetInjective(a: seq<nat>, b: seq<nat>, shape: seq<nat>)
    requires InRange(a, shape) && InRange(b, shape)
    requires Offset(a, Strides(shape)) == Offset(b, Strides(shape))
    ensures a == b
  {
    if a != [] {
      StridesTail(shape);
      assert InRange(a[1..], shape[1..]) && InRange(b[1..], shape[1..]);
      OffsetInRange(a[1..], shape[1..]);
      OffsetInRange(b[1..], shape[1..]);
      DivUnique(a[0], Offset(a[1..], Strides(shape[1..])), b[0], Offset(b[1..], Strides(shape[1..])),
                Product(shape[1..]));
      OffsetInjective(a[1..], b[1..], shape[1..]);
      assert a == [a[0]] + a[1..] && b == [b[0]] + b[1..];
    }
  }

  /** The multi-index of a buffer slot: the inverse of Offset, so that
      row-major addressing is a bijection from in-range indices onto
      [0, Product(shape)). */
  function Unflatten(k: nat, shape: seq<nat>): (idx: seq<nat>)
    requires k < Product(shape)
    ensures InRange(idx, shape) && Offset(idx, Strides(shape)) == k
  {
    if shape == [] then []
    else
      var p := Product(shape[1..]);
      DivBelow(k, p, shape[0]);
      var q: nat, r: nat := k / p, k % p;
      var rest := Unflatten(r, shape[1..]);
      ConsIndex(q, rest, shape);
      assert q * p + r == k;
      [q] + rest
  }

  lemma DivBelow(k: nat, p: nat, n: nat)
    requires k < n * p
    ensures p > 0 && k / p < n && k % p < p && k == (k / p) * p + k % p
  {
  }

  /** Prepending an index for the first dimension. */
  lemma ConsIndex(q: nat, rest: seq<nat>, shape: seq<nat>)
    requires |shape| >= 1 && q < shape[0] && InRange(rest, shape[1..])
    ensures InRange([q] + rest, shape)
    ensures Offset([q] + rest, Strides(shape)) == q * Product(shape[1..]) + Offset(rest, Strides(shape[1..]))
  {
    StridesTail(shape);
    assert ([q] + rest)[1..] == rest;
  }

  /** How `initialize` fills the buffer. */
  datatype InitType = Random | Sequential

  class Tensor {
    const shape: seq<nat>      // shape_sizes
    const strides: seq<nat>    // cum_sizes
    const size: nat            // _size
    const dims: nat            // _dims
    const data: array<int>

    ghost predicate Valid()
    {
      && dims == |shape| >= 1
      && strides == Strides(shape)
      && size == Product(shape)
      && data.Length == size
    }

    /** One extent per dimension; the buffer is left uninitialised. */
    constructor (extents: seq<nat>)
      requires |extents| >= 1
      ensures Valid() && shape == extents && fresh(data)
    {
      var n := |extents|;
      // shape and total size, one dimension at a time
      var sizes: seq<nat> := [];
      var total: nat := 1;
      var i := 0;
      while i < n
        invariant 0 <= i <= n
        invariant sizes == extents[..i]
        invariant total == Product(sizes)
      {
        ProductSnoc(sizes, extents[i]);
        sizes := sizes + [extents[i]];
        total := total * extents[i];
        i := i + 1;
      }
      assert sizes == extents;
      // cumulative sizes from the last dimension backwards, then reversed
      var cum: seq<nat> := [1];
      var j := n - 1;
      while j > 0
        invariant 0 <= j <= n - 1
        invariant |cum| == n - j
        invariant forall k :: 0 <= k < |cum| ==> cum[k] == Product(sizes[n - k..])
      {
        assert sizes[j..][1..] == sizes[j + 1..];
        cum := cum + [cum[|cum| - 1] * sizes[j]];
        j := j - 1;
      }
      dims := n;
      shape := sizes;
      strides := seq(n, d requires 0 <= d < n => cum[n - 1 - d]);
      size := total;
      data := new int[total];
    }

    /** Length of the underlying one-dimensional buffer. */
    function Size(): (r: nat)
      requires Valid()
      ensures r == Product(shape) && r == data.Length
    {
      size
    }

    /** The element a multi-index addresses, as `get` reads it. */
    function Element(idx: seq<nat>): int
      reads data
      requires Valid() && |idx| == dims && Offset(idx, strides) < size
    {
      data[Offset(idx, strides)]
    }

    /** `get`: accumulates the offset over the dimensions, then reads the buffer. */
    method Get(idx: seq<nat>) returns (v: int)
      requires Valid() && |idx| == dims && Offset(idx, strides) < size
      ensures v == Element(idx) && v == data[Offset(idx, Strides(shape))]
    {
      var acc := idx[0] * strides[0];
      var i := 1;
      while i < dims
        invariant 1 <= i <= dims
        invariant acc + Offset(idx[i..], strides[i..]) == Offset(idx, strides)
      {
        assert idx[i..][1..] == idx[i + 1..] && strides[i..][1..] == strides[i + 1..];
        acc := acc + idx[i] * strides[i];
        i := i + 1;
      }
      v := data[acc];
    }

    /** `initialize`: SEQUENTIAL writes value, value + 1, ... in buffer order;
        otherwise the first `size` elements of `inData` are copied. */
    method Initialize(kind: InitType, value: int, inData: seq<int>)
      requires Valid()
      requires kind == Random ==> |inData| >= size
      modifies data
      ensures kind == Sequential ==> forall i :: 0 <= i < size ==> data[i] == value + i
      ensures kind == Random ==> data[..] == inData[..size]
    {
      var next := value;
      var idx := 0;
      while idx < size
        invariant 0 <= idx <= size
        invariant kind == Sequential ==> next == value + idx
        invariant kind == Sequential ==> forall i :: 0 <= i < idx ==> data[i] == value + i
        invariant kind == Random ==> forall i :: 0 <= i < idx ==> data[i] == inData[i]
      {
        if kind == Sequential {
          data[idx] := next;
          next := next + 1;
        } else {
          data[idx] := inData[idx];
        }
        idx := idx + 1;
      }
    }
  }
}
