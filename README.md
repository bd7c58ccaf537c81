# Lazy tensor views and convolution as one matrix product

A Dafny model of the core of CNN_2D_Convolution (`tensor.h`, `conv_utils.h`).
The repository computes a 2D convolution as a single matrix product (the
im2col / Toeplitz technique). It does this over lazily transformed tensor views.

- **Dense storage** (`tensor.dfy`, module `Tensors`).
  - The class `Tensor` models `tensor<T>` with `T = int`.
  - The constructor computes the total size and the row-major strides (`cum_sizes`) with loops, then allocates the buffer.
  - `Get` accumulates the offset in a loop.
  - `Initialize` fills the buffer sequentially or copies it from an input sequence.
  - Pure functions `Product`, `Strides` and `Offset` state the layout. Lemmas prove that row-major addressing is a bijection from in-range indices onto `[0, size)`.
- **Lineage** (`lineage.dfy`, module `Lineage`).
  - The `operation` record becomes the `Operation` datatype. A `(rows_cols, operation)` pair becomes `Step`, and an `img_ops` stack becomes a `seq<Step>`.
  - `WellFormed` says every recorded extent is the one its operation produces from the extent before it.
  - `Unwind` is one step of `at_util`'s backward walk. `Resolve` is the whole walk: it returns the fill value, or a base coordinate that lies inside the base extent.
- **Views** (`views.dfy`, module `ConvUtils`).
  - `ImageTensor` and `FilterTensor` are classes. Each owns its storage and keeps its lineage in a `seq` field that the push and undo methods reassign.
  - `At` reads the current view through `Resolve`. Each push method states the extent it records and how every element of the new view relates to the old view. `UndoOperation` states the reverse.
  - `MatValueAt` gives the Toeplitz interpretation of an image and the flattened interpretation of a filter.
- **Matrices** (`matrix.dfy`, module `Matrices`).
  - `matrix2D` becomes a datatype over the two view classes, replacing the virtual `mat_value_at`.
  - Its three constructors are methods that write the borrowed view's matrix fields.
  - `mult_matrix2D` keeps its triple loop over the output buffer (`array<int>`). Each loop level is a method proved against `Dot`, a sum over the operands' interpreted values.
- **Convolution** (`conv.dfy`, module `Convolution`).
  - Entry `(o, outc * oi + oj)` of the product of the flattened filter with the Toeplitz matrix is `CrossCorrelation`, a sum over channels, filter rows and filter columns with no kernel flip.
  - `Convolve` builds the three matrices, multiplies them and proves that every element of the result view is that cross-correlation.
- **Scenarios** (`driver.dfy`, module `Driver`). These are the two example sequences of `main.cpp`, plus push-then-undo for any operation.

The source signals no errors, and the model does the same:
- `mult_matrix2D` prints a message on a dimension mismatch and returns with the output untouched.
- Downsampling truncates.
- `get`, `at` and `initialize` check no ranges or lengths.
- Extents may be zero.

## Model

| member | source | states |
|---|---|---|
| Tensors.Tensor.constructor | tensor.h:20-44 | the shape is the given extents, the strides are the row-major ones (`Strides`), the size is their product, and a fresh buffer of that size is allocated |
| Tensors.ProductSnoc | tensor.h:29-32 | multiplying the running size by the next extent gives the product of the extents seen so far |
| Tensors.StridesRowMajor | tensor.h:36-40 | the last stride is 1 and stride d is stride d+1 times extent d+1 |
| Tensors.StridesTail | tensor.h:36-40 | the strides of a shape without its first extent are the strides after the first |
| Tensors.Tensor.Size | tensor.h:54 | `size()` is the product of all extents and the buffer length |
| Tensors.Tensor.Element | tensor.h:57-68 | (definition) the buffer element at Σ idx[d] * stride[d], the read `get` performs |
| Tensors.Tensor.Get | tensor.h:57-68 | the offset accumulated by the loop addresses the element `Element` defines, at Σ idx[d] * stride[d] with the row-major strides; nothing is modified |
| Tensors.OffsetInRange | tensor.h:59-64 | an in-range multi-index has an offset below the size |
| Tensors.OffsetInjective | tensor.h:59-64 | two in-range multi-indices with the same offset are equal |
| Tensors.Unflatten | tensor.h:59-64 | every slot below the size is the offset of an in-range multi-index, so addressing is onto `[0, size)` |
| Tensors.Tensor.Initialize | tensor.h:79-84 | SEQUENTIAL leaves `data[i] == value + i` for every slot; otherwise the buffer becomes the first `size` input elements; only the buffer changes |
| Lineage.Apply | conv_utils.h:167-187 | (definition) the extent an operation records: rows + top + bottom and cols + left + right for padding, times the scales for upsampling, truncated quotients for downsampling |
| Lineage.Unwind | conv_utils.h:94-128 | (definition) one step of the backward walk: padding maps the margins to the fill value and shifts the rest by (top, left); upsampling fills positions off the scale grid and divides the others; downsampling multiplies |
| Lineage.CachedExtentIsReplay | conv_utils.h:151-158 | the extent cached on the top of a well-formed stack is the one obtained by replaying all its operations from the base extent |
| Lineage.WellFormedPrefix | conv_utils.h:191-193 | removing steps from the top keeps the stack well formed |
| Lineage.WellFormedPush | conv_utils.h:167-187 | pushing an operation with the extent computed from the current one keeps the stack well formed |
| Lineage.UnwindWithin | conv_utils.h:94-128 | one step maps an in-range coordinate to the fill value or to a coordinate inside the extent before the step; a downsampling never yields the fill value |
| Lineage.Resolve | conv_utils.h:83-132 | the walk terminates after at most one step per stack entry, and every base coordinate it reaches lies inside the base extent, so the final `get` is in range |
| Lineage.ResolvePrefix | conv_utils.h:83-132 | the walk over the first `offset` steps does not depend on the steps above them |
| Lineage.ResolvePushed | conv_utils.h:83-132 | after a push, the walk is one unwinding of the new step followed by the walk over the old stack |
| ConvUtils.ToeplitzInside | conv_utils.h:197-211 | every Toeplitz coordinate `r < mat_rows`, `c < mat_cols` maps to a channel and a position inside the current image extent |
| ConvUtils.FlattenInside | conv_utils.h:334-338 | every flattened-filter column maps to an in-channel and a position inside the current filter extent |
| ConvUtils.ImageTensor.AtUtil | conv_utils.h:83-132 | (definition) the element `offset` steps into a lineage: 0 when the walk `Resolve` reaches a padding or a skipped upsampled position, otherwise the storage element (channel, row, col) it arrives at |
| ConvUtils.ImageTensor.At | conv_utils.h:146-148 | (definition) `at`: `AtUtil` over the whole lineage |
| ConvUtils.ImageTensor.GetRows | conv_utils.h:151-153 | (definition) the base rows when the lineage is empty, otherwise the rows recorded by the last entry; see ExtentIsReplay |
| ConvUtils.ImageTensor.GetCols | conv_utils.h:156-158 | (definition) the same for the columns |
| ConvUtils.ImageTensor.MatValueAt | conv_utils.h:197-211 | (definition) Toeplitz entry (r, c): channel r / (fr*fc), image position (c / outc + (r % (fr*fc)) / fc, c % outc + (r % (fr*fc)) % fc); see ToeplitzEntry |
| ConvUtils.FilterTensor.AtUtil | conv_utils.h:246-271 | (definition) the same walk as the image's, reading storage element (ochannel, ichannel, row, col) |
| ConvUtils.FilterTensor.At | conv_utils.h:286-288 | (definition) `at`: `AtUtil` over the whole lineage |
| ConvUtils.FilterTensor.GetIRows | conv_utils.h:291-293 | (definition) the base rows or the rows recorded by the last entry |
| ConvUtils.FilterTensor.GetICols | conv_utils.h:296-298 | (definition) the base columns or the columns recorded by the last entry |
| ConvUtils.FilterTensor.MatValueAt | conv_utils.h:334-338 | (definition) flattened entry (r, c): out-channel r, in-channel c / (ir*ic), position ((c % (ir*ic)) / ic, (c % (ir*ic)) % ic); see FilterEntry |
| ConvUtils.ImageTensor.constructor | conv_utils.h:138-142 | storage of shape (channels, rows, cols) and an empty lineage |
| ConvUtils.ImageTensor.PushedAt | conv_utils.h:83-132 | after a push, an element of the new view is the fill value or the element of the old view at the unwound coordinate |
| ConvUtils.ImageTensor.ExtentIsReplay | conv_utils.h:151-158 | `get_rows`/`get_cols` equal the extent obtained by replaying the lineage |
| ConvUtils.ImageTensor.GetChannels | conv_utils.h:161-163 | the channel count is the storage's first extent, whatever the lineage |
| ConvUtils.ImageTensor.PadImage | conv_utils.h:167-171 | pushes extent (rows+top+bottom, cols+left+right); `at` is 0 on the margins and the old element at (row-top, col-left) elsewhere |
| ConvUtils.ImageTensor.UpsampleImage | conv_utils.h:175-179 | pushes extent (rows*scaleY, cols*scaleX); `at` is the old element at (row/scaleY, col/scaleX) when both divide, 0 otherwise |
| ConvUtils.ImageTensor.DownsampleImage | conv_utils.h:183-187 | pushes extent (rows/scaleY, cols/scaleX), truncating; `at` is the old element at (row*scaleY, col*scaleX), which lies in the old extent |
| ConvUtils.ImageTensor.UndoOperation | conv_utils.h:191-193 | pops exactly the last entry (no-op when empty); every element becomes the one seen one step earlier |
| ConvUtils.FilterTensor.constructor | conv_utils.h:277-282 | storage of shape (ochannels, ichannels, irows, icols) and an empty lineage |
| ConvUtils.FilterTensor.ExtentIsReplay | conv_utils.h:291-298 | `get_irows`/`get_icols` equal the extent obtained by replaying the lineage |
| ConvUtils.FilterTensor.GetIChannels | conv_utils.h:301-303 | the in-channel count is the storage's second extent |
| ConvUtils.FilterTensor.GetOChannels | conv_utils.h:306-308 | the out-channel count is the storage's first extent |
| ConvUtils.FilterTensor.UpsampleFilter | conv_utils.h:312-316 | as UpsampleImage, for every (out-channel, in-channel) pair |
| ConvUtils.FilterTensor.DownsampleFilter | conv_utils.h:320-324 | as DownsampleImage, for every (out-channel, in-channel) pair |
| ConvUtils.FilterTensor.UndoOperation | conv_utils.h:328-330 | pops exactly the last entry (no-op when empty); every element becomes the one seen one step earlier |
| Matrices.Matrix2D.GetRows | conv_utils.h:384-386 | (definition) the `mat_rows` field of the borrowed tensor |
| Matrices.Matrix2D.GetCols | conv_utils.h:389-391 | (definition) the `mat_cols` field of the borrowed tensor |
| Matrices.Matrix2D.MatAt | conv_utils.h:379-381 | (definition) `mat_at`: the borrowed tensor's `MatValueAt`, Toeplitz for an image and flattened for a filter |
| Matrices.Matrix2D.At | conv_utils.h:374-376 | (definition) `at`: the raw buffer slot mat_cols * r + c, bypassing the lineage |
| Matrices.Dot | conv_utils.h:451-454 | (reference) Σ_{k<n} A[i][k] * B[k][j] over matrices given as values |
| Matrices.Slot | conv_utils.h:374-376 | the slot `mat_cols * r + c` of an in-range (r, c) lies below rows * cols |
| Matrices.Snapshot | conv_utils.h:379-381 | every readable matrix denotes a rows x cols value whose entries are its `mat_at` values |
| Matrices.DenotesFramed | conv_utils.h:379-381 | writes outside the borrowed view and its buffer keep every `mat_at` value |
| Matrices.FilterMatrixOf | conv_utils.h:395-398 | `mat_rows` = ochannels and `mat_cols` = ichannels * irows * icols of the current filter; the matrix is readable |
| Matrices.ToeplitzMatrixOf | conv_utils.h:401-411 | records fr, fc, fi, fo, outr = rows - fr + 1, outc = cols - fc + 1 and the dimensions (fr*fc*channels) x (outr*outc); readable when the filter fits in the image |
| Matrices.OutputMatrixOf | conv_utils.h:414-417 | `mat_rows` = channels and `mat_cols` = rows * cols of the current image |
| Matrices.AccumulateDot | conv_utils.h:451-454 | the output slot ends equal to Σ_k m1(i,k) * m2(k,j), and every other slot is unchanged |
| Matrices.FillRow | conv_utils.h:450-455 | every slot of output row i holds its dot product, and slots outside that row are unchanged |
| Matrices.FillNextRow | conv_utils.h:449-456 | one outer iteration extends "rows below i are done" to row i and writes only row i's slots |
| Matrices.FillRows | conv_utils.h:449-456 | every slot of the rows x cols output holds its dot product, and no slot at or past rows * cols is written |
| Matrices.MultMatrix2D | conv_utils.h:438-457 | on a dimension mismatch the output buffer is unchanged; otherwise slot `mat_cols * i + j` holds Σ_k m1(i,k) * m2(k,j) and nothing outside `[0, rows*cols)` is written |
| Convolution.CrossCorrelation | conv_utils.h:195-211 | (reference) Σ over channels, filter rows and filter columns of f(o, ch, i, j) * img(ch, oi + i, oj + j), read through both views' `at`, with no kernel flip |
| Convolution.FilterEntry | conv_utils.h:334-338 | column ch*(ir*ic) + i*ic + j of filter row o is the filter element (o, ch, i, j) |
| Convolution.ToeplitzEntry | conv_utils.h:197-211 | Toeplitz entry (ch*(fr*fc) + i*fc + j, outc*oi + oj) is the image element (ch, oi+i, oj+j), which is inside the image |
| Convolution.DotRow | conv_utils.h:452-454 | the dot-product terms along one filter row are that row's sum of filter times image products |
| Convolution.DotWindow | conv_utils.h:452-454 | the terms of one channel's first m filter rows are the window sum over those rows |
| Convolution.DotChannels | conv_utils.h:452-454 | the first c * (fr*fc) terms are the cross-correlation over the first c channels |
| Convolution.ConvolutionAsProduct | conv_utils.h:199-210 | entry (o, outc*oi + oj) of filter matrix x Toeplitz matrix is the cross-correlation of filter o with the image window at (oi, oj), over all channels, with no kernel flip |
| Convolution.OutputLayout | tensor.h:36-40 | the strides of an (n, rows, cols) tensor are (rows*cols, cols, 1), and the offset of (ch, r, c) is the output-matrix slot of (ch, cols*r + c) |
| Convolution.OutputSlot | conv_utils.h:414-417 | on an output image with no lineage, the output-matrix slot of (ch, r*cols + c) is the element `at(ch, r, c)` |
| Convolution.OutputFits | conv_utils.h:414-417 | the output matrix covers the whole result buffer |
| Convolution.ProductIsConvolution | conv_utils.h:438-457 | once the result buffer holds the product, every element of the result view is the cross-correlation at that position |
| Convolution.BuildOperands | conv_utils.h:395-411 | builds the filter and Toeplitz matrices, whose values are the flattened filter and the image windows, with matching inner dimension |
| Convolution.Convolve | conv_utils.h:395-457 | for an image, a filter that fits and a result view of the output extent, every result element is the cross-correlation of the filter with the image |
| Driver.PushThenUndo | conv_utils.h:167-193 | any image push followed by `undo_operation` restores the lineage, the extent and every element |
| Driver.PushThenUndoFilter | conv_utils.h:312-330 | any filter push followed by `undo_operation` restores the lineage, the extent and every element |
| Driver.FilterStrides | tensor.h:36-40 | a (3, 2, 3, 3) tensor has strides (18, 9, 3, 1) |
| Driver.FilterOffset | tensor.h:59-64 | element (o, i, r, c) of that tensor is at offset 18o + 9i + 3r + c |
| Driver.ImageLayout | tensor.h:36-40 | a (2, 5, 5) tensor has strides (25, 5, 1) and element (ch, r, c) at 25ch + 5r + c |
| Driver.SequentialFilter | main.cpp:38-39 | a sequentially initialised (3, 2, 3, 3) filter reads 18o + 9i + 3r + c |
| Driver.UpsampledFilter | main.cpp:40 | after one (2, 2) upsampling the filter is 6 x 6 with the original elements at even positions |
| Driver.BlownUpFilter | main.cpp:40-41 | after two (2, 2) upsamplings it is 12 x 12 with the original elements at multiples of four |
| Driver.FilterScenario | main.cpp:38-42 | after the (4, 4) downsampling the filter is 3 x 3 again with every element equal to the original |
| Driver.SequentialImage | main.cpp:61-62 | a sequentially initialised 2-channel 5 x 5 image reads 25ch + 5r + c |
| Driver.PadSequential | main.cpp:63 | padding the sequential image by (1, 1, 1, 1) records one entry and gives a 7 x 7 view that is 0 on the border and the original element (r-1, c-1) inside |
| Driver.UpsamplePadded | main.cpp:64 | upsampling the padded view by (2, 2) records a 14 x 14 entry; the view shows the padded element (r/2, c/2) at even positions and 0 elsewhere |
| Driver.DownsampleUpsampled | main.cpp:65 | downsampling the 14 x 14 view by (2, 2) records a 7 x 7 entry and shows the padded view again |
| Driver.PadAndResample | main.cpp:63-65 | the three pushes leave the lineage (7 x 7 pad, 14 x 14 upsample, 7 x 7 downsample) and a view showing the padded image |
| Driver.ImageScenario | main.cpp:61-68 | the undos pass back through 14 x 14 and 7 x 7, and after the third the image is 5 x 5 with an empty lineage and its original elements |

## Left out

- The `display` methods and the printing loops of `main.cpp`: console formatting only.
- The messages `mult_matrix2D` prints on a dimension mismatch: modelled as the early return with the output untouched.
- The variadic `va_list` index and extent lists: modelled as `seq<nat>`.
- `new`/`delete` and the destructor (including `delete` used for an array): memory management, not logic.
- The virtual `mat_value_at` of `mat_interpretable_tensor`: modelled as a datatype with one variant per view class.
- The element type `T`: instantiated with `int`, which is unbounded here; C++ `int` and `size_t` overflow (sizes, strides, `mat_cols` products, dot-product sums) is not modelled.
- Negative coordinates, extents, margins and scales, and scales of 0 (a division by zero in the source): coordinates and extents are `nat`, margins must be at least 0 and scales at least 1.
- The order of `in_data[idx]` and `idx++` in `initialize`: modelled as an element-wise copy.
- Tensors.Tensor.constructor: requires at least one extent; with none, `shape_sizes.size() - 1` wraps around in the source.
- Tensors.Tensor.Get: requires the computed offset to lie inside the buffer; the source reads out of bounds otherwise.
- Tensors.Tensor.Initialize: requires the copy source to hold at least `size` elements; the source reads past its end otherwise.
- ConvUtils.ImageTensor.At: requires the channel and the coordinate to lie inside the current view; the source does not check and reads another element or out of bounds. FilterTensor.At is the same.
- ConvUtils.ImageTensor.MatValueAt: requires the matrix fields to describe a filter that fits inside the current image. The source does not check, and a negative `outr` or `outc` would read out of range.
- The `return 0` that `at_util` reaches when no branch matches is unreachable. The image has only the three operations, and a filter lineage never holds a padding because the filter has no pad method.
- Matrices.MultMatrix2D: requires the output buffer to be neither operand's buffer, and (when the dimensions agree) to hold at least rows * cols elements. The operands' values are passed as ghost snapshots. With aliasing, the source would read partially written values; with too small a buffer, it would write out of bounds.
- The reference that `matrix2D::at` returns: writes through it are modelled as direct writes to the output buffer inside MultMatrix2D. `Matrix2D.At` reads only.
- The `fi` and `fo` fields are written by the Toeplitz constructor and read nowhere. They are kept as fields.
- `cu::initialize_tensor` and `mat_init`, called in `main.cpp`, are not defined in the headers. The scenarios call the storage's `Initialize` with SEQUENTIAL and 0 instead. The image scenario comes after an early `return 0` in `main.cpp` and is modelled as if reached.
- Push-then-undo is proved for one operation at a time (Driver.PushThenUndo) and for the three-step image scenario, not for arbitrary sequences of n pushes followed by n undos.
