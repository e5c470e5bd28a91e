# Naive convolution and max-pooling layers, modelled in Dafny

This project models the layer functions of `cs231n/layers.py` from the second
assignment of the cs231n course. It covers the parts that are index arithmetic
and data movement:

- **Zero padding.** The model covers numpy's constant pad used by the convolution. It also covers the hand-written
  `padwithzero` callback and `pad_matrix`.
- **`conv_forward_naive`.** The output size is `1 + (H + 2*pad - HH) / stride`. The im2col loop gathers every
  window into a column of `X_col` at index `i*Hs*Ws + j*Ws + k`. The filter/column product plus bias follows.
- **`conv_backward_naive`.** It computes the bias gradient, the filter gradient `dout_re · X_colᵀ` and
  `dx_col = W_rowᵀ · dout_re`. The col2im loop adds every column back into a zero `dx_pad`, and the padding is
  then cropped.
- **`max_pool_forward_naive`.** The quadruple loop gathers every pooling window into a row of `x_col`, and each
  row's maximum gives the output.
- **`max_pool_backward_naive`.** Each upstream gradient is routed to the first maximum of its window (numpy's
  `argmax` tie rule). The routed rows are then written back into the windows of `dx`.
- **`relu_forward` / `relu_backward` and `svm_loss`.** These are whole-array expressions.
- **`affine_forward` / `affine_backward`.** A matrix product plus a broadcast bias, and the three products and
  column sums of the backward pass.

Tensors are Dafny arrays (`array4<real>`, `array2<real>`, `array<real>`) with the source's shapes. The buffers
that the source fills in loops are filled by methods with loops. Each of these methods is proved against an
index function that gives every entry. Those functions are in turn proved equal to the sums and maxima the
layers are meant to compute:
- a window of `X_pad`;
- `b[f] + Σ w[f,c,p,q]·X_pad[n,c,j*stride+p,k*stride+q]`;
- the sum over all windows covering a position;
- the maximum of a pooling window.

The whole-array numpy steps (`np.pad`, `reshape`, `transpose`, `dot`, `np.max`, `np.argmax`) become explicit
index functions.

The ReLU pair and the hinge loss work elementwise. They are pure functions on sequences: a tensor of any
shape is taken in its row-major flattening, and the scores of `svm_loss` are taken as a sequence of rows.
The affine layer is pure as well: its matrices are sequences of rows, and x enters in its `(N, D)` reshape.
Element values are mathematical reals. Python 2 integer division of the non-negative size expressions is
Dafny's `/`.

Modules:
- `Index`: row-major flattening and decoding.
- `Sums`: finite sums and their reindexing.
- `Geometry`: window geometry and output sizes.
- `Slices`: numpy slice assignment `=` and `+=` of a block into one plane.
- `Padding`.
- `ConvForward`.
- `Scatter`: the col2im loop.
- `ConvBackward`.
- `Extrema`: max and first argmax.
- `PoolForward`.
- `PoolBackward`.
- `PoolGradientSum`: the total of the max-pool gradient.
- `Relu`.
- `SvmLoss`.
- `Affine`.

## Model

| member | source | states |
|---|---|---|
| Index.Flatten3 | assignments/assignment2/cs231n/layers.py:161 | column index `i*Hs*Ws + j*Ws + k` is below N·Hs·Ws and equals the row-major formula |
| Index.Flatten3Decode | assignments/assignment2/cs231n/layers.py:161 | the column index determines (i, j, k): `/` and `%` recover each component |
| Index.Flatten3Encode | assignments/assignment2/cs231n/layers.py:161 | every column index below N·Hs·Ws is the flattening of an in-range (i, j, k) |
| Index.Flatten3Injective | assignments/assignment2/cs231n/layers.py:161 | distinct windows get distinct column indices |
| Index.Flatten4 | assignments/assignment2/cs231n/layers.py:248 | row index `i*C*Hs*Ws + j*Hs*Ws + k*Ws + t` is below N·C·Hs·Ws and equals the row-major formula |
| Index.Flatten4Decode | assignments/assignment2/cs231n/layers.py:248 | the row index determines (i, j, k, t) |
| Index.Flatten4Encode | assignments/assignment2/cs231n/layers.py:248 | every row index below N·C·Hs·Ws decodes to an in-range (i, j, k, t) whose flat position is that row again |
| Index.Flatten2Decode | assignments/assignment2/cs231n/layers.py:248 | offset `p*pw + q` of a flattened window determines (p, q) |
| Index.Flatten2Encode | assignments/assignment2/cs231n/layers.py:248 | every offset below ph·pw decodes to an in-range (p, q) |
| Geometry.ConvOutSize | assignments/assignment2/cs231n/layers.py:154-155 | `1 + (H + 2·pad − HH)/stride` is the number of window positions: the last window fits and one more would not |
| Geometry.PoolOutSize | assignments/assignment2/cs231n/layers.py:241-242 | `(H − ph)/ps + 1` is the unpadded case of the same formula, with the same fit and maximality |
| Geometry.WindowInside | assignments/assignment2/cs231n/layers.py:161 | every offset of every window lies inside the extent the last window fits in |
| Geometry.OnlyOneCover | assignments/assignment2/cs231n/layers.py:210 | with stride ≥ window extent, at most one window covers a position along an axis |
| Padding.Pad | assignments/assignment2/cs231n/layers.py:157 | result has shape (N, C, H+2·pad, W+2·pad), `X_pad[n,c,h+pad,v+pad] == x[n,c,h,v]` and zero on the border |
| Padding.TailSliceStart | assignments/assignment2/cs231n/layers.py:111 | start of the tail slice `v[-k:]` lies in the vector (k = 0 selects it all) |
| Padding.PadWithZero | assignments/assignment2/cs231n/layers.py:109-112 | the callback as written keeps length and only ever clears entries |
| Padding.PadWithZeroClearsBorders | assignments/assignment2/cs231n/layers.py:109-112 | with a positive trailing width it clears exactly the first `before` and last `after` entries |
| Padding.PadWithZeroClearsAllWhenNoTail | assignments/assignment2/cs231n/layers.py:111 | with a zero trailing width (`vector[-0:] = 0`) it clears the whole vector |
| Padding.PadWithZeroFixed | assignments/assignment2/cs231n/layers.py:109-112 | corrected callback: keeps exactly the interior `[before, len − after)` for every width |
| Padding.PadWithZeroFixedNoPadIsIdentity | assignments/assignment2/cs231n/layers.py:109-112 | the corrected callback with no padding changes nothing |
| Padding.PadWithZeroKeeps | assignments/assignment2/cs231n/layers.py:109-112 | with equal widths `pad`, the callback as written keeps v[i] exactly where KeptByPadWithZero holds and leaves 0 elsewhere |
| Padding.LibPadAt | assignments/assignment2/cs231n/layers.py:118 | the entry numpy's pad produces with the callback: the zero padding of x when pad > 0, and 0 when pad == 0 |
| Padding.ExtendedColumn | assignments/assignment2/cs231n/layers.py:118 | column s of the plane after numpy extends axis 0 and runs the callback along it: length H+2·pad, entry r is the padded value |
| Padding.ColumnsPadded | assignments/assignment2/cs231n/layers.py:118 | row r of the plane after the callback has run along axis 0, extended along axis 1: length W+2·pad |
| Padding.LibPadAppliesCallback | assignments/assignment2/cs231n/layers.py:118 | LibPadAt is what the callback as written produces when applied along axis 0 and then along axis 1 of the extended plane |
| Padding.PadMatrix | assignments/assignment2/cs231n/layers.py:114-119 | `pad_matrix` as written: the zero padding of x for pad > 0; all zeros for pad == 0 |
| Padding.WritePlane | assignments/assignment2/cs231n/layers.py:118 | writes plane (i, j) with the padded-and-cleared entries, nothing else changes |
| Padding.PadMatrixMeaning | assignments/assignment2/cs231n/layers.py:114-119 | the entries numpy's callback-driven pad produces are the zero padding (pad > 0) or all zero (pad == 0) |
| Slices.SumPlaced | assignments/assignment2/cs231n/layers.py:289 | a plane holding an h × w block at (r0, s0) and zeros elsewhere adds up to the block's total |
| Slices.AddRow | assignments/assignment2/cs231n/layers.py:210 | `a[n, c, r, s0:s0+len(v)] += v`: that row segment gains v entry by entry, nothing else changes |
| Slices.AddBlock | assignments/assignment2/cs231n/layers.py:210 | `a[n, c, r0:r0+h, s0:s0+w] += b`: each position under the block gains its entry, nothing else changes |
| Slices.WriteRow | assignments/assignment2/cs231n/layers.py:289 | `a[n, c, r, s0:s0+len(v)] = v`: that row segment becomes v, nothing else changes |
| Slices.WriteBlock | assignments/assignment2/cs231n/layers.py:289 | `a[n, c, r0:r0+h, s0:s0+w] = b`: each position under the block takes its entry, nothing else changes |
| ConvForward.ConvGeometry | assignments/assignment2/cs231n/layers.py:154-155 | window geometry (HH, WW, stride, Hs, Ws) with every window inside the padded image and Hs, Ws maximal |
| ConvForward.ColumnEntryAt | assignments/assignment2/cs231n/layers.py:161 | entry ((c·HH+p)·WW+q, i·Hs·Ws+j·Ws+k) of the column matrix is `X_pad[i,c,j·stride+p,k·stride+q]` |
| ConvForward.AllColumnsDone | assignments/assignment2/cs231n/layers.py:158-161 | once every column is written, every window entry sits at its flattened row and column |
| ConvForward.GatherColumn | assignments/assignment2/cs231n/layers.py:161 | writes one column of X_col with the flattened window, nothing else changes |
| ConvForward.GatherChannel | assignments/assignment2/cs231n/layers.py:161 | writes the rows of one channel of a window's column, nothing else changes |
| ConvForward.Im2Col | assignments/assignment2/cs231n/layers.py:156-161 | the triple loop fills X_col (shape C·HH·WW × N·Hs·Ws) with every window of X_pad |
| ConvForward.FilterDotColumnIsConvSum | assignments/assignment2/cs231n/layers.py:163 | the matrix product entry equals the convolution sum over (c, p, q) |
| ConvForward.ProductsMatch | assignments/assignment2/cs231n/layers.py:163 | the flat products enumerate the window products in (c, p, q) order |
| ConvForward.ProductAt | assignments/assignment2/cs231n/layers.py:163 | one flat product is the matching window product |
| ConvForward.FilterRowAt | assignments/assignment2/cs231n/layers.py:153 | `w.reshape(F, -1)[f, (c·HH+p)·WW+q] == w[f,c,p,q]` |
| ConvForward.ConvForwardNaive | assignments/assignment2/cs231n/layers.py:149-164 | X_pad is the zero padding, X_col the window matrix, out has shape (N, F, Hs, Ws) and `out[n,f,j,k] == b[f] + Σ_{c,p,q} w[f,c,p,q]·X_pad[n,c,j·stride+p,k·stride+q]` |
| Scatter.UncoveredStaysZero | assignments/assignment2/cs231n/layers.py:203-210 | a position no window covers receives nothing from the scatter |
| Scatter.UncoveredRowZero | assignments/assignment2/cs231n/layers.py:206-210 | along one window row, an uncovered position receives nothing |
| Scatter.DisjointWindowsScatterOnce | assignments/assignment2/cs231n/layers.py:204-210 | with non-overlapping windows a covered position receives exactly its one window's entry |
| Scatter.DisjointRowScatter | assignments/assignment2/cs231n/layers.py:206-210 | along a window row, only the covering window adds anything |
| Scatter.OtherWindowAddsNothing | assignments/assignment2/cs231n/layers.py:210 | with non-overlapping windows, a non-covering window adds zero |
| Scatter.ChannelBlock | assignments/assignment2/cs231n/layers.py:210 | channel c of column col reshaped to (HH, WW): entry (p, q) is `dx_col[(c·HH+p)·WW+q, col]` |
| Scatter.PlacedIsScatterTerm | assignments/assignment2/cs231n/layers.py:210 | placed at window (j, k), that block adds at every position exactly what the window contributes there |
| Scatter.AddWindowChannel | assignments/assignment2/cs231n/layers.py:210 | adds one channel of a column, reshaped, into its window (`+=`): each position gains its scatter term, nothing else changes |
| Scatter.AddWindow | assignments/assignment2/cs231n/layers.py:210 | adds a whole column into its window of image i |
| Scatter.ScatterImage | assignments/assignment2/cs231n/layers.py:205-210 | the (j, k) loops add every window of image i |
| Scatter.Col2Im | assignments/assignment2/cs231n/layers.py:203-210 | from zeros, `dx_pad[n,c,r,s]` ends as the sum over all windows of what each adds at (c, r, s) |
| ConvBackward.DoutReAt | assignments/assignment2/cs231n/layers.py:199-200 | `dout_re[f, n·Hs·Ws+j·Ws+k] == dout[n,f,j,k]` |
| ConvBackward.BiasGradIsRowSum | assignments/assignment2/cs231n/layers.py:198 | `db[f]` (sum over axes 0, 2, 3) equals the sum of row f of dout_re |
| ConvBackward.FilterGradProductIsWindowSum | assignments/assignment2/cs231n/layers.py:201 | the product entry `(dout_re·X_colᵀ)[f, (c·HH+p)·WW+q]` equals dw[f,c,p,q] as a window sum |
| ConvBackward.DoutTimesWindowMatch | assignments/assignment2/cs231n/layers.py:201 | the flat products enumerate the window products in (n, j, k) order |
| ConvBackward.DoutTimesColumnAt | assignments/assignment2/cs231n/layers.py:201 | where dout_re holds dout[n,f,j,k] and X_col holds the window entry, the flat product is the window product dout[n,f,j,k]·X_pad[n,c,j·stride+p,k·stride+q] |
| ConvBackward.ColumnGradAt | assignments/assignment2/cs231n/layers.py:202 | `dx_col[(c·HH+p)·WW+q, n·Hs·Ws+j·Ws+k] == Σ_f w[f,c,p,q]·dout[n,f,j,k]` |
| ConvBackward.CropExtentAsWritten | assignments/assignment2/cs231n/layers.py:212 | the extent of the slice `pad:-pad` never exceeds the axis |
| ConvBackward.CropAsWrittenExtent | assignments/assignment2/cs231n/layers.py:212 | `pad:-pad` keeps H rows for pad > 0 and none for pad == 0 |
| ConvBackward.CropAsWritten | assignments/assignment2/cs231n/layers.py:212 | the crop as written: shifted interior for pad > 0, an empty array for pad == 0 |
| ConvBackward.Crop | assignments/assignment2/cs231n/layers.py:212 | corrected crop: shape (N, C, H, W), `dx[n,c,h,v] == dx_pad[n,c,h+pad,v+pad]` for every pad |
| ConvBackward.BiasGradient | assignments/assignment2/cs231n/layers.py:198 | db has F entries, each the sum of dout over n, j, k |
| ConvBackward.FilterGradient | assignments/assignment2/cs231n/layers.py:201 | dw has w's shape and `dw[f,c,p,q] == Σ_{n,j,k} dout[n,f,j,k]·X_pad[n,c,j·stride+p,k·stride+q]` |
| ConvBackward.ColumnGradient | assignments/assignment2/cs231n/layers.py:202 | dx_col has X_col's shape and each entry is the sum over filters |
| ConvBackward.ConvBackwardNaive | assignments/assignment2/cs231n/layers.py:189-212 | db, dw, dx_col as above; dx has x's shape and is the interior of the scatter of dx_col (corrected crop) |
| Extrema.Max | assignments/assignment2/cs231n/layers.py:250 | `np.max` of a row: no entry exceeds it and some entry equals it |
| Extrema.ArgMax | assignments/assignment2/cs231n/layers.py:281 | `np.argmax` of a row: holds the maximum and every earlier entry is strictly smaller |
| Extrema.FirstMaxIsArgMax | assignments/assignment2/cs231n/layers.py:281 | a position is the first maximum of a row iff it is where `np.argmax` lands |
| Extrema.ArgMaxUnique | assignments/assignment2/cs231n/layers.py:281 | the first maximum is the only position with those two properties |
| PoolForward.PoolGeometry | assignments/assignment2/cs231n/layers.py:241-242 | pooling geometry with every window inside x and Hs, Ws maximal |
| PoolForward.PoolEntryAt | assignments/assignment2/cs231n/layers.py:248 | entry (i·C·Hs·Ws+j·Hs·Ws+k·Ws+t, p·pw+q) of x_col is `x[i,j,k·ps+p,t·ps+q]` |
| PoolForward.AllPoolRowsDone | assignments/assignment2/cs231n/layers.py:244-248 | once every row is written, x_col is the window matrix of x |
| PoolForward.GatherWindow | assignments/assignment2/cs231n/layers.py:248 | writes one row of x_col with the flattened window, nothing else changes |
| PoolForward.GatherPlane | assignments/assignment2/cs231n/layers.py:246-248 | the (k, t) loops write the rows of plane (i, j); the rows before it keep their windows and the rows after it are untouched |
| PoolForward.GatherImage | assignments/assignment2/cs231n/layers.py:245-248 | the (j, k, t) loops for image i write the C·Hs·Ws rows of image i after those of the earlier images; the rows after image i are untouched |
| PoolForward.GatherWindows | assignments/assignment2/cs231n/layers.py:243-248 | the quadruple loop fills x_col (shape N·C·Hs·Ws × ph·pw) with every window of x |
| PoolForward.RowMaxIsWindowMax | assignments/assignment2/cs231n/layers.py:250-251 | the maximum of row r of x_col is the maximum of window (n, c, k, t) of x |
| PoolForward.MaxPoolForwardNaive | assignments/assignment2/cs231n/layers.py:237-251 | out has shape (N, C, Hs, Ws); `out[n,c,k,t]` is ≥ every entry of its window and equal to one |
| PoolBackward.DoutFlatAt | assignments/assignment2/cs231n/layers.py:283 | `dout.reshape(-1)[n·C·Hs·Ws+c·Hs·Ws+k·Ws+t] == dout[n,c,k,t]` |
| PoolBackward.RoutedGrad | assignments/assignment2/cs231n/layers.py:281-283 | entry `col` of routed row r is dout_flat[r] when `col` is the first maximum of x_col's row r and 0 otherwise |
| PoolBackward.RouteGradient | assignments/assignment2/cs231n/layers.py:281-283 | dx_col has x_col's shape; row r is dout_flat[r] at the first argmax of row r and zero elsewhere |
| PoolBackward.RoutedToFirstMax | assignments/assignment2/cs231n/layers.py:281-283 | in window (n, c, k, t), offset (p, q) receives dout[n,c,k,t] exactly when it is the window's first maximum |
| PoolBackward.ArgMaxIsFirstWindowMax | assignments/assignment2/cs231n/layers.py:281 | where `argmax` of a window's row lands, that offset is the window's first maximum in row-major order |
| PoolBackward.RowBlock | assignments/assignment2/cs231n/layers.py:289 | row `row` of dx_col reshaped to (ph, pw): entry (p, q) is `dx_col[row, p·pw+q]` |
| PoolBackward.PlacedIsPoolTerm | assignments/assignment2/cs231n/layers.py:289 | placed at window (k, t), that block lies exactly over the window and carries its routed term at every position |
| PoolBackward.WriteWindow | assignments/assignment2/cs231n/layers.py:289 | writes one routed row into its window with `=`, nothing else changes |
| PoolBackward.WritePlaneWindows | assignments/assignment2/cs231n/layers.py:287-289 | the (k, t) loops as written: the last covering window decides each entry of the plane |
| PoolBackward.AddWindow | assignments/assignment2/cs231n/layers.py:289 | corrected step: adds one routed row into its window (`+=`) |
| PoolBackward.AddPlaneWindows | assignments/assignment2/cs231n/layers.py:287-289 | corrected (k, t) loops: each entry of the plane is the sum over covering windows |
| PoolBackward.WriteAllPlanes | assignments/assignment2/cs231n/layers.py:285-289 | the quadruple loop as written, from zeros |
| PoolBackward.AddAllPlanes | assignments/assignment2/cs231n/layers.py:285-289 | the corrected quadruple loop, from zeros |
| PoolBackward.MaxPoolBackwardNaive | assignments/assignment2/cs231n/layers.py:274-289 | as written: dx_col routed to first maxima; dx has x's shape; each entry is what the last covering window carries |
| PoolBackward.MaxPoolBackward | assignments/assignment2/cs231n/layers.py:274-289 | corrected: the same routing, each dx entry the sum of what all covering windows carry |
| PoolBackward.UncoveredStaysZero | assignments/assignment2/cs231n/layers.py:284-289 | a position no window covers stays 0 in both versions |
| PoolBackward.UncoveredRow | assignments/assignment2/cs231n/layers.py:288-289 | along a window row, an uncovered position is untouched in both versions |
| PoolBackward.DisjointWindowsAgree | assignments/assignment2/cs231n/layers.py:285-289 | with non-overlapping windows both versions leave the one covering window's term |
| PoolBackward.DisjointRow | assignments/assignment2/cs231n/layers.py:288-289 | along a window row, with non-overlapping windows, only the covering window's term remains |
| PoolBackward.DisjointWindowsRouteOnce | assignments/assignment2/cs231n/layers.py:281-289 | with ps ≥ ph and ps ≥ pw, `=` and `+=` agree, and a covered position gets dout of its window exactly when it is the window's first maximum, else 0 |
| PoolBackward.OverlappingWindowsLoseGradient | assignments/assignment2/cs231n/layers.py:285-289 | when two windows overlap at a position, `=` keeps only the second window's term while the sum keeps both; they differ whenever the first is non-zero |
| PoolGradientSum.TermPlaneSum | assignments/assignment2/cs231n/layers.py:289 | the plane that one window's routed row adds (zeros off the window) sums to the total of that row of dx_col |
| PoolGradientSum.RowAddedSum | assignments/assignment2/cs231n/layers.py:288-289 | after windows (k, 0) .. (k, t−1) of the `+=` pass, the plane's total is the sum of those windows' row totals |
| PoolGradientSum.RowsAddedSum | assignments/assignment2/cs231n/layers.py:287-289 | after window rows 0 .. k−1 of the `+=` pass, the plane's total is the sum of all their windows' row totals |
| PoolGradientSum.RoutedWindowTotal | assignments/assignment2/cs231n/layers.py:281-283 | the routed row of window (n, c, k, t) sums to dout[n,c,k,t]: argmax routing keeps the whole upstream gradient |
| PoolGradientSum.AddedGradientConserved | assignments/assignment2/cs231n/layers.py:281-289 | corrected `+=` pass, any stride: each plane of dx sums to the same total as that plane of dout |
| PoolGradientSum.DisjointWrittenIsAdded | assignments/assignment2/cs231n/layers.py:285-289 | with ps ≥ ph and ps ≥ pw, every entry of the as-written `=` result equals the `+=` result |
| PoolGradientSum.WrittenGradientConserved | assignments/assignment2/cs231n/layers.py:281-289 | as written, with non-overlapping windows: each plane of dx sums to that plane of dout |
| Relu.ReluForward | assignments/assignment2/cs231n/layers.py:80 | each output entry is ≥ 0, ≥ the input, and equal to one of them, i.e. `max(x, 0)` |
| Relu.ReluForwardIdempotent | assignments/assignment2/cs231n/layers.py:80 | applying the unit twice is applying it once |
| Relu.ReluBackward | assignments/assignment2/cs231n/layers.py:103 | `dx[i] == dout[i]` where `x[i] > 0`, and 0 elsewhere |
| Relu.ReluBackwardMasksZeros | assignments/assignment2/cs231n/layers.py:103 | the gradient is stopped exactly where the forward output is zero |
| Relu.ReluBackwardAdjoint | assignments/assignment2/cs231n/layers.py:103 | `⟨dx, x⟩ == ⟨dout, relu(x)⟩`: the backward pass is the adjoint of the forward pass at x |
| SvmLoss.MarginRow | assignments/assignment2/cs231n/layers.py:311-313 | margins are ≥ 0, zero at the label, and elsewhere the hinge `max(0, x[j] − x[y] + 1)` |
| SvmLoss.Margins | assignments/assignment2/cs231n/layers.py:311-313 | one margin row per example, each as long as its scores: 0 at the label, elsewhere ≥ 0, at least `x[i][j] − x[i][y[i]] + 1`, and either 0 or exactly that value |
| SvmLoss.MarginPositive | assignments/assignment2/cs231n/layers.py:312-313 | a margin is positive iff the class is not the label and scores above the label's score minus 1 |
| SvmLoss.MarginTotal | assignments/assignment2/cs231n/layers.py:314 | the total margin is ≥ 0, and 0 iff every margin is 0 |
| SvmLoss.Loss | assignments/assignment2/cs231n/layers.py:314 | `loss = Σ margins / N` is ≥ 0 |
| SvmLoss.LossZeroIff | assignments/assignment2/cs231n/layers.py:312-314 | the loss is 0 iff every example scores its label at least 1 above every other class |
| SvmLoss.PositiveCount | assignments/assignment2/cs231n/layers.py:315 | `num_pos` of a row is at most its length |
| SvmLoss.IndicatorSum | assignments/assignment2/cs231n/layers.py:315 | the indicator sums to `num_pos` |
| SvmLoss.GradientRow | assignments/assignment2/cs231n/layers.py:316-319 | dx row: 1/N at each positive-margin class, −num_pos/N at the label, 0 elsewhere |
| SvmLoss.Gradient | assignments/assignment2/cs231n/layers.py:315-319 | dx has x's shape; dx[i][y[i]] is −num_pos/N and every other dx[i][j] is 1/N where the margin is positive, else 0 |
| SvmLoss.GradientRowSum | assignments/assignment2/cs231n/layers.py:315-319 | a gradient row built from margins with 0 at the label sums to 0 |
| SvmLoss.GradientRowSumsToZero | assignments/assignment2/cs231n/layers.py:315-319 | every row of dx sums to 0 |
| Affine.Transpose | assignments/assignment2/cs231n/layers.py:55-56 | `m.T`: `cols` rows, each as long as m, entry (j, i) is `m[i][j]` |
| Affine.AffineForward | assignments/assignment2/cs231n/layers.py:25-26 | out has shape (N, M) and `out[i][j] == x[i] · w[:, j] + b[j]` |
| Affine.AffineBackward | assignments/assignment2/cs231n/layers.py:54-58 | shapes (N, D), (D, M), (M); `dx[i][d] == dout[i] · w[d]`, `dw[d][j] == x[:, d] · dout[:, j]`, `db[j] == Σ_i dout[i][j]` |
| Affine.BilinearSwap | assignments/assignment2/cs231n/layers.py:55-56 | `u · v.dot(w) == v · u.dot(w.T)` |
| Affine.InnerTranspose | assignments/assignment2/cs231n/layers.py:55 | `(b * q).sum() == (b.T * q.T).sum()` |
| Affine.InnerMatMulRight | assignments/assignment2/cs231n/layers.py:56 | `(a * b.dot(c)).sum() == (b * a.dot(c.T)).sum()`, the identity behind `dx = dout.dot(w.T)` |
| Affine.InnerMatMulLeft | assignments/assignment2/cs231n/layers.py:55 | `(a * b.dot(c)).sum() == (c * b.T.dot(a)).sum()`, the identity behind `dw = reshapeX.T.dot(dout)` |
| Affine.InnerBroadcast | assignments/assignment2/cs231n/layers.py:57 | `(a * b).sum()` with b broadcast `== np.sum(a, axis=0) · b`, the identity behind `db` |
| Affine.InnerPlus | assignments/assignment2/cs231n/layers.py:26 | `(a * (p + q)).sum() == (a * p).sum() + (a * q).sum()` |
| Affine.AffineBackwardIsGradient | assignments/assignment2/cs231n/layers.py:54-58 | `(dout * out).sum() == (x * dx).sum() + db · b == (w * dw).sum() + db · b`, where dx depends only on dout and w, dw only on dout and x: dx, dw, db are the gradients of the linear map dout · out |

## Left out

- `softmax_loss` is not modelled. It needs `exp` and `log`, which are transcendental floating-point functions with no exact model.
- Affine.AffineForward and Affine.AffineBackward take x in its `(N, D)` reshape and return dx in that shape. The reshapes to and from `(N, d_1, ..., d_k)` keep the row-major order and are not modelled.
- Floating-point rounding is not modelled. Element values are reals, and every formula is stated exactly.
- The model does not prove that the backward passes of the non-linear layers are derivatives of their forward passes. That is calculus with limits; only the formulas the code computes are modelled. The affine layer is linear in each argument, so there Affine.AffineBackwardIsGradient states the gradient identity exactly.
- numpy's shape errors become `requires` clauses:
  - mismatched tensor shapes;
  - a window larger than the (padded) input, where the source's output size comes out 0 or negative;
  - a zero stride, which the source rejects by dividing by zero.
- PoolForward.MaxPoolForwardNaive: requires at least one channel (C > 0). With C == 0 the source returns empty arrays. The model decodes row indices by dividing by C and does not cover that case. The same holds for the pooling members of PoolBackward.
- ConvForward.ConvForwardNaive: requires a filter of positive height and width (HH > 0 and WW > 0), and so do ConvForward.ConvGeometry and ConvBackward.ConvBackwardNaive. The source has no such check: with a zero-extent filter every window is empty, X_col has no rows and `out` is the bias b broadcast over every position. That case is not covered.
- SvmLoss.Loss: requires at least one example. With N == 0 the source divides 0 by 0.
- Caches are explicit parameters. `conv_backward_naive` receives `X_col` and `X_pad`, and `max_pool_backward_naive` receives `x_col`, each with the property the forward pass establishes. The dictionaries `conv_param` / `pool_param` become plain parameters.
- `dx_col` is returned as an extra result by ConvBackwardNaive, MaxPoolBackwardNaive and MaxPoolBackward. This lets their contracts name it. The source keeps it local.
- PoolBackward.OverlappingWindowsLoseGradient states the discrepancy for a one-row, two-column window grid. The concrete input listed under Findings is described in its comment and is not evaluated in Dafny.

## Findings

| source | as written | input that shows it | evidently intended | confidence | as-written member | corrected member |
|---|---|---|---|---|---|---|
| assignments/assignment2/cs231n/layers.py:111 | `vector[-pad_width[1]:] = 0`: for a trailing width 0 the slice `[-0:]` is the whole vector | `pad_matrix(x, 0)` returns all zeros instead of x | clear only the last `pad_width[1]` entries (`vector[len(vector)-pad_width[1]:] = 0`) | high, not executed | Padding.PadMatrix, Padding.PadWithZeroClearsAllWhenNoTail | Padding.PadWithZeroFixed, Padding.Pad |
| assignments/assignment2/cs231n/layers.py:212 | `dx_pad[:, :, pad:-pad, pad:-pad]`: for pad 0 the stop `-0` is 0 and the slice is empty | `conv_backward_naive` with `conv_param['pad'] = 0` returns dx of shape (N, C, 0, 0) | crop to the interior, `pad:pad+H, pad:pad+W` | high, not executed | ConvBackward.CropAsWritten, ConvBackward.CropAsWrittenExtent | ConvBackward.Crop |
| assignments/assignment2/cs231n/layers.py:289 | each window's routed row is written into dx with `=`, so where pooling windows overlap the last window overwrites the others | x = [[[[0, 2, 1]]]], 1×2 windows, stride 1, dout = [[[[1, 1]]]]: dx = [0, 1, 0], the gradient is [0, 2, 0] | accumulate with `+=`, as the convolution's backward pass does | high, not executed | PoolBackward.MaxPoolBackwardNaive, PoolBackward.OverlappingWindowsLoseGradient | PoolBackward.MaxPoolBackward, PoolBackward.DisjointWindowsRouteOnce |
