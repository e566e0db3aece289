# A two-layer sigmoid/softmax network, modelled in Dafny

The file `q1c_neural.py` holds a two-layer neural network for classification.
A single flat parameter vector holds `W1` (`Dx x H`), `b1` (`1 x H`), `W2` (`H x Dy`) and `b2` (`1 x Dy`), in that order and row-major.
`forward` and `forward_backward_prop` unpack that vector with a running offset `ofs`.
They compute `h = sigmoid(data @ W1 + b1)` and `y_hat = softmax(h @ W2 + b2)`.
`forward` returns, for each example, the probability `y_hat[i][argmax(label[i])]` of its true class.
`forward_backward_prop` returns the cross-entropy cost and the gradient, stacked back into the parameter layout.
`sanity_check` fixes `N = 20` examples of dimensions `[10, 5, 10]` and draws one-hot labels.
It sizes the parameter vector as `(Dx+1)*H + (H+1)*Dy` and hands the objective to a gradient checker.

The model has five modules, one per file:

- `Tensors` (`tensors.dfy`) holds matrices as `seq<seq<real>>`.
  It has `Flatten` and `Reshape` (row-major, proved inverse), matrix product, transpose, column sums, elementwise operations and the sum lemmas the cost needs.
- `Outcomes` (`outcomes.dfy`) holds the exceptions numpy raises as values of `Error`, and a `Result` type.
- `ParamLayout` (`param_layout.dfy`) is the parameter-vector codec.
  - It has the block geometry.
  - `Unpack` is the imperative unpacking with the running offset, proved equal to the functional `Decode`.
  - It has the gradient `Stack`.
  - It proves that decoding and stacking are inverse.
- `Network` (`network.dfy`) is the forward pass, `Forward` and `ForwardBackward`.
  - It has argmax with numpy's first-maximum rule.
  - It has the cross-entropy `Cost` and the backward pass `Backprop`.
  - It proves lemmas connecting the cost and the gradients to one-hot labels.
- `SanityCheck` (`sanity_check.dfy`) holds the fixed sizes, the one-hot label construction and the objective evaluated at the sanity check's inputs.

`sigmoid`, `sigmoid_grad`, `softmax` and `np.log` live in modules that are not part of this model.
They are function-valued fields of an `Activations` value passed to every operation.
The model's types fix how they are applied.
`sigmoid`, `sigmoid_grad` and `np.log` act entry by entry, as functions from a real to a real.
`softmax` is applied to each row on its own, and maps a row to a row of the same length (`ShapePreserving`).
Nothing else is assumed of them.

## Model

| member | source | states |
|---|---|---|
| ParamLayout.Unpack | q1c_neural.py:17-27 | The unpacking with the running `ofs` gives exactly the functional decoding `Decode`: the same four tensors, or the same first reshape error. |
| ParamLayout.Decode | q1c_neural.py:21-27 | When the unpacking succeeds, the four tensors have shapes `Dx x H`, `1 x H`, `H x Dy` and `1 x Dy`. |
| ParamLayout.ReshapeSlice | q1c_neural.py:21-27 | `np.reshape(params[ofs:...], (rows, cols))`, which raises on a slice of the wrong length. `ParamLayout.DecodeBlockFits` states when it succeeds and `ParamLayout.DecodeBlockValue` what it gives. |
| ParamLayout.DecodeBlock | q1c_neural.py:21 | A reshaped slice that succeeds has the block's rows and columns. |
| ParamLayout.DecodeSucceedsIff | q1c_neural.py:21-27 | Unpacking succeeds exactly when the vector has at least `Dx*H + H + H*Dy + Dy` entries, because Python slices past the end are clamped rather than rejected. |
| ParamLayout.DecodeBlockFits | q1c_neural.py:21 | One block reshapes exactly when it is empty or its slice lies wholly inside the vector. |
| ParamLayout.DecodeFailsAtFirstShortBlock | q1c_neural.py:21-27 | A failed unpacking reports a reshape error for a block that does not fit, and every earlier block fits. |
| ParamLayout.LayoutPartition | q1c_neural.py:18-27 | The four blocks start at 0, each ends where the next starts, the last ends at the parameter count, and no index lies in two blocks. |
| ParamLayout.BlockOf | q1c_neural.py:18-27 | Every index below the parameter count lies in some block. |
| ParamLayout.BlockWithinLayout | q1c_neural.py:18-27 | No block ends past the parameter count. |
| ParamLayout.Slice | q1c_neural.py:21 | A Python slice `p[lo:hi]` has length `hi - lo`, clamped at the end of `p`. |
| ParamLayout.DecodeBlockValue | q1c_neural.py:21-27 | A block that fits is the row-major reshape of its slice. |
| ParamLayout.DecodeBlockAt | q1c_neural.py:21-27 | Entry `[i][j]` of a decoded block is `p[Start + i*Cols + j]`. |
| ParamLayout.DecodeW1At | q1c_neural.py:21 | `W1[i][j] == params[i*H + j]`. |
| ParamLayout.DecodeB1At | q1c_neural.py:23 | `b1[0][j] == params[Dx*H + j]`. |
| ParamLayout.DecodeW2At | q1c_neural.py:25 | `W2[i][j] == params[Dx*H + H + i*Dy + j]`. |
| ParamLayout.DecodeB2At | q1c_neural.py:27 | `b2[0][j] == params[Dx*H + H + H*Dy + j]`. |
| ParamLayout.DecodeTensors | q1c_neural.py:21-27 | Each tensor of a successful unpacking is the decoding of its own block. |
| ParamLayout.DecodePrefix | q1c_neural.py:21-27 | Entries past the parameter count are ignored: unpacking the vector equals unpacking its prefix of `ParamCount` entries. |
| ParamLayout.ShapedBlocks | q1c_neural.py:21-27 | The shape predicate on the four named tensors is the same as the per-block shape condition. |
| ParamLayout.Stack | q1c_neural.py:82-83 | The `np.concatenate` of the four flattened gradients. `ParamLayout.StackRoundTrip` states that it has `ParamCount` entries and unpacks into the four gradients. |
| ParamLayout.StackIsEncode | q1c_neural.py:82-83 | Stacking the four flattened gradients is the encoding of the parameters with the bias gradients as single rows. |
| ParamLayout.EncodeLength | q1c_neural.py:82-83 | Encoding well-shaped tensors gives exactly `ParamCount` entries. |
| ParamLayout.DecodeBlockOfFlatten | q1c_neural.py:21-27 | A block whose slice is a flattened matrix of the block's shape decodes to that matrix. |
| ParamLayout.FlattenedSizes | q1c_neural.py:82-83 | Each flattened tensor is as long as its block. |
| ParamLayout.DecodeEncode | q1c_neural.py:60-83 | Unpacking the encoding of well-shaped tensors gives those tensors back. |
| ParamLayout.EncodeDecode | q1c_neural.py:60-83 | Re-encoding a successful unpacking gives back the first `ParamCount` entries of the vector. |
| ParamLayout.StackRoundTrip | q1c_neural.py:72-83 | The stacked gradient has exactly `ParamCount` entries and unpacks into the four gradients in the parameters' own layout. So `grad[k]` and `params[k]` sit at the same entry of the same tensor. That the entry is the right derivative is not stated. |
| Tensors.Reshape | q1c_neural.py:21-27 | Reshaping `rows*cols` entries gives a `rows x cols` matrix. |
| Tensors.ReshapeAt | q1c_neural.py:21-27 | Reshape is row-major: entry `[i][j]` is `s[i*cols + j]`. |
| Tensors.Flatten | q1c_neural.py:82-83 | `.flatten()`, the rows concatenated. `Tensors.FlattenAt` states it is row-major and `Tensors.ReshapeFlatten` that reshaping undoes it. |
| Tensors.FlattenAt | q1c_neural.py:82-83 | Flatten is row-major: `Flatten(m)[i*cols + j] == m[i][j]`. |
| Tensors.FlattenLength | q1c_neural.py:82-83 | A flattened `rows x cols` matrix has `rows*cols` entries. |
| Tensors.ReshapeFlatten | q1c_neural.py:60-83 | Reshaping a flattened matrix gives it back. |
| Tensors.FlattenReshape | q1c_neural.py:60-83 | Flattening a reshaped vector gives it back. |
| Tensors.Transpose | q1c_neural.py:72-77 | `.T` swaps the indices: `t[j][i] == m[i][j]`, with shape `cols x rows`. |
| Tensors.TransposeTwice | q1c_neural.py:72-77 | Transposing twice gives the matrix back. |
| Tensors.MatMul | q1c_neural.py:68-77 | `a @ b` of an `m x k` and a `k x n` matrix is `m x n`. |
| Tensors.ColSum | q1c_neural.py:73-78 | `np.sum(m, axis=0)` has one entry per column. |
| Tensors.ColSumIsOnesProduct | q1c_neural.py:73-78 | The bias gradient `np.sum(m, axis=0)` is the product of a row of ones with `m`, the weight gradient of a constant input 1. |
| Tensors.SumColSum | q1c_neural.py:73 | Adding up the column sums gives the total of the row sums. |
| Tensors.SumFlatten | q1c_neural.py:70 | `np.sum` of a matrix is the sum of its row sums. |
| Tensors.SumProducts | q1c_neural.py:70 | The sum of an elementwise product of two rows is their inner product. |
| Tensors.Sub | q1c_neural.py:72-75 | `y_hat - labels` keeps the shape. |
| Tensors.Hadamard | q1c_neural.py:70-75 | The elementwise `*` keeps the shape. |
| Tensors.MapEntries | q1c_neural.py:68-75 | An elementwise function (`sigmoid`, `np.log`, `sigmoid_grad`) keeps the shape. |
| Tensors.AddRow | q1c_neural.py:30-32 | Broadcasting the bias row onto every row keeps the shape. |
| Network.Softmax | q1c_neural.py:32 | Row-wise softmax keeps the shape. |
| Network.Hidden | q1c_neural.py:30 | `h = sigmoid(data @ W1 + b1)` is `M x H`. |
| Network.Predict | q1c_neural.py:32 | `y_hat = softmax(h @ W2 + b2)` is `M x Dy`. |
| Network.Argmax | q1c_neural.py:36 | `np.argmax` of a non-empty row is an index into the row whose entry is a maximum. Every earlier entry is strictly smaller, so it is the first maximum. |
| Network.ArgmaxUnique | q1c_neural.py:36 | Any index that is a maximum and the first one is the argmax. |
| Network.OneHotArgmax | q1c_neural.py:36 | The argmax of a one-hot label row is the position of its 1. |
| Network.OneHotSelects | q1c_neural.py:36 | A one-hot label row of length `Dy` selects a class inside `y_hat`'s row. |
| Network.Forward | q1c_neural.py:11-38 | An unpacking error is propagated. Mismatched data gives a shape error. Otherwise `forward` succeeds exactly when every example's label row selects a class. If not, it fails with the error of the first example that does not. On success, `res[i] == y_hat[i][argmax(label[i])]` for every example. |
| Network.ForwardBackward | q1c_neural.py:41-85 | An unpacking error is propagated, and any later failure is a shape error. Success happens exactly when unpacking succeeds, `data` is `M x Dx` and `labels` is `M x Dy`. The cost is then the cross-entropy of `y_hat`. The gradient has exactly `ParamCount` entries and unpacks into the four back-propagated gradients. |
| Network.Cost | q1c_neural.py:70 | `-np.sum(labels * np.log(y_hat))`. Its meaning is stated by `Network.CostOneHot`, `Network.CostOfForward` and `Network.CostNonNegative`. |
| Network.Backprop | q1c_neural.py:72-78 | Each gradient has the shape of its parameter: `Dx x H`, `H`, `H x Dy`, `Dy`. |
| Network.TrueClassLogs | q1c_neural.py:70 | One log-probability per example. |
| Network.DotOneHot | q1c_neural.py:70 | The inner product with a one-hot row picks the entry at its 1. |
| Network.CostOneHot | q1c_neural.py:70 | With one-hot labels, the cross-entropy is minus the sum of the logs of the probabilities predicted for the true classes. |
| Network.CostOfForward | q1c_neural.py:34-36 | With one-hot labels, when `res[i] == y_hat[i][argmax(label[i])]` as `forward` returns it, the cross-entropy is minus the sum of `log(res[i])`. |
| Network.CostNonNegative | q1c_neural.py:70 | With one-hot labels and true-class logs that are not positive, the cost is not negative. |
| Network.CostNonNegativeOnProbabilities | q1c_neural.py:70 | With one-hot labels, every prediction in (0, 1] and a log that is not positive on (0, 1], the cost is not negative. |
| Network.OneHotSum | q1c_neural.py:50 | A one-hot label row sums to one. |
| Network.OutputBiasGradientSumsToZero | q1c_neural.py:73 | When every predicted row sums to one and every label row is one-hot, `gradb2` sums to zero. |
| SanityCheck.ParamVectorSize | q1c_neural.py:102-103 | `(Dx+1)*H + (H+1)*Dy` equals the layout's parameter count `Dx*H + H + H*Dy + Dy`. |
| SanityCheck.OneHotLabels | q1c_neural.py:98-100 | The labels built from zeros, with a 1 written at each example's drawn class, form an `N x Dy` matrix whose row `i` is one-hot at `classes[i]`. |
| SanityCheck.SanityCheck | q1c_neural.py:88-106 | For the sanity check's sizes and any drawn data, classes and parameters, the objective handed to the gradient checker succeeds. Its gradient is as long as the parameter vector. Its cost is minus the sum of the logs of the predicted probabilities of the drawn classes. |

## Left out

- `sigmoid`, `sigmoid_grad`, `softmax` and `np.log` are defined in modules outside this model. They are parameters. The model assumes that `sigmoid`, `sigmoid_grad` and `np.log` act entry by entry, and that `softmax` acts on each row separately and keeps its length. No numeric property of them is used. For example, that softmax rows sum to one is a hypothesis of `Network.OutputBiasGradientSumsToZero`, not a fact.
- Floating point: all arithmetic is on exact reals. Rounding, overflow, `inf` and `NaN` are not modelled. That includes numpy's argmax treating `NaN` as the maximum.
- `gradcheck_naive` lives in a module outside this model. `SanityCheck.SanityCheck` evaluates the objective it would be handed once, at the given parameters, and does not model the numerical gradient comparison.
- `np.random.randn` and `random.randint` are parameters of `SanityCheck.SanityCheck`: the data, the drawn classes and the parameter vector.
- The `print` call, `your_sanity_checks` and the `__main__` block only print or do nothing, so they are left out.
- numpy broadcasting is modelled only for the bias rows `b1` and `b2`. Label arrays whose shape differs from `M x Dy` are treated as a shape error in `forward_backward_prop`. Some of them numpy would broadcast instead of rejecting.
- Inputs are lists of rows, so the column count of a matrix with no rows cannot be seen. A `0 x c` data matrix is accepted for any `c`, where numpy checks `c == Dx`.
- Dimensions are natural numbers. Negative or non-integer dimensions, which numpy would reject or coerce, are not modelled.
- `forward`'s docstring calls the label an integer index. The code takes `np.argmax(label[i])` of a label row, and the model follows the code. Label rows cannot express the docstring's input, a vector of integer indices. On that input `np.argmax` of a scalar is 0, so `forward` would return `y_hat[i][0]` for every example (q1c_neural.py:14, 36). This reading of the code was not executed.
- A parameter vector longer than `Dx*H + H + H*Dy + Dy` is accepted: the slices are clamped and the extra entries are ignored (`ParamLayout.DecodePrefix`). The model follows the code, not a reading that requires the length to match exactly. A shorter vector fails at the first block that does not fit.
- `forward` and `forward_backward_prop` each repeat the same unpacking code. Both are modelled by the one method `ParamLayout.Unpack`.
- Network.Backprop: its contract states only the shapes of the gradients. That they are the true derivatives of the cost is not stated, because the activations are uninterpreted. `ParamLayout.StackRoundTrip` and `Network.OutputBiasGradientSumsToZero` state what the layout and the algebra give.
