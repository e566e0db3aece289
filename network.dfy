/** The two-layer network of q1c_neural.py: `forward`, which returns each
    example's predicted probability of its true class, and
    `forward_backward_prop`, which returns the cross-entropy cost and the
    gradient packed in the parameter layout.

    The activations come from modules this model does not include; they are
    parameters here (`Activations`), and the only thing assumed of them is
    that softmax keeps the shape of the row it is given. */
module Network {
  import opened Tensors
  import opened Outcomes
  import opened ParamLayout

  /** `sigmoid`, `sigmoid_grad` (in terms of the sigmoid's output),
      row-wise `softmax`, and `np.log`. */
  datatype Activations = Activations(
    sigmoid: real -> real,
    sigmoidGrad: real -> real,
    softmaxRow: seq<real> -> seq<real>,
    log: real -> real)

  /** Softmax returns a row as long as the one it was given. */
  ghost predicate ShapePreserving(act: Activations) {
    forall z: seq<real> :: |act.softmaxRow(z)| == |z|
  }

  /** `softmax(z)` applied to each row of `z`. */
  function Softmax(act: Activations, z: seq<seq<real>>, cols: nat): (r: seq<seq<real>>)
    requires ShapePreserving(act) && HasCols(z, cols)
    ensures IsMatrix(r, |z|, cols)
  {
    seq(|z|, i requires 0 <= i < |z| => act.softmaxRow(z[i]))
  }

  /** `data @ W1` is defined: each data row has Dx features. */
  predicate DataFits(data: seq<seq<real>>, d: Dims) {
    HasCols(data, d.dx)
  }

  /** The hidden activation `h = sigmoid(data @ W1 + b1)`, one row per example. */
  function Hidden(data: seq<seq<real>>, q: Params, d: Dims, act: Activations): (h: seq<seq<real>>)
    requires DataFits(data, d) && Shaped(q, d)
    ensures IsMatrix(h, |data|, d.h)
  {
    MapEntries(act.sigmoid, AddRow(MatMul(data, q.w1, d.h), q.b1[0]), d.h)
  }

  /** The output distribution `y_hat = softmax(h @ W2 + b2)`, one row per example. */
  function Predict(data: seq<seq<real>>, q: Params, d: Dims, act: Activations): (yHat: seq<seq<real>>)
    requires DataFits(data, d) && Shaped(q, d) && ShapePreserving(act)
    ensures IsMatrix(yHat, |data|, d.dy)
  {
    Softmax(act, AddRow(MatMul(Hidden(data, q, d, act), q.w2, d.dy), q.b2[0]), d.dy)
  }

  // ---------------------------------------------------------------------
  // True-class selection

  /** `np.argmax(v)`: a maximum entry's index, the first one when several
      entries tie, found by scanning from the left. */
  function Argmax(v: seq<real>): (k: nat)
    requires |v| > 0
    ensures k < |v|
    ensures forall j :: 0 <= j < |v| ==> v[j] <= v[k]
    ensures forall j :: 0 <= j < k ==> v[j] < v[k]
  {
    if |v| == 1 then 0
    else
      var k := Argmax(v[..|v| - 1]);
      if v[k] < v[|v| - 1] then |v| - 1 else k
  }

  /** The two properties of Argmax's contract pin down one index. */
  lemma ArgmaxUnique(v: seq<real>, k: nat)
    requires k < |v|
    requires forall j :: 0 <= j < |v| ==> v[j] <= v[k]
    requires forall j :: 0 <= j < k ==> v[j] < v[k]
    ensures Argmax(v) == k
  {
  }

  /** v is a one-hot row whose single 1 is at column c. */
  predicate IsOneHot(v: seq<real>, c: int) {
    0 <= c < |v| && v[c] == 1.0 && forall j :: 0 <= j < |v| && j != c ==> v[j] == 0.0
  }

  /** The argmax of a one-hot row is the position of its 1. */
  lemma OneHotArgmax(v: seq<real>, c: int)
    requires IsOneHot(v, c)
    ensures Argmax(v) == c
  {
  }

  /** Row i of `labels` exists, is not empty, and its argmax is a column of
      `y_hat`: `y_hat[i][np.argmax(labels[i])]` raises nothing. */
  predicate SelectsClass(labels: seq<seq<real>>, i: nat, dy: nat) {
    i < |labels| && |labels[i]| > 0 && Argmax(labels[i]) < dy
  }

  /** The exception `y_hat[i][np.argmax(labels[i])]` raises when row i does
      not select a class. */
  function LabelError(labels: seq<seq<real>>, i: nat, dy: nat): Error
    requires !SelectsClass(labels, i, dy)
  {
    if i < |labels| && |labels[i]| == 0 then EmptyArgmax else IndexOutOfRange
  }

  /** A one-hot labels row with its 1 among the Dy output columns selects
      that column. */
  lemma OneHotSelects(labels: seq<seq<real>>, i: nat, dy: nat)
    requires i < |labels| && |labels[i]| == dy && exists c :: IsOneHot(labels[i], c)
    ensures SelectsClass(labels, i, dy)
    ensures forall c :: IsOneHot(labels[i], c) ==> Argmax(labels[i]) == c
  {
    forall c | IsOneHot(labels[i], c)
      ensures Argmax(labels[i]) == c
    {
      OneHotArgmax(labels[i], c);
    }
  }

  /** `forward`: unpack the parameters, run the network, and read each
      example's probability of its true class off `y_hat`, filling the
      zero-initialised result one example at a time. */
  method Forward(data: seq<seq<real>>, labels: seq<seq<real>>, params: seq<real>, dims: Dims, act: Activations)
    returns (r: Result<seq<real>>)
    requires ShapePreserving(act)
    ensures Decode(params, dims).Failure? ==> r == Failure(Decode(params, dims).error)
    ensures Decode(params, dims).Success? && !DataFits(data, dims) ==> r == Failure(ShapeMismatch)
    ensures r.Success? <==>
      && Decode(params, dims).Success?
      && DataFits(data, dims)
      && forall i :: 0 <= i < |data| ==> SelectsClass(labels, i, dims.dy)
    ensures Decode(params, dims).Success? && DataFits(data, dims) && r.Failure? ==>
      exists i :: 0 <= i < |data| && !SelectsClass(labels, i, dims.dy)
        && (forall j :: 0 <= j < i ==> SelectsClass(labels, j, dims.dy))
        && r.error == LabelError(labels, i, dims.dy)
    ensures r.Success? ==>
      var yHat := Predict(data, Decode(params, dims).value, dims, act);
      && |r.value| == |data|
      && forall i :: 0 <= i < |data| ==>
           SelectsClass(labels, i, dims.dy) && r.value[i] == yHat[i][Argmax(labels[i])]
  {
    var q :- Unpack(params, dims);
    if !DataFits(data, dims) {
      return Failure(ShapeMismatch);
    }
    var yHat := Predict(data, q, dims, act);
    var res := new real[|data|](_ => 0.0);
    for i := 0 to |data|
      invariant forall j :: 0 <= j < i ==>
        SelectsClass(labels, j, dims.dy) && res[j] == yHat[j][Argmax(labels[j])]
    {
      if i >= |labels| {
        assert !SelectsClass(labels, i, dims.dy);
        return Failure(IndexOutOfRange);
      }
      if |labels[i]| == 0 {
        assert !SelectsClass(labels, i, dims.dy);
        return Failure(EmptyArgmax);
      }
      var k := Argmax(labels[i]);
      if k >= dims.dy {
        assert !SelectsClass(labels, i, dims.dy);
        return Failure(IndexOutOfRange);
      }
      res[i] := yHat[i][k];
    }
    return Success(res[..]);
  }

  // ---------------------------------------------------------------------
  // Cost and gradients

  /** The cross-entropy `-np.sum(labels * np.log(y_hat))`, summed over all
      examples and classes. */
  function Cost(labels: seq<seq<real>>, yHat: seq<seq<real>>, log: real -> real, cols: nat): real
    requires HasCols(yHat, cols) && IsMatrix(labels, |yHat|, cols)
  {
    -Sum(Flatten(Hadamard(labels, MapEntries(log, yHat, cols), cols)))
  }

  /** The log of each example's predicted probability of its class. */
  function TrueClassLogs(yHat: seq<seq<real>>, classes: seq<nat>, log: real -> real): (r: seq<real>)
    requires |classes| == |yHat| && forall i :: 0 <= i < |yHat| ==> classes[i] < |yHat[i]|
    ensures |r| == |yHat|
  {
    seq(|yHat|, i requires 0 <= i < |yHat| => log(yHat[i][classes[i]]))
  }

  /** Dotting a one-hot row with w picks w's entry at the row's 1. */
  lemma {:induction false} DotOneHot(v: seq<real>, w: seq<real>, c: int)
    requires IsOneHot(v, c) && |w| == |v|
    ensures Dot(v, w) == w[c]
  {
    if c == 0 {
      DotZeros(v[1..], w[1..]);
    } else {
      DotOneHot(v[1..], w[1..], c - 1);
    }
  }

  /** With one-hot labels, the cross-entropy is the negated sum of the logs
      of the probabilities predicted for the true classes. */
  lemma CostOneHot(labels: seq<seq<real>>, yHat: seq<seq<real>>, log: real -> real, cols: nat, classes: seq<nat>)
    requires HasCols(yHat, cols) && IsMatrix(labels, |yHat|, cols) && |classes| == |yHat|
    requires forall i :: 0 <= i < |yHat| ==> classes[i] < cols && IsOneHot(labels[i], classes[i])
    ensures Cost(labels, yHat, log, cols) == -Sum(TrueClassLogs(yHat, classes, log))
  {
    var logs := MapEntries(log, yHat, cols);
    var m := Hadamard(labels, logs, cols);
    SumFlatten(m);
    forall i | 0 <= i < |m|
      ensures RowSums(m)[i] == TrueClassLogs(yHat, classes, log)[i]
    {
      assert m[i] == Products(labels[i], logs[i]);
      SumProducts(labels[i], logs[i]);
      DotOneHot(labels[i], logs[i], classes[i]);
    }
    assert RowSums(m) == TrueClassLogs(yHat, classes, log);
  }

  /** The cost in terms of what `forward` returns: when `res[i]` is the
      prediction at the argmax of each one-hot label row, the cross-entropy is
      the negated sum of the logs of `res`. */
  lemma CostOfForward(labels: seq<seq<real>>, yHat: seq<seq<real>>, log: real -> real, cols: nat,
                      classes: seq<nat>, res: seq<real>)
    requires HasCols(yHat, cols) && IsMatrix(labels, |yHat|, cols)
    requires |classes| == |yHat| && |res| == |yHat|
    requires forall i :: 0 <= i < |yHat| ==> classes[i] < cols && IsOneHot(labels[i], classes[i])
    requires forall i :: 0 <= i < |yHat| ==> res[i] == yHat[i][Argmax(labels[i])]
    ensures Cost(labels, yHat, log, cols) == -Sum(seq(|res|, i requires 0 <= i < |res| => log(res[i])))
  {
    CostOneHot(labels, yHat, log, cols, classes);
    forall i | 0 <= i < |yHat|
      ensures Argmax(labels[i]) == classes[i]
    {
      OneHotArgmax(labels[i], classes[i]);
    }
    assert TrueClassLogs(yHat, classes, log) == seq(|res|, i requires 0 <= i < |res| => log(res[i]));
  }

  /** With one-hot labels and a log that is never positive on the predicted
      true-class probabilities (as on (0, 1]), the cost is not negative. */
  lemma CostNonNegative(labels: seq<seq<real>>, yHat: seq<seq<real>>, log: real -> real, cols: nat, classes: seq<nat>)
    requires HasCols(yHat, cols) && IsMatrix(labels, |yHat|, cols) && |classes| == |yHat|
    requires forall i :: 0 <= i < |yHat| ==> classes[i] < cols && IsOneHot(labels[i], classes[i])
    requires forall i :: 0 <= i < |yHat| ==> log(yHat[i][classes[i]]) <= 0.0
    ensures Cost(labels, yHat, log, cols) >= 0.0
  {
    CostOneHot(labels, yHat, log, cols, classes);
    SumNonPositive(TrueClassLogs(yHat, classes, log));
  }

  /** The documented condition for a non-negative cost: every prediction is a
      probability in (0, 1], on which the log is never positive. */
  lemma CostNonNegativeOnProbabilities(labels: seq<seq<real>>, yHat: seq<seq<real>>, log: real -> real,
                                       cols: nat, classes: seq<nat>)
    requires HasCols(yHat, cols) && IsMatrix(labels, |yHat|, cols) && |classes| == |yHat|
    requires forall i :: 0 <= i < |yHat| ==> classes[i] < cols && IsOneHot(labels[i], classes[i])
    requires forall i, j :: 0 <= i < |yHat| && 0 <= j < cols ==> 0.0 < yHat[i][j] <= 1.0
    requires forall x :: 0.0 < x <= 1.0 ==> log(x) <= 0.0
    ensures Cost(labels, yHat, log, cols) >= 0.0
  {
    forall i | 0 <= i < |yHat|
      ensures log(yHat[i][classes[i]]) <= 0.0
    {
      assert 0.0 < yHat[i][classes[i]] <= 1.0;
    }
    CostNonNegative(labels, yHat, log, cols, classes);
  }

  /** The four gradients, the biases' as the 1-D column sums. */
  datatype Gradients = Gradients(w1: seq<seq<real>>, b1: seq<real>, w2: seq<seq<real>>, b2: seq<real>)

  /** The backward pass, given the forward pass's `h` and `y_hat`:
      gradW2 = h.T @ (y_hat - labels), gradb2 its column sum,
      delta = ((y_hat - labels) @ W2.T) * sigmoid_grad(h),
      gradW1 = data.T @ delta, gradb1 the column sum of delta.
      Each gradient has the shape of the parameter it belongs to. */
  function Backprop(data: seq<seq<real>>, labels: seq<seq<real>>, w2: seq<seq<real>>,
                    h: seq<seq<real>>, yHat: seq<seq<real>>, d: Dims, sigmoidGrad: real -> real): (g: Gradients)
    requires DataFits(data, d) && IsMatrix(labels, |data|, d.dy) && IsMatrix(w2, d.h, d.dy)
    requires IsMatrix(h, |data|, d.h) && IsMatrix(yHat, |data|, d.dy)
    ensures IsMatrix(g.w1, d.dx, d.h) && |g.b1| == d.h
    ensures IsMatrix(g.w2, d.h, d.dy) && |g.b2| == d.dy
  {
    var err := Sub(yHat, labels, d.dy);
    var gradW2 := MatMul(Transpose(h, d.h), err, d.dy);
    var gradb2 := ColSum(err, d.dy);
    var delta := Hadamard(MatMul(err, Transpose(w2, d.dy), d.h), MapEntries(sigmoidGrad, h, d.h), d.h);
    var gradW1 := MatMul(Transpose(data, d.dx), delta, d.h);
    var gradb1 := ColSum(delta, d.h);
    Gradients(gradW1, gradb1, gradW2, gradb2)
  }

  /** A one-hot row sums to one. */
  lemma OneHotSum(v: seq<real>, c: int)
    requires IsOneHot(v, c)
    ensures Sum(v) == 1.0
  {
    DotOnes(v);
    DotSymmetric(Ones(|v|), v);
    DotOneHot(v, Ones(|v|), c);
  }

  /** When every predicted row sums to one (as softmax's rows do) and every
      label row is one-hot, the output-bias gradient sums to zero: the
      probability mass the prediction takes from the true class is exactly
      what it gives the others. */
  lemma OutputBiasGradientSumsToZero(data: seq<seq<real>>, labels: seq<seq<real>>, w2: seq<seq<real>>,
                                     h: seq<seq<real>>, yHat: seq<seq<real>>, d: Dims,
                                     sigmoidGrad: real -> real, classes: seq<nat>)
    requires DataFits(data, d) && IsMatrix(labels, |data|, d.dy) && IsMatrix(w2, d.h, d.dy)
    requires IsMatrix(h, |data|, d.h) && IsMatrix(yHat, |data|, d.dy)
    requires |classes| == |data| && forall i :: 0 <= i < |data| ==> IsOneHot(labels[i], classes[i])
    requires forall i :: 0 <= i < |data| ==> Sum(yHat[i]) == 1.0
    ensures Sum(Backprop(data, labels, w2, h, yHat, d, sigmoidGrad).b2) == 0.0
  {
    var err := Sub(yHat, labels, d.dy);
    SumColSum(err, d.dy);
    forall i | 0 <= i < |err|
      ensures RowSums(err)[i] == 0.0
    {
      assert err[i] == seq(|yHat[i]|, k requires 0 <= k < |yHat[i]| => yHat[i][k] - labels[i][k]);
      SumDifferences(yHat[i], labels[i]);
      OneHotSum(labels[i], classes[i]);
    }
    SumZeros(RowSums(err));
  }

  /** `forward_backward_prop`: unpack the parameters, run the network, and
      return the cost with the gradient stacked in the parameter layout, so
      that unpacking the gradient gives the four gradients and `grad[k]`
      belongs to the same tensor entry as `params[k]`. */
  method ForwardBackward(data: seq<seq<real>>, labels: seq<seq<real>>, params: seq<real>, dims: Dims, act: Activations)
    returns (r: Result<(real, seq<real>)>)
    requires ShapePreserving(act)
    ensures Decode(params, dims).Failure? ==> r == Failure(Decode(params, dims).error)
    ensures Decode(params, dims).Success? && r.Failure? ==> r.error == ShapeMismatch
    ensures r.Success? <==>
      && Decode(params, dims).Success?
      && DataFits(data, dims)
      && IsMatrix(labels, |data|, dims.dy)
    ensures r.Success? ==>
      var q := Decode(params, dims).value;
      var h := Hidden(data, q, dims, act);
      var yHat := Predict(data, q, dims, act);
      var g := Backprop(data, labels, q.w2, h, yHat, dims, act.sigmoidGrad);
      && r.value.0 == Cost(labels, yHat, act.log, dims.dy)
      && |r.value.1| == ParamCount(dims)
      && Decode(r.value.1, dims) == Success(Params(g.w1, [g.b1], g.w2, [g.b2]))
  {
    var q :- Unpack(params, dims);
    if !DataFits(data, dims) || !IsMatrix(labels, |data|, dims.dy) {
      return Failure(ShapeMismatch);
    }
    var h := Hidden(data, q, dims, act);
    var yHat := Predict(data, q, dims, act);
    var cost := Cost(labels, yHat, act.log, dims.dy);
    var g := Backprop(data, labels, q.w2, h, yHat, dims, act.sigmoidGrad);
    var grad := Stack(g.w1, g.b1, g.w2, g.b2);
    StackRoundTrip(g.w1, g.b1, g.w2, g.b2, dims);
    return Success((cost, grad));
  }
}
