/** `sanity_check`: the fixed problem size, the one-hot labels drawn for it,
    the length of the parameter vector, and the objective that the gradient
    check is handed. The random draws arrive as parameters. */
module SanityCheck {
  import opened Tensors
  import opened Outcomes
  import opened ParamLayout
  import opened Network

  /** The number of examples. */
  const N: nat := 20

  /** Input dimension, hidden units, output dimension. */
  const Dimensions: Dims := Dims(10, 5, 10)

  /** The parameter count as the sanity check writes it: each layer's weights
      plus one bias row. */
  function ParamVectorSize(d: Dims): (n: nat)
    ensures n == ParamCount(d)
  {
    (d.dx + 1) * d.h + (d.h + 1) * d.dy
  }

  /** An n x dy matrix of zeros with a single 1 in row i, at column classes[i]. */
  method OneHotLabels(n: nat, dy: nat, classes: seq<nat>) returns (labels: seq<seq<real>>)
    requires |classes| == n && forall i :: 0 <= i < n ==> classes[i] < dy
    ensures IsMatrix(labels, n, dy)
    ensures forall i :: 0 <= i < n ==> IsOneHot(labels[i], classes[i])
  {
    var a := new real[n, dy]((i, j) => 0.0);
    for i := 0 to n
      invariant forall r, c :: 0 <= r < n && 0 <= c < dy ==>
        a[r, c] == (if r < i && c == classes[r] then 1.0 else 0.0)
    {
      a[i, classes[i]] := 1.0;
    }
    labels := seq(n, r requires 0 <= r < n reads a =>
      seq(dy, c requires 0 <= c < dy reads a => a[r, c]));
  }

  /** Builds the labels from the drawn classes and evaluates the objective
      the gradient check differentiates: it always succeeds, its gradient is
      as long as the parameter vector, and its cost is the negated sum of the
      logs of the probabilities predicted for the drawn classes. */
  method SanityCheck(data: seq<seq<real>>, classes: seq<nat>, params: seq<real>, act: Activations)
    returns (r: Result<(real, seq<real>)>)
    requires ShapePreserving(act)
    requires IsMatrix(data, N, Dimensions.dx)
    requires |classes| == N && forall i :: 0 <= i < N ==> classes[i] < Dimensions.dy
    requires |params| == ParamVectorSize(Dimensions)
    ensures r.Success? && |r.value.1| == |params|
    ensures
      && Decode(params, Dimensions).Success?
      && var yHat := Predict(data, Decode(params, Dimensions).value, Dimensions, act);
      r.value.0 == -Sum(TrueClassLogs(yHat, classes, act.log))
  {
    var labels := OneHotLabels(N, Dimensions.dy, classes);
    DecodeSucceedsIff(params, Dimensions);
    r := ForwardBackward(data, labels, params, Dimensions, act);
    var yHat := Predict(data, Decode(params, Dimensions).value, Dimensions, act);
    CostOneHot(labels, yHat, act.log, Dimensions.dy, classes);
  }
}
