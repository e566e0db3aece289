/** The layout of the network's flat parameter vector (q1c_neural.py).

    For dimensions (Dx, H, Dy) the vector holds, one after the other and
    each in row-major order, W1 of shape (Dx, H), b1 of shape (1, H), W2 of
    shape (H, Dy) and b2 of shape (1, Dy). `forward` and
    `forward_backward_prop` unpack it by advancing a running offset and
    reshaping Python slices (`Unpack`); the gradient is packed back into
    the same layout by concatenating the flattened gradients (`Stack`). */
module ParamLayout {
  import opened Tensors
  import opened Outcomes

  /** The dimension triple (Dx, H, Dy): input size, hidden size, output size. */
  datatype Dims = Dims(dx: nat, h: nat, dy: nat)

  /** The four tensors unpacked from a parameter vector. The biases keep the
      (1, n) shape `np.reshape` gives them. */
  datatype Params = Params(w1: seq<seq<real>>, b1: seq<seq<real>>, w2: seq<seq<real>>, b2: seq<seq<real>>) {
    function Tensor(b: Block): seq<seq<real>> {
      match b
      case W1 => w1
      case B1 => b1
      case W2 => w2
      case B2 => b2
    }
  }

  /** Number of entries the layout occupies: Dx*H + H + H*Dy + Dy. */
  function ParamCount(d: Dims): nat {
    d.dx * d.h + d.h + d.h * d.dy + d.dy
  }

  /** Position of a block in the layout. */
  function Index(b: Block): nat {
    match b
    case W1 => 0
    case B1 => 1
    case W2 => 2
    case B2 => 3
  }

  /** The shape each block is reshaped into. */
  function Rows(d: Dims, b: Block): nat {
    match b
    case W1 => d.dx
    case B1 => 1
    case W2 => d.h
    case B2 => 1
  }

  function Cols(d: Dims, b: Block): nat {
    match b
    case W1 => d.h
    case B1 => d.h
    case W2 => d.dy
    case B2 => d.dy
  }

  function Size(d: Dims, b: Block): nat {
    Rows(d, b) * Cols(d, b)
  }

  /** The value of the running offset `ofs` when block `b` is sliced. */
  function Start(d: Dims, b: Block): nat {
    match b
    case W1 => 0
    case B1 => Size(d, W1)
    case W2 => Size(d, W1) + Size(d, B1)
    case B2 => Size(d, W1) + Size(d, B1) + Size(d, W2)
  }

  function End(d: Dims, b: Block): nat {
    Start(d, b) + Size(d, b)
  }

  predicate InBlock(d: Dims, b: Block, k: nat) {
    Start(d, b) <= k < End(d, b)
  }

  /** The block that parameter index k falls in: every index below
      ParamCount(d) lies in some block. */
  function BlockOf(d: Dims, k: nat): (b: Block)
    requires k < ParamCount(d)
    ensures InBlock(d, b, k)
  {
    if k < End(d, W1) then W1
    else if k < End(d, B1) then B1
    else if k < End(d, W2) then W2
    else B2
  }

  /** The offsets step through the vector without gap or overlap: the blocks
      start at 0, each starts where the one before it ends, the last ends at
      ParamCount(d), and no index lies in two blocks. */
  lemma LayoutPartition(d: Dims)
    ensures Start(d, W1) == 0
    ensures End(d, W1) == Start(d, B1) && End(d, B1) == Start(d, W2) && End(d, W2) == Start(d, B2)
    ensures End(d, B2) == ParamCount(d)
    ensures forall b: Block, c: Block :: Index(b) < Index(c) ==> End(d, b) <= Start(d, c)
    ensures forall k: nat, b: Block, c: Block :: InBlock(d, b, k) && InBlock(d, c, k) ==> b == c
  {
  }

  /** Every block ends inside the layout. */
  lemma BlockWithinLayout(d: Dims, b: Block)
    ensures End(d, b) <= ParamCount(d)
  {
    LayoutPartition(d);
  }

  /** Python's `p[lo:hi]` for 0 <= lo <= hi: indices past the end are
      clamped, so a short vector yields a short (possibly empty) slice. */
  function Slice(p: seq<real>, lo: nat, hi: nat): (s: seq<real>)
    requires lo <= hi
    ensures |s| == (if hi <= |p| then hi - lo else if lo <= |p| then |p| - lo else 0)
  {
    var a := if lo <= |p| then lo else |p|;
    var b := if hi <= |p| then hi else |p|;
    p[a..b]
  }

  /** `np.reshape(p[lo:lo + rows*cols], (rows, cols))`, which raises when the
      slice came out short. */
  function ReshapeSlice(p: seq<real>, lo: nat, rows: nat, cols: nat, b: Block): Result<seq<seq<real>>> {
    var s := Slice(p, lo, lo + rows * cols);
    if |s| == rows * cols then Success(Reshape(s, rows, cols)) else Failure(ReshapeError(b))
  }

  function DecodeBlock(p: seq<real>, d: Dims, b: Block): (r: Result<seq<seq<real>>>)
    ensures r.Success? ==> IsMatrix(r.value, Rows(d, b), Cols(d, b))
  {
    ReshapeSlice(p, Start(d, b), Rows(d, b), Cols(d, b), b)
  }

  /** The unpacking, stated without the running offset: each block is the
      reshaped slice that starts where the blocks before it end. */
  function Decode(p: seq<real>, d: Dims): (r: Result<Params>)
    ensures r.Success? ==> Shaped(r.value, d)
  {
    var w1 :- DecodeBlock(p, d, W1);
    var b1 :- DecodeBlock(p, d, B1);
    var w2 :- DecodeBlock(p, d, W2);
    var b2 :- DecodeBlock(p, d, B2);
    Success(Params(w1, b1, w2, b2))
  }

  /** The unpacking as the source runs it: slice at the running offset
      `ofs`, reshape, advance `ofs` by the size of the slice. */
  method Unpack(params: seq<real>, dims: Dims) returns (r: Result<Params>)
    ensures r == Decode(params, dims)
  {
    var ofs := 0;
    var dx, h, dy := dims.dx, dims.h, dims.dy;

    var w1 :- ReshapeSlice(params, ofs, dx, h, W1);
    ofs := ofs + dx * h;
    var b1 :- ReshapeSlice(params, ofs, 1, h, B1);
    ofs := ofs + h;
    var w2 :- ReshapeSlice(params, ofs, h, dy, W2);
    ofs := ofs + h * dy;
    var b2 :- ReshapeSlice(params, ofs, 1, dy, B2);
    return Success(Params(w1, b1, w2, b2));
  }

  /** The four tensors have the shapes (Dx, H), (1, H), (H, Dy), (1, Dy). */
  predicate Shaped(q: Params, d: Dims) {
    && IsMatrix(q.w1, d.dx, d.h)
    && IsMatrix(q.b1, 1, d.h)
    && IsMatrix(q.w2, d.h, d.dy)
    && IsMatrix(q.b2, 1, d.dy)
  }

  /** `Shaped`, block by block. */
  lemma ShapedBlocks(q: Params, d: Dims)
    ensures Shaped(q, d) <==> forall b: Block :: IsMatrix(q.Tensor(b), Rows(d, b), Cols(d, b))
  {
    assert q.Tensor(W1) == q.w1 && q.Tensor(B1) == q.b1;
    assert q.Tensor(W2) == q.w2 && q.Tensor(B2) == q.b2;
  }

  /** A block's slice is complete: it is empty or ends inside the vector. */
  predicate Fits(p: seq<real>, d: Dims, b: Block) {
    Size(d, b) == 0 || End(d, b) <= |p|
  }

  lemma DecodeBlockFits(p: seq<real>, d: Dims, b: Block)
    ensures DecodeBlock(p, d, b).Success? <==> Fits(p, d, b)
  {
  }

  /** Unpacking succeeds exactly when the vector has at least ParamCount(d)
      entries; entries past that are accepted and ignored. */
  lemma DecodeSucceedsIff(p: seq<real>, d: Dims)
    ensures Decode(p, d).Success? <==> ParamCount(d) <= |p|
  {
    LayoutPartition(d);
    forall b: Block
      ensures DecodeBlock(p, d, b).Success? <==> Fits(p, d, b)
    {
      DecodeBlockFits(p, d, b);
    }
    if Decode(p, d).Success? {
      if d.dy == 0 {
        assert Size(d, W2) == 0 by { assert d.h * d.dy == 0; }
        if d.h == 0 {
          assert Size(d, W1) == 0 by { assert d.dx * d.h == 0; }
        }
      }
    } else {
      assert Start(d, B2) <= ParamCount(d);
    }
  }

  /** When unpacking fails it fails at the first block whose slice came out
      short, as the first `np.reshape` that raises. */
  lemma DecodeFailsAtFirstShortBlock(p: seq<real>, d: Dims)
    requires Decode(p, d).Failure?
    ensures Decode(p, d).error.ReshapeError?
    ensures !Fits(p, d, Decode(p, d).error.block)
    ensures forall c: Block :: Index(c) < Index(Decode(p, d).error.block) ==> Fits(p, d, c)
  {
    forall b: Block
      ensures DecodeBlock(p, d, b).Success? <==> Fits(p, d, b)
    {
      DecodeBlockFits(p, d, b);
    }
  }

  /** A block that fits is the reshape of its slice of the vector. */
  lemma DecodeBlockValue(p: seq<real>, d: Dims, b: Block)
    requires End(d, b) <= |p|
    ensures DecodeBlock(p, d, b) == Success(Reshape(p[Start(d, b)..End(d, b)], Rows(d, b), Cols(d, b)))
  {
  }

  /** A decoded block holds `p[Start(b) + i*Cols(b) + j]` at (i, j). */
  lemma DecodeBlockAt(p: seq<real>, d: Dims, b: Block, i: nat, j: nat)
    requires DecodeBlock(p, d, b).Success? && i < Rows(d, b) && j < Cols(d, b)
    ensures IsMatrix(DecodeBlock(p, d, b).value, Rows(d, b), Cols(d, b))
    ensures Start(d, b) + i * Cols(d, b) + j < |p|
    ensures DecodeBlock(p, d, b).value[i][j] == p[Start(d, b) + i * Cols(d, b) + j]
  {
    var rows, cols, st := Rows(d, b), Cols(d, b), Start(d, b);
    MulBound(i, j, rows, cols);
    var n := rows * cols;
    assert Size(d, b) == n;
    DecodeBlockFits(p, d, b);
    assert st + n <= |p|;
    var s := p[st..st + n];
    assert DecodeBlock(p, d, b).value == Reshape(s, rows, cols);
    ReshapeAt(s, rows, cols, i, j);
  }

  lemma W1Offset(d: Dims, i: nat, j: nat)
    requires i < d.dx && j < d.h
    ensures Rows(d, W1) == d.dx && Cols(d, W1) == d.h
    ensures Start(d, W1) + i * Cols(d, W1) + j == i * d.h + j
  {
  }

  lemma B1Offset(d: Dims, j: nat)
    requires j < d.h
    ensures Rows(d, B1) == 1 && Cols(d, B1) == d.h
    ensures Start(d, B1) + 0 * Cols(d, B1) + j == d.dx * d.h + j
  {
    ZeroMul(d.h);
  }

  lemma W2Offset(d: Dims, i: nat, j: nat)
    requires i < d.h && j < d.dy
    ensures Rows(d, W2) == d.h && Cols(d, W2) == d.dy
    ensures Start(d, W2) + i * Cols(d, W2) + j == d.dx * d.h + d.h + i * d.dy + j
  {
    OneMul(d.h);
  }

  lemma B2Offset(d: Dims, j: nat)
    requires j < d.dy
    ensures Rows(d, B2) == 1 && Cols(d, B2) == d.dy
    ensures Start(d, B2) + 0 * Cols(d, B2) + j == d.dx * d.h + d.h + d.h * d.dy + j
  {
    OneMul(d.h);
    ZeroMul(d.dy);
  }

  /** Row-major unpacking of W1: `W1[i][j] == params[i*H + j]`. */
  lemma DecodeW1At(p: seq<real>, d: Dims, i: nat, j: nat)
    requires Decode(p, d).Success? && i < d.dx && j < d.h
    ensures i * d.h + j < |p|
    ensures Decode(p, d).value.w1[i][j] == p[i * d.h + j]
  {
    DecodeTensors(p, d);
    W1Offset(d, i, j);
    DecodeBlockAt(p, d, W1, i, j);
  }

  /** Row-major unpacking of b1: `b1[0][j] == params[Dx*H + j]`. */
  lemma DecodeB1At(p: seq<real>, d: Dims, j: nat)
    requires Decode(p, d).Success? && j < d.h
    ensures d.dx * d.h + j < |p|
    ensures Decode(p, d).value.b1[0][j] == p[d.dx * d.h + j]
  {
    DecodeTensors(p, d);
    B1Offset(d, j);
    DecodeBlockAt(p, d, B1, 0, j);
  }

  /** Row-major unpacking of W2: `W2[i][j] == params[Dx*H + H + i*Dy + j]`. */
  lemma DecodeW2At(p: seq<real>, d: Dims, i: nat, j: nat)
    requires Decode(p, d).Success? && i < d.h && j < d.dy
    ensures d.dx * d.h + d.h + i * d.dy + j < |p|
    ensures Decode(p, d).value.w2[i][j] == p[d.dx * d.h + d.h + i * d.dy + j]
  {
    DecodeTensors(p, d);
    W2Offset(d, i, j);
    DecodeBlockAt(p, d, W2, i, j);
  }

  /** Row-major unpacking of b2: `b2[0][j] == params[Dx*H + H + H*Dy + j]`. */
  lemma DecodeB2At(p: seq<real>, d: Dims, j: nat)
    requires Decode(p, d).Success? && j < d.dy
    ensures d.dx * d.h + d.h + d.h * d.dy + j < |p|
    ensures Decode(p, d).value.b2[0][j] == p[d.dx * d.h + d.h + d.h * d.dy + j]
  {
    DecodeTensors(p, d);
    B2Offset(d, j);
    DecodeBlockAt(p, d, B2, 0, j);
  }

  /** Each unpacked tensor is the value of its block's reshape. */
  lemma DecodeTensors(p: seq<real>, d: Dims)
    requires Decode(p, d).Success?
    ensures forall b: Block :: DecodeBlock(p, d, b).Success? && Decode(p, d).value.Tensor(b) == DecodeBlock(p, d, b).value
  {
  }

  /** Only the first ParamCount(d) entries are read: unpacking a longer
      vector is unpacking its prefix. */
  lemma DecodePrefix(p: seq<real>, d: Dims)
    requires ParamCount(d) <= |p|
    ensures Decode(p, d) == Decode(p[..ParamCount(d)], d)
  {
    LayoutPartition(d);
    var p' := p[..ParamCount(d)];
    forall b: Block
      ensures DecodeBlock(p, d, b) == DecodeBlock(p', d, b)
    {
      BlockWithinLayout(d, b);
      DecodeBlockValue(p, d, b);
      DecodeBlockValue(p', d, b);
      assert p[Start(d, b)..End(d, b)] == p'[Start(d, b)..End(d, b)];
    }
  }

  // ---------------------------------------------------------------------
  // Packing

  /** The flat vector with the four tensors' flattenings in layout order. */
  function Encode(q: Params): seq<real> {
    Flatten(q.w1) + Flatten(q.b1) + Flatten(q.w2) + Flatten(q.b2)
  }

  /** The source's gradient stacking: `np.concatenate` of `gradW1.flatten()`,
      `gradb1.flatten()`, `gradW2.flatten()`, `gradb2.flatten()`, where the
      bias gradients are the 1-D column sums. */
  function Stack(gradW1: seq<seq<real>>, gradb1: seq<real>, gradW2: seq<seq<real>>, gradb2: seq<real>): seq<real> {
    Flatten(gradW1) + gradb1 + Flatten(gradW2) + gradb2
  }

  /** Stacking is packing the bias gradients as (1, n) rows. */
  lemma StackIsEncode(gradW1: seq<seq<real>>, gradb1: seq<real>, gradW2: seq<seq<real>>, gradb2: seq<real>)
    ensures Stack(gradW1, gradb1, gradW2, gradb2) == Encode(Params(gradW1, [gradb1], gradW2, [gradb2]))
  {
    FlattenSingleRow(gradb1);
    FlattenSingleRow(gradb2);
  }

  /** Tensors of the layout's shapes pack into exactly ParamCount(d) entries. */
  lemma EncodeLength(q: Params, d: Dims)
    requires Shaped(q, d)
    ensures |Encode(q)| == ParamCount(d)
  {
    FlattenedSizes(q, d);
    LayoutPartition(d);
  }

  /** A block whose slice of `p` is the flattening of `m` decodes to `m`. */
  lemma DecodeBlockOfFlatten(p: seq<real>, d: Dims, b: Block, m: seq<seq<real>>)
    requires IsMatrix(m, Rows(d, b), Cols(d, b))
    requires End(d, b) <= |p| && p[Start(d, b)..End(d, b)] == Flatten(m)
    ensures DecodeBlock(p, d, b) == Success(m)
  {
    DecodeBlockValue(p, d, b);
    ReshapeFlatten(m, Rows(d, b), Cols(d, b));
  }

  /** Each flattened tensor of a shaped Params is as long as its block. */
  lemma FlattenedSizes(q: Params, d: Dims)
    requires Shaped(q, d)
    ensures |Flatten(q.w1)| == Size(d, W1) && |Flatten(q.b1)| == Size(d, B1)
    ensures |Flatten(q.w2)| == Size(d, W2) && |Flatten(q.b2)| == Size(d, B2)
  {
    ShapedBlocks(q, d);
    forall b: Block
      ensures |Flatten(q.Tensor(b))| == Size(d, b)
    {
      FlattenLength(q.Tensor(b), Rows(d, b), Cols(d, b));
    }
    assert q.Tensor(W1) == q.w1 && q.Tensor(B1) == q.b1;
    assert q.Tensor(W2) == q.w2 && q.Tensor(B2) == q.b2;
  }

  /** Round trip: packing tensors of the layout's shapes and unpacking the
      result gives the same tensors back. */
  lemma DecodeEncode(q: Params, d: Dims)
    requires Shaped(q, d)
    ensures Decode(Encode(q), d) == Success(q)
  {
    var f1, f2, f3, f4 := Flatten(q.w1), Flatten(q.b1), Flatten(q.w2), Flatten(q.b2);
    FlattenedSizes(q, d);
    var p := f1 + f2 + f3 + f4;
    Concat4Slices(f1, f2, f3, f4);
    DecodeBlockOfFlatten(p, d, W1, q.w1);
    DecodeBlockOfFlatten(p, d, B1, q.b1);
    DecodeBlockOfFlatten(p, d, W2, q.w2);
    DecodeBlockOfFlatten(p, d, B2, q.b2);
  }

  /** Round trip the other way: packing what was unpacked gives back the
      part of the vector the layout covers. */
  lemma EncodeDecode(p: seq<real>, d: Dims)
    requires Decode(p, d).Success?
    ensures Encode(Decode(p, d).value) == p[..ParamCount(d)]
  {
    DecodeSucceedsIff(p, d);
    DecodeTensors(p, d);
    LayoutPartition(d);
    var q := Decode(p, d).value;
    forall b: Block
      ensures Flatten(q.Tensor(b)) == p[Start(d, b)..End(d, b)]
    {
      BlockWithinLayout(d, b);
      DecodeBlockValue(p, d, b);
      FlattenReshape(p[Start(d, b)..End(d, b)], Rows(d, b), Cols(d, b));
    }
    assert q.Tensor(W1) == q.w1 && q.Tensor(B1) == q.b1;
    assert q.Tensor(W2) == q.w2 && q.Tensor(B2) == q.b2;
    Slices4(p, End(d, W1), End(d, B1), End(d, W2), End(d, B2));
  }

  /** The stacked gradient has exactly the parameter vector's length, and
      unpacking it with the same dimensions gives the four gradients back,
      so `grad[k]` lines up with `params[k]`. */
  lemma StackRoundTrip(gradW1: seq<seq<real>>, gradb1: seq<real>, gradW2: seq<seq<real>>, gradb2: seq<real>, d: Dims)
    requires IsMatrix(gradW1, d.dx, d.h) && |gradb1| == d.h
    requires IsMatrix(gradW2, d.h, d.dy) && |gradb2| == d.dy
    ensures |Stack(gradW1, gradb1, gradW2, gradb2)| == ParamCount(d)
    ensures Decode(Stack(gradW1, gradb1, gradW2, gradb2), d) == Success(Params(gradW1, [gradb1], gradW2, [gradb2]))
  {
    var q := Params(gradW1, [gradb1], gradW2, [gradb2]);
    StackIsEncode(gradW1, gradb1, gradW2, gradb2);
    EncodeLength(q, d);
    DecodeEncode(q, d);
  }
}
