/**
  The arithmetic part of image preprocessing: after the (opaque) greyscale
  conversion and LANCZOS resize to a 28 by 28 frame of 8-bit intensities,
  every intensity is divided by 255 and the frame is reshaped into the
  `(1, 28, 28, 1)` input tensor the classifier expects.
 */
module Preprocessing {
  import opened Grids

  /** Side of the square frame produced by the resize step (MNIST size). */
  const Side: nat := 28

  /** Largest 8-bit greyscale intensity; also the divisor used for scaling. */
  const MaxIntensity: nat := 255

  /** One pixel of a greyscale ('L' mode) image: an unsigned 8-bit value. */
  type Intensity = v: int | 0 <= v <= 255

  /** A batch of images: batch, height, width, channel, outermost first. */
  type Tensor = seq<seq<seq<seq<real>>>>

  /** `t` has shape `(1, Side, Side, 1)`. */
  predicate IsInputTensor(t: Tensor) {
    && |t| == 1
    && IsRect(t[0], Side, Side)
    && forall i, j :: 0 <= i < Side && 0 <= j < Side ==> |t[0][i][j]| == 1
  }

  /** All entries of `t` in row-major (C) order, like numpy's `ravel`. */
  function FlattenTensor(t: Tensor): seq<real> {
    Flatten(Flatten(Flatten(t)))
  }

  /** Division of one intensity by 255, exactly (no floating-point rounding). */
  function Scale(v: Intensity): (x: real)
    ensures 0.0 <= x <= 1.0
    ensures x == 0.0 <==> v == 0
    ensures x == 1.0 <==> v == MaxIntensity
  {
    v as real / MaxIntensity as real
  }

  /** Back from a scaled value to the nearest-below intensity count. */
  function Quantize(x: real): int {
    (x * MaxIntensity as real).Floor
  }

  /** Scaling loses nothing: the intensity is recovered from its scaled value. */
  lemma ScaleRoundTrip(v: Intensity)
    ensures Quantize(Scale(v)) == v
  {
  }

  /** Scaling is strictly monotone, so it keeps the order of intensities both ways. */
  lemma ScaleMonotone(a: Intensity, b: Intensity)
    ensures a <= b <==> Scale(a) <= Scale(b)
    ensures a < b <==> Scale(a) < Scale(b)
  {
  }

  /** Element-wise scaling of one row. */
  function ScaleRow(s: seq<Intensity>): (r: seq<real>)
    ensures |r| == |s|
    ensures forall k :: 0 <= k < |s| ==> r[k] == Scale(s[k])
  {
    seq(|s|, k requires 0 <= k < |s| => Scale(s[k]))
  }

  /** Element-wise scaling of a whole frame (numpy's `array / 255.0`). */
  function ScaleGrid(g: seq<seq<Intensity>>): (r: seq<seq<real>>)
    ensures |r| == |g|
    ensures forall i :: 0 <= i < |g| ==> |r[i]| == |g[i]|
    ensures forall i, j :: 0 <= i < |g| && 0 <= j < |g[i]| ==> 0.0 <= r[i][j] <= 1.0
    ensures forall i, j :: 0 <= i < |g| && 0 <= j < |g[i]| ==> r[i][j] == Scale(g[i][j])
  {
    seq(|g|, i requires 0 <= i < |g| => ScaleRow(g[i]))
  }

  /** Scaling then flattening equals flattening then scaling. */
  lemma {:induction false} ScaleCommutesWithFlatten(g: seq<seq<Intensity>>)
    ensures Flatten(ScaleGrid(g)) == ScaleRow(Flatten(g))
    decreases |g|
  {
    if |g| > 0 {
      assert ScaleGrid(g)[1..] == ScaleGrid(g[1..]);
      ScaleCommutesWithFlatten(g[1..]);
      assert ScaleRow(Flatten(g)) == ScaleRow(g[0]) + ScaleRow(Flatten(g[1..]));
    }
  }

  /** Outcome of numpy's `reshape(1, 28, 28, 1)`: the tensor, or the element count it refused. */
  datatype Reshaped = Reshaped(tensor: Tensor) | SizeMismatch(size: nat)

  /**
    numpy's `reshape(1, Side, Side, 1)` of a two-dimensional array: the
    entries are read in row-major order and refilled into the new shape; an
    array whose element count is not `Side * Side` is refused.
   */
  function Reshape(a: seq<seq<real>>): (r: Reshaped)
    ensures r.Reshaped? <==> |Flatten(a)| == Side * Side
    ensures r.SizeMismatch? ==> r.size == |Flatten(a)|
    ensures r.Reshaped? ==> IsInputTensor(r.tensor)
  {
    var flat := Flatten(a);
    if |flat| != Side * Side then SizeMismatch(|flat|)
    else Reshaped([AddChannel(Rows(flat, Side, Side))])
  }

  /** Reshaping keeps every entry and their row-major order; it changes only the nesting. */
  lemma ReshapeKeepsOrder(a: seq<seq<real>>)
    requires Reshape(a).Reshaped?
    ensures FlattenTensor(Reshape(a).tensor) == Flatten(a)
  {
    var flat := Flatten(a);
    var g := AddChannel(Rows(flat, Side, Side));
    assert Flatten([g]) == g;
    FlattenAddChannel(Rows(flat, Side, Side));
    FlattenRows(flat, Side, Side);
    FlattenSingletons(flat);
  }

  /** A `Side` by `Side` frame always reshapes, and pixel `(i, j)` becomes entry `[0][i][j][0]`. */
  lemma ReshapeFrame(a: seq<seq<real>>)
    requires IsRect(a, Side, Side)
    ensures Reshape(a).Reshaped?
    ensures forall i, j :: 0 <= i < Side && 0 <= j < Side ==> Reshape(a).tensor[0][i][j][0] == a[i][j]
  {
    RowsFlatten(a, Side, Side);
    var t := Reshape(a).tensor;
    assert t[0] == AddChannel(a);
  }

  /**
    The post-resize steps of image preprocessing: scale the frame into
    `[0, 1]` and lay it out as a `(1, Side, Side, 1)` tensor.
   */
  function Preprocess(frame: seq<seq<Intensity>>): (t: Tensor)
    requires IsRect(frame, Side, Side)
    ensures IsInputTensor(t)
    ensures forall i, j :: 0 <= i < Side && 0 <= j < Side ==> t[0][i][j][0] == Scale(frame[i][j])
    ensures forall i, j :: 0 <= i < Side && 0 <= j < Side ==> 0.0 <= t[0][i][j][0] <= 1.0
    ensures FlattenTensor(t) == ScaleRow(Flatten(frame))
  {
    var scaled := ScaleGrid(frame);
    ReshapeFrame(scaled);
    ReshapeKeepsOrder(scaled);
    ScaleCommutesWithFlatten(frame);
    Reshape(scaled).tensor
  }
}
