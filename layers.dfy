/** The PyTorch layers the network is assembled from, reduced to what they
    do to the channel count of the tensor passing through them. A tensor is
    represented by its channel count alone; spatial size, batch size and the
    values themselves are not part of this model. */
module Layers {
  import opened Results

  /** The arguments of one `nn.Conv2d`. */
  datatype Conv2d = Conv2d(
    inChannels: int,
    outChannels: int,
    kernelSize: int,
    stride: int,
    padding: int,
    groups: int,
    bias: bool)

  /** A 1x1 `nn.Conv2d` with the library defaults (stride 1, padding 0,
      one group, with bias), used for channel projection. */
  function Pointwise(inChannels: int, outChannels: int): (c: Conv2d)
    ensures c.inChannels == inChannels && c.outChannels == outChannels
    ensures c.kernelSize == 1 && c.stride == 1 && c.padding == 0 && c.groups == 1 && c.bias
  {
    Conv2d(inChannels, outChannels, 1, 1, 0, 1, true)
  }

  /** A layer whose only effect on the channel count is a check or a
      replacement of the count. */
  datatype Layer =
    | Conv(conv: Conv2d)
    | BatchNorm(numFeatures: int)
    | Relu
    | HSwish
    | MaxPool(kernelSize: int, stride: int)
    | AvgPool(kernelSize: int)
    | View(width: int)          // x.view(-1, width), accepting exactly `width` channels
    | Linear(inFeatures: int, outFeatures: int)

  /** A convolution accepts exactly `inChannels` channels and yields `outChannels`. */
  function ConvOut(conv: Conv2d, channels: int): (r: Result<int>)
    ensures r.Ok? <==> channels == conv.inChannels
    ensures r.Ok? ==> r.value == conv.outChannels
    ensures r.Err? ==> r.error == ShapeMismatch
  {
    if channels == conv.inChannels then Ok(conv.outChannels) else Err(ShapeMismatch)
  }

  /** The channel count one layer produces from `channels`, or the error
      PyTorch raises when the count does not fit. Activations and pooling
      keep the count. */
  function LayerOut(layer: Layer, channels: int): (r: Result<int>)
    ensures r.Err? ==> r.error == ShapeMismatch
  {
    match layer
    case Conv(conv) => ConvOut(conv, channels)
    case BatchNorm(n) => if channels == n then Ok(channels) else Err(ShapeMismatch)
    case Relu => Ok(channels)
    case HSwish => Ok(channels)
    case MaxPool(_, _) => Ok(channels)
    case AvgPool(_) => Ok(channels)
    case View(w) => if channels == w then Ok(w) else Err(ShapeMismatch)
    case Linear(i, o) => if channels == i then Ok(o) else Err(ShapeMismatch)
  }

  /** The elementwise sum of two tensors: their channel counts must agree. */
  function Add(a: int, b: int): (r: Result<int>)
    ensures r.Ok? <==> a == b
    ensures r.Ok? ==> r.value == a
  {
    if a == b then Ok(a) else Err(ShapeMismatch)
  }

  /** `nn.Sequential` over layers: each layer gets the previous one's output;
      the first error ends the pass. */
  function ChainOut(layers: seq<Layer>, channels: int): (r: Result<int>)
    ensures layers == [] ==> r == Ok(channels)
    ensures r.Err? ==> r.error == ShapeMismatch
  {
    if layers == [] then Ok(channels)
    else
      var next :- LayerOut(layers[0], channels);
      ChainOut(layers[1..], next)
  }

  /** A list of one layer does what that layer does. With `ChainAppend`
      this fixes `ChainOut` on every list: each layer gets the previous
      one's output. */
  lemma ChainOne(l: Layer, x: int)
    ensures ChainOut([l], x) == LayerOut(l, x)
  {
    assert [l][1..] == [];
  }

  /** Running two layer lists one after the other gives what running their
      concatenation gives: the second list's output when the first one
      succeeds, and the first one's error otherwise. */
  lemma {:induction false} ChainAppend(a: seq<Layer>, b: seq<Layer>, channels: int)
    ensures ChainOut(a + b, channels)
            == (if ChainOut(a, channels).Ok? then ChainOut(b, ChainOut(a, channels).value)
                else ChainOut(a, channels))
  {
    if a != [] {
      assert (a + b)[0] == a[0] && (a + b)[1..] == a[1..] + b;
      var step := LayerOut(a[0], channels);
      if step.Ok? {
        ChainAppend(a[1..], b, step.value);
      }
    } else {
      assert a + b == b;
    }
  }
}
