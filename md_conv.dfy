/** `MDConv`: a mixed-kernel depthwise convolution. The channels are split
    into one group per kernel size, each group gets its own depthwise
    convolution, and the group outputs are concatenated. */
module MixedConv {
  import opened Results
  import opened Channels
  import opened Layers

  /** `convs` is the list of depthwise convolutions for `split`: the i-th
      maps `split[i]` channels to `split[i]` channels with one group per
      channel, uses the i-th kernel size with padding `k // 2`, the shared
      stride, and no bias. */
  ghost predicate DepthwiseFor(convs: seq<Conv2d>, split: seq<int>, kernelSize: seq<int>, stride: int)
  {
    |convs| == |split| == |kernelSize| &&
    forall i :: 0 <= i < |convs| ==>
      convs[i] == Conv2d(split[i], split[i], kernelSize[i], stride, kernelSize[i] / 2, split[i], false)
  }

  /** `torch.split(x, sizes, dim=1)` on the channel axis: the sizes must add
      up to the channel count, and the pieces have those sizes. */
  function SplitTensor(channels: int, sizes: seq<int>): (r: Result<seq<int>>)
    ensures r.Ok? <==> Sum(sizes) == channels
    ensures r.Ok? ==> r.value == sizes
  {
    if Sum(sizes) == channels then Ok(sizes) else Err(ShapeMismatch)
  }

  /** `[conv(t) for conv, t in zip(convs, parts)]`: `zip` stops at the
      shorter list. It succeeds exactly when every paired piece has its
      convolution's input channel count, and then the i-th output has the
      i-th convolution's output channel count. */
  function ApplyEach(convs: seq<Conv2d>, parts: seq<int>): (r: Result<seq<int>>)
    ensures r.Ok? <==> forall i :: 0 <= i < |convs| && i < |parts| ==> parts[i] == convs[i].inChannels
    ensures r.Ok? ==> |r.value| == if |convs| < |parts| then |convs| else |parts|
    ensures r.Ok? ==> forall i :: 0 <= i < |r.value| ==> r.value[i] == convs[i].outChannels
    ensures r.Err? ==> r.error == ShapeMismatch
    decreases |convs|
  {
    if convs == [] || parts == [] then Ok([])
    else
      var head :- ConvOut(convs[0], parts[0]);
      var tail :- ApplyEach(convs[1..], parts[1..]);
      Ok([head] + tail)
  }

  /** `torch.cat(outs, dim=1)`: the channel counts add up; an empty list is
      an error. */
  function Cat(outs: seq<int>): (r: Result<int>)
    ensures r.Ok? <==> outs != []
    ensures r.Ok? ==> r.value == Sum(outs)
    ensures r.Err? ==> r.error == EmptyConcat
  {
    if outs == [] then Err(EmptyConcat) else Ok(Sum(outs))
  }

  /** Concatenating two non-empty lists of pieces in one call gives as many
      channels as concatenating each list and then the two results. */
  lemma CatConcat(a: seq<int>, b: seq<int>)
    requires a != [] && b != []
    ensures Cat(a + b) == Ok(Cat(a).value + Cat(b).value)
    ensures Cat(a + b) == Cat([Cat(a).value, Cat(b).value])
  {
    SumConcat(a, b);
    SumConcat([Cat(a).value], [Cat(b).value]);
    assert Sum([Cat(a).value]) == Cat(a).value by {
      assert [Cat(a).value][..0] == [];
    }
    assert [Cat(a).value] + [Cat(b).value] == [Cat(a).value, Cat(b).value];
  }

  /** The general path of the forward pass: split, convolve each piece, concatenate. */
  function SplitConvCat(split: seq<int>, convs: seq<Conv2d>, channels: int): Result<int>
  {
    var parts :- SplitTensor(channels, split);
    var outs :- ApplyEach(convs, parts);
    Cat(outs)
  }

  class MDConv {
    /** The constructor's arguments, which the module does not keep. */
    ghost const channels: int
    ghost const kernelSize: seq<int>
    ghost const stride: int

    const numGroups: int
    const splitChannels: seq<int>
    const mixedDepthwiseConv: seq<Conv2d>

    ghost predicate Valid()
    {
      numGroups == |kernelSize| >= 1 &&
      Split(channels, numGroups) == Ok(splitChannels) &&
      DepthwiseFor(mixedDepthwiseConv, splitChannels, kernelSize, stride)
    }

    /** `MDConv(channels, kernel_size, stride)`. The source needs at least
        one kernel size: with none, `_SplitChannels` indexes an empty list. */
    constructor (channels: int, kernelSize: seq<int>, stride: int)
      requires |kernelSize| >= 1
      ensures Valid()
      ensures this.channels == channels && this.kernelSize == kernelSize && this.stride == stride
    {
      this.channels := channels;
      this.kernelSize := kernelSize;
      this.stride := stride;
      var groups := |kernelSize|;
      numGroups := groups;
      var split := SplitChannels(channels, groups);
      splitChannels := split.value;
      var convs: seq<Conv2d> := [];
      var i := 0;
      while i < groups
        invariant 0 <= i <= groups
        invariant DepthwiseFor(convs, split.value[..i], kernelSize[..i], stride)
      {
        convs := convs + [Conv2d(split.value[i], split.value[i], kernelSize[i], stride, kernelSize[i] / 2, split.value[i], false)];
        i := i + 1;
      }
      assert split.value[..i] == split.value && kernelSize[..i] == kernelSize;
      mixedDepthwiseConv := convs;
    }

    /** The channel count of `forward(x)` for an input of `x` channels. A
        single group bypasses the split and calls its convolution directly.
        On both paths the output has as many channels as the input, and only
        the constructor's channel count is accepted. */
    function Forward(x: int): (r: Result<int>)
      ensures Valid() ==> r == if x == channels then Ok(x) else Err(ShapeMismatch)
    {
      var r :=
        if numGroups == 1 then
          if mixedDepthwiseConv == [] then Err(IndexError) else ConvOut(mixedDepthwiseConv[0], x)
        else
          SplitConvCat(splitChannels, mixedDepthwiseConv, x);
      assert Valid() ==> r == if x == channels then Ok(x) else Err(ShapeMismatch) by {
        if Valid() {
          if numGroups == 1 {
            SplitOne(channels);
          } else {
            SplitConvCatPreserves(this, x);
          }
        }
      }
      r
    }
  }

  /** Every depthwise convolution gives back exactly the piece it was handed. */
  lemma {:induction false} ApplyEachDepthwise(convs: seq<Conv2d>, split: seq<int>, kernelSize: seq<int>, stride: int)
    requires DepthwiseFor(convs, split, kernelSize, stride)
    ensures ApplyEach(convs, split) == Ok(split)
    decreases |convs|
  {
    if convs != [] {
      assert DepthwiseFor(convs[1..], split[1..], kernelSize[1..], stride) by {
        forall i | 0 <= i < |convs| - 1
          ensures convs[1..][i] == Conv2d(split[1..][i], split[1..][i], kernelSize[1..][i], stride, kernelSize[1..][i] / 2, split[1..][i], false)
        {
          assert convs[1..][i] == convs[i + 1];
        }
      }
      ApplyEachDepthwise(convs[1..], split[1..], kernelSize[1..], stride);
      assert split == [split[0]] + split[1..];
    }
  }

  /** The general path returns exactly the channel count it was built for,
      and refuses every other count. */
  lemma SplitConvCatPreserves(m: MDConv, x: int)
    requires m.Valid()
    ensures SplitConvCat(m.splitChannels, m.mixedDepthwiseConv, x)
            == if x == m.channels then Ok(x) else Err(ShapeMismatch)
  {
    SplitSum(m.channels, m.numGroups);
    if x == m.channels {
      ApplyEachDepthwise(m.mixedDepthwiseConv, m.splitChannels, m.kernelSize, m.stride);
    }
  }

  /** With one kernel size the bypass in the forward pass agrees with the
      general split/concatenate path, since the split is the whole count. */
  lemma BypassAgrees(m: MDConv, x: int)
    requires m.Valid() && m.numGroups == 1
    ensures m.Forward(x) == SplitConvCat(m.splitChannels, m.mixedDepthwiseConv, x)
  {
    SplitConvCatPreserves(m, x);
  }

  /** Every depthwise convolution has a positive number of channels (and so
      of groups) exactly when there are no more kernel sizes than channels. */
  lemma GroupsNonEmpty(m: MDConv)
    requires m.Valid()
    ensures (forall i :: 0 <= i < m.numGroups ==> m.mixedDepthwiseConv[i].groups > 0)
            <==> m.numGroups <= m.channels
  {
    SplitPositive(m.channels, m.numGroups);
    assert forall i :: 0 <= i < m.numGroups ==> m.mixedDepthwiseConv[i].groups == m.splitChannels[i];
  }
}
