/** The two composite blocks, `Effi_A` and `Effi_B`. Each is a main branch
    (a mixed depthwise convolution followed by batch norms and pointwise
    convolutions) and an activation; a shortcut branch would be added to the
    main branch only when `use_pool` is set, which no accepted stride does. */
module Blocks {
  import opened Results
  import opened Layers
  import opened MixedConv

  /** Python's `mid_channels or in_channels`: `None` and `0` are both falsy. */
  function MidOr(midChannels: Option<int>, inChannels: int): (m: int)
    ensures m == inChannels || midChannels == Some(m)
    ensures midChannels == None || midChannels == Some(0) ==> m == inChannels
    ensures midChannels.Some? && midChannels.value != 0 ==> m == midChannels.value
  {
    if midChannels.Some? && midChannels.value != 0 then midChannels.value else inChannels
  }

  /** The `use_pool` gate of `Effi_A`; never set for a stride the block accepts. */
  function UsePoolA(stride: int): (p: bool)
    ensures stride == 1 || stride == 2 ==> !p
    ensures p ==> stride > 100000
  {
    stride > 100000
  }

  /** The `use_pool` gate of `Effi_B`, with its own threshold; never set for a
      stride the block accepts either. */
  function UsePoolB(stride: int): (p: bool)
    ensures stride == 1 || stride == 2 ==> !p
    ensures p ==> stride > 10000
  {
    stride > 10000
  }

  /** The layers of `Effi_A.branch1` after its mixed depthwise convolution. */
  function TailA(midChannels: int, outChannels: int): seq<Layer>
  {
    [BatchNorm(midChannels), Conv(Pointwise(midChannels, outChannels)), BatchNorm(outChannels)]
  }

  /** The layers of `Effi_B.branch1` after its mixed depthwise convolution. */
  function TailB(inChannels: int, midChannels: int, outChannels: int): seq<Layer>
  {
    [BatchNorm(inChannels), Conv(Pointwise(inChannels, midChannels)), BatchNorm(midChannels), Relu,
     Conv(Conv2d(midChannels, midChannels, 5, 1, 2, 1, true)), BatchNorm(midChannels),
     Conv(Pointwise(midChannels, outChannels)), BatchNorm(outChannels)]
  }

  /** The shortcut branch of both blocks: downsample, project, normalise. */
  function Shortcut(inChannels: int, outChannels: int, stride: int): seq<Layer>
  {
    [MaxPool(stride, stride), Conv(Pointwise(inChannels, outChannels)), BatchNorm(outChannels)]
  }

  class EffiA {
    ghost const inChannels: int
    ghost const outChannels: int
    ghost const midChannels: int
    ghost const kernelSize: seq<int>
    ghost const stride: int

    const usePool: bool
    /** `branch1` is `mixed` followed by `branchTail`. */
    const mixed: MDConv
    const branchTail: seq<Layer>
    /** Built only when `usePool` is set; empty stands for the missing attribute. */
    const shortcut: seq<Layer>
    const relu: Layer

    ghost predicate Valid()
    {
      (stride == 1 || stride == 2) && usePool == UsePoolA(stride) &&
      shortcut == (if usePool then Shortcut(inChannels, outChannels, stride) else []) &&
      mixed.Valid() && mixed.channels == inChannels && mixed.kernelSize == kernelSize && mixed.stride == stride &&
      branchTail == TailA(midChannels, outChannels) && relu == Relu
    }

    /** `Effi_A(in_channels, out_channels, kernel_size, mid_channels=None, stride=1)`.
        The source asserts that the stride is 1 or 2, and its mixed
        convolution needs at least one kernel size. */
    constructor (inChannels: int, outChannels: int, kernelSize: seq<int>,
                 midChannels: Option<int> := None, stride: int := 1)
      requires stride == 1 || stride == 2
      requires |kernelSize| >= 1
      ensures Valid() && !usePool && shortcut == []
      ensures this.inChannels == inChannels && this.outChannels == outChannels
      ensures this.midChannels == MidOr(midChannels, inChannels)
      ensures this.kernelSize == kernelSize && this.stride == stride
    {
      var mid := MidOr(midChannels, inChannels);
      this.inChannels, this.outChannels, this.midChannels := inChannels, outChannels, mid;
      this.kernelSize, this.stride := kernelSize, stride;
      var pool: bool;
      if stride > 100000 {
        pool := true;
      } else {
        pool := false;
      }
      usePool := pool;
      if pool {
        shortcut := Shortcut(inChannels, outChannels, stride);
      } else {
        shortcut := [];
      }
      mixed := new MDConv(inChannels, kernelSize, stride);
      branchTail := TailA(mid, outChannels);
      relu := Relu;
    }

    /** The channel count of `forward(x)`. The block maps `in_channels` to
        `out_channels`, and works only when its batch norm after the mixed
        convolution is sized for the input, that is when `mid_channels` is
        the input count. */
    function Forward(x: int): (r: Result<int>)
      ensures Valid() ==> r == if x == inChannels && midChannels == inChannels
                               then Ok(outChannels) else Err(ShapeMismatch)
    {
      var r := (
        var branch :- mixed.Forward(x);
        var branch1 :- ChainOut(branchTail, branch);
        var out :- if usePool then (var s :- ChainOut(shortcut, x); Add(branch1, s)) else Ok(branch1);
        LayerOut(relu, out));
      assert Valid() ==> r == if x == inChannels && midChannels == inChannels then Ok(outChannels) else Err(ShapeMismatch) by {
        if Valid() {
          TailAOut(midChannels, outChannels, x);
        }
      }
      r
    }
  }

  class EffiB {
    ghost const inChannels: int
    ghost const outChannels: int
    ghost const midChannels: int
    ghost const stride: int

    const usePool: bool
    /** `branch1` is `mixed` followed by `branchTail`. */
    const mixed: MDConv
    const branchTail: seq<Layer>
    /** Built only when `usePool` is set; empty stands for the missing attribute. */
    const shortcut: seq<Layer>
    const hswish: Layer

    ghost predicate Valid()
    {
      (stride == 1 || stride == 2) && usePool == UsePoolB(stride) &&
      shortcut == (if usePool then Shortcut(inChannels, outChannels, stride) else []) &&
      mixed.Valid() && mixed.channels == inChannels && mixed.kernelSize == [3, 5] && mixed.stride == stride &&
      branchTail == TailB(inChannels, midChannels, outChannels) && hswish == HSwish
    }

    /** `Effi_B(in_channels, out_channels, mid_channels=None, stride=1)`; the
        mixed convolution always uses kernel sizes 3 and 5. */
    constructor (inChannels: int, outChannels: int, midChannels: Option<int> := None, stride: int := 1)
      requires stride == 1 || stride == 2
      ensures Valid() && !usePool && shortcut == []
      ensures this.inChannels == inChannels && this.outChannels == outChannels
      ensures this.midChannels == MidOr(midChannels, inChannels) && this.stride == stride
    {
      var mid := MidOr(midChannels, inChannels);
      this.inChannels, this.outChannels, this.midChannels, this.stride := inChannels, outChannels, mid, stride;
      var pool: bool;
      if stride > 10000 {
        pool := true;
      } else {
        pool := false;
      }
      usePool := pool;
      if pool {
        shortcut := Shortcut(inChannels, outChannels, stride);
      } else {
        shortcut := [];
      }
      mixed := new MDConv(inChannels, [3, 5], stride);
      branchTail := TailB(inChannels, mid, outChannels);
      hswish := HSwish;
    }

    /** The channel count of `forward(x)`. The block maps `in_channels` to
        `out_channels`, whatever its `mid_channels`. */
    function Forward(x: int): (r: Result<int>)
      ensures Valid() ==> r == if x == inChannels then Ok(outChannels) else Err(ShapeMismatch)
    {
      var r := (
        var branch :- mixed.Forward(x);
        var branch1 :- ChainOut(branchTail, branch);
        var out :- if usePool then (var s :- ChainOut(shortcut, x); Add(branch1, s)) else Ok(branch1);
        LayerOut(hswish, out));
      assert Valid() ==> r == if x == inChannels then Ok(outChannels) else Err(ShapeMismatch) by {
        if Valid() {
          TailBOut(inChannels, midChannels, outChannels, x);
        }
      }
      r
    }
  }

  /** The tail of `Effi_A.branch1` accepts `mid_channels` and yields `out_channels`. */
  lemma TailAOut(midChannels: int, outChannels: int, x: int)
    ensures ChainOut(TailA(midChannels, outChannels), x)
            == if x == midChannels then Ok(outChannels) else Err(ShapeMismatch)
  {
    var conv, bn := Conv(Pointwise(midChannels, outChannels)), BatchNorm(outChannels);
    assert ChainOut([bn], outChannels) == Ok(outChannels) by { assert [bn][1..] == []; }
    assert [conv, bn][1..] == [bn];
    assert [BatchNorm(midChannels), conv, bn][1..] == [conv, bn];
  }

  /** The tail of `Effi_B.branch1` accepts `in_channels` and yields
      `out_channels`, passing through `mid_channels` on the way. */
  lemma TailBOut(inChannels: int, midChannels: int, outChannels: int, x: int)
    ensures ChainOut(TailB(inChannels, midChannels, outChannels), x)
            == if x == inChannels then Ok(outChannels) else Err(ShapeMismatch)
  {
    var l := TailB(inChannels, midChannels, outChannels);
    var k := 8;
    // walk the chain back to front: ChainOut(l[i..], w[i]) == Ok(outChannels)
    var w := [inChannels, inChannels, midChannels, midChannels, midChannels, midChannels, midChannels, outChannels, outChannels];
    assert l[8..] == [];
    while k > 0
      invariant 0 <= k <= 8
      invariant ChainOut(l[k..], w[k]) == Ok(outChannels)
    {
      k := k - 1;
      assert l[k..][1..] == l[k + 1..];
    }
    assert l[0..] == l;
  }

  /** Were the gate ever opened, the shortcut would take `in_channels` to
      `out_channels` like the main branch, so the sum would be well formed. */
  lemma ShortcutOut(inChannels: int, outChannels: int, stride: int, x: int)
    ensures ChainOut(Shortcut(inChannels, outChannels, stride), x)
            == if x == inChannels then Ok(outChannels) else Err(ShapeMismatch)
  {
    var conv, bn := Conv(Pointwise(inChannels, outChannels)), BatchNorm(outChannels);
    assert ChainOut([bn], outChannels) == Ok(outChannels) by { assert [bn][1..] == []; }
    assert [conv, bn][1..] == [bn];
    assert [MaxPool(stride, stride), conv, bn][1..] == [conv, bn];
  }
}
