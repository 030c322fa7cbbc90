/** `MixBlazeNet`: a stem convolution, two `Effi_A` blocks, three `Effi_B`
    blocks and an average pool, flattened into a linear classifier. */
module Network {
  import opened Results
  import opened Layers
  import opened Blocks

  /** The stem, `firstconv`: 3 -> 24 channels, kernel 3, stride 2, padding 1. */
  function Stem(): seq<Layer>
  {
    [Conv(Conv2d(3, 24, 3, 2, 1, 1, true)), BatchNorm(24), Relu]
  }

  /** `nn.Sequential` over `Effi_A` blocks. */
  function RunA(blocks: seq<EffiA>, x: int): Result<int>
  {
    if blocks == [] then Ok(x)
    else
      var y :- blocks[0].Forward(x);
      RunA(blocks[1..], y)
  }

  /** `nn.Sequential` over `Effi_B` blocks. */
  function RunB(blocks: seq<EffiB>, x: int): Result<int>
  {
    if blocks == [] then Ok(x)
    else
      var y :- blocks[0].Forward(x);
      RunB(blocks[1..], y)
  }

  class MixBlazeNet {
    ghost const numClasses: int

    const firstconv: seq<Layer>
    const effiA: seq<EffiA>
    /** The `Effi_B` sequential is its three blocks followed by `pool`. */
    const effiB: seq<EffiB>
    const pool: Layer
    const fc: Layer

    /** Each block holds the arguments the constructor passes it. */
    ghost predicate Valid()
    {
      firstconv == Stem() &&
      |effiA| == 2 && effiA[0].Valid() && effiA[1].Valid() &&
      effiA[0].kernelSize == [3, 5] && effiA[1].kernelSize == [3, 5] &&
      effiA[0].inChannels == 24 && effiA[0].outChannels == 24 && effiA[0].midChannels == 24 && effiA[0].stride == 1 &&
      effiA[1].inChannels == 24 && effiA[1].outChannels == 48 && effiA[1].midChannels == 24 && effiA[1].stride == 2 &&
      |effiB| == 3 && effiB[0].Valid() && effiB[1].Valid() && effiB[2].Valid() &&
      effiB[0].midChannels == 24 && effiB[1].midChannels == 24 && effiB[2].midChannels == 24 &&
      effiB[0].inChannels == 48 && effiB[0].outChannels == 96 && effiB[0].stride == 2 &&
      effiB[1].inChannels == 96 && effiB[1].outChannels == 96 && effiB[1].stride == 2 &&
      effiB[2].inChannels == 96 && effiB[2].outChannels == 96 && effiB[2].stride == 1 &&
      pool == AvgPool(14) &&
      fc == Linear(96, numClasses)
    }

    /** `MixBlazeNet(num_classes=10)`. */
    constructor (numClasses: int := 10)
      ensures Valid() && this.numClasses == numClasses
    {
      this.numClasses := numClasses;
      firstconv := Stem();
      var a0 := new EffiA(24, 24, [3, 5]);
      var a1 := new EffiA(24, 48, [3, 5], stride := 2);
      effiA := [a0, a1];
      var b0 := new EffiB(48, 96, Some(24), stride := 2);
      var b1 := new EffiB(96, 96, Some(24), stride := 2);
      var b2 := new EffiB(96, 96, Some(24));
      effiB := [b0, b1, b2];
      pool := AvgPool(14);
      fc := Linear(96, numClasses);
    }

    /** The channel count of `forward(x)`: the blocks in order, then the
        flattening `x.view(-1, 96)` and the classifier. Every stage is fed
        the channel count the previous stage produces (3, 24, 24, 48, 96,
        96, 96), so a 3-channel image comes out as `num_classes` scores and
        any other input is refused by the stem. */
    function Forward(x: int): (r: Result<int>)
      ensures Valid() ==> r == if x == 3 then Ok(numClasses) else Err(ShapeMismatch)
    {
      var r := (
        var stem :- ChainOut(firstconv, x);
        var a :- RunA(effiA, stem);
        var b :- RunB(effiB, a);
        var pooled :- LayerOut(pool, b);
        var flat :- LayerOut(View(96), pooled);
        LayerOut(fc, flat));
      assert Valid() ==> r == if x == 3 then Ok(numClasses) else Err(ShapeMismatch) by {
        if Valid() {
          StemOut(x);
          RunAOut(this);
          RunBOut(this);
          ClassifierOut(this);
        }
      }
      r
    }

    /** No block of the network builds a shortcut. */
    lemma NoShortcut()
      requires Valid()
      ensures forall i :: 0 <= i < |effiA| ==> !effiA[i].usePool && effiA[i].shortcut == []
      ensures forall i :: 0 <= i < |effiB| ==> !effiB[i].usePool && effiB[i].shortcut == []
    {
    }
  }

  /** The stem accepts 3 channels and yields 24. */
  lemma StemOut(x: int)
    ensures ChainOut(Stem(), x) == if x == 3 then Ok(24) else Err(ShapeMismatch)
  {
    var s := Stem();
    assert s[1..][1..][1..] == [];
    assert s[1..] == [BatchNorm(24), Relu] && s[1..][1..] == [Relu];
  }

  /** Each `Effi_A` block is fed the channel count it was built for, by the
      previous block or, for the first, by `x`; and each has `mid_channels`
      equal to `in_channels`. */
  ghost predicate LinedUpA(blocks: seq<EffiA>, x: int)
  {
    blocks != [] ==>
      blocks[0].inChannels == x && blocks[0].midChannels == x &&
      LinedUpA(blocks[1..], blocks[0].outChannels)
  }

  /** Each `Effi_B` block is fed the channel count it was built for. */
  ghost predicate LinedUpB(blocks: seq<EffiB>, x: int)
  {
    blocks != [] ==> blocks[0].inChannels == x && LinedUpB(blocks[1..], blocks[0].outChannels)
  }

  /** A sequence of `Effi_A` blocks runs exactly when it is lined up, and
      then yields the last block's `out_channels`. */
  lemma {:induction false} RunALinedUp(blocks: seq<EffiA>, x: int)
    requires forall i :: 0 <= i < |blocks| ==> blocks[i].Valid()
    ensures RunA(blocks, x) == if !LinedUpA(blocks, x) then Err(ShapeMismatch)
                               else if blocks == [] then Ok(x) else Ok(blocks[|blocks| - 1].outChannels)
    decreases |blocks|
  {
    if blocks != [] {
      RunALinedUp(blocks[1..], blocks[0].outChannels);
      if |blocks| > 1 {
        assert blocks[1..][|blocks| - 2] == blocks[|blocks| - 1];
      }
    }
  }

  /** A sequence of `Effi_B` blocks runs exactly when it is lined up, and
      then yields the last block's `out_channels`. */
  lemma {:induction false} RunBLinedUp(blocks: seq<EffiB>, x: int)
    requires forall i :: 0 <= i < |blocks| ==> blocks[i].Valid()
    ensures RunB(blocks, x) == if !LinedUpB(blocks, x) then Err(ShapeMismatch)
                               else if blocks == [] then Ok(x) else Ok(blocks[|blocks| - 1].outChannels)
    decreases |blocks|
  {
    if blocks != [] {
      RunBLinedUp(blocks[1..], blocks[0].outChannels);
      if |blocks| > 1 {
        assert blocks[1..][|blocks| - 2] == blocks[|blocks| - 1];
      }
    }
  }

  /** The two `Effi_A` blocks line up from the stem's 24 channels and yield 48. */
  lemma RunAOut(net: MixBlazeNet)
    requires net.Valid()
    ensures RunA(net.effiA, 24) == Ok(48)
  {
    var a := net.effiA;
    assert LinedUpA(a, 24) by {
      assert a[1..][1..] == [];
      assert a[1..][0] == a[1];
    }
    RunALinedUp(a, 24);
  }

  /** The three `Effi_B` blocks line up from 48 channels and yield 96. */
  lemma RunBOut(net: MixBlazeNet)
    requires net.Valid()
    ensures RunB(net.effiB, 48) == Ok(96)
  {
    var b := net.effiB;
    assert LinedUpB(b, 48) by {
      assert LinedUpB(b[1..], 96) by {
        assert LinedUpB(b[1..][1..], 96) by {
          assert b[1..][1..][1..] == [];
          assert b[1..][1..][0] == b[2];
        }
        assert b[1..][0] == b[1];
      }
    }
    RunBLinedUp(b, 48);
  }

  /** The pool keeps the 96 channels, the flattening makes them 96
      features, and the classifier turns those into `num_classes` scores. */
  lemma ClassifierOut(net: MixBlazeNet)
    requires net.Valid()
    ensures LayerOut(net.pool, 96) == Ok(96) && LayerOut(View(96), 96) == Ok(96)
    ensures LayerOut(net.fc, 96) == Ok(net.numClasses)
  {
  }
}
