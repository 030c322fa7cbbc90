/** `_SplitChannels`: partition a channel count into groups of equal size,
    the remainder of the integer division going to the first group. */
module Channels {
  import opened Results

  /** Python's `sum` over a list of integers. */
  function Sum(s: seq<int>): int
  {
    if s == [] then 0 else Sum(s[..|s| - 1]) + s[|s| - 1]
  }

  /** `n` copies of `q`. */
  function Repeat(q: int, n: nat): (r: seq<int>)
    ensures |r| == n
    ensures forall i :: 0 <= i < n ==> r[i] == q
  {
    if n == 0 then [] else Repeat(q, n - 1) + [q]
  }

  /** The split the source computes, written as its closed form: the first
      group holds the quotient plus the remainder, every other group holds
      the quotient. With no groups the source indexes an empty list.
      For a positive divisor Python's floor division `//` and Dafny's
      Euclidean `/` agree, also for negative channel counts. */
  function Split(channels: int, numGroups: int): (r: Result<seq<int>>)
    ensures r.Ok? <==> numGroups >= 1
    ensures r.Err? ==> r.error == IndexError
    ensures r.Ok? ==> |r.value| == numGroups
  {
    if numGroups < 1 then Err(IndexError)
    else Ok([channels / numGroups + channels % numGroups] + Repeat(channels / numGroups, numGroups - 1))
  }

  /** The source's three steps: build `num_groups` copies of the quotient,
      sum them, and add what is missing to entry 0 in place. */
  method SplitChannels(channels: int, numGroups: int) returns (r: Result<seq<int>>)
    ensures r == Split(channels, numGroups)
  {
    var split: seq<int> := [];
    var i := 0;
    while i < numGroups
      invariant 0 <= i && (i == 0 || i <= numGroups)
      invariant |split| == i
      invariant forall k :: 0 <= k < i ==> split[k] == channels / numGroups
    {
      split := split + [channels / numGroups];
      i := i + 1;
    }
    if |split| == 0 {
      return Err(IndexError);
    }
    var total := 0;
    var j := 0;
    while j < |split|
      invariant 0 <= j <= |split|
      invariant total == Sum(split[..j])
    {
      assert split[..j + 1][..j] == split[..j];
      total := total + split[j];
      j := j + 1;
    }
    assert split[..j] == split;
    ghost var copies := split;
    split := split[0 := split[0] + (channels - total)];
    FirstGetsRemainder(channels, numGroups, copies, split);
    return Ok(split);
  }

  /** After the comprehension and the sum, adding the shortfall to entry 0
      gives the closed form. */
  lemma FirstGetsRemainder(channels: int, numGroups: int, copies: seq<int>, split: seq<int>)
    requires numGroups >= 1 && |copies| == numGroups
    requires forall k :: 0 <= k < numGroups ==> copies[k] == channels / numGroups
    requires split == copies[0 := copies[0] + (channels - Sum(copies))]
    ensures split == Split(channels, numGroups).value
  {
    var q, m := channels / numGroups, channels % numGroups;
    assert copies == Repeat(q, numGroups);
    DivMod(channels, numGroups);
    FirstAbsorbs(channels, numGroups, q, m, split);
  }

  lemma FirstAbsorbs(channels: int, numGroups: int, q: int, m: int, split: seq<int>)
    requires numGroups >= 1 && channels - q * numGroups == m
    requires split == Repeat(q, numGroups)[0 := q + (channels - Sum(Repeat(q, numGroups)))]
    ensures split == [q + m] + Repeat(q, numGroups - 1)
  {
    SumRepeat(q, numGroups);
    RepeatCons(q, numGroups);
  }

  lemma DivMod(c: int, g: int)
    requires g >= 1
    ensures c - (c / g) * g == c % g
  {
  }

  lemma {:induction false} RepeatCons(q: int, n: nat)
    requires n >= 1
    ensures Repeat(q, n) == [q] + Repeat(q, n - 1)
  {
    if n > 1 {
      RepeatCons(q, n - 1);
    }
  }

  lemma {:induction false} SumConcat(a: seq<int>, b: seq<int>)
    ensures Sum(a + b) == Sum(a) + Sum(b)
  {
    if b != [] {
      assert (a + b)[..|a + b| - 1] == a + b[..|b| - 1];
      SumConcat(a, b[..|b| - 1]);
    } else {
      assert a + b == a;
    }
  }

  lemma {:induction false} SumRepeat(q: int, n: nat)
    ensures Sum(Repeat(q, n)) == q * n
  {
    if n > 0 {
      assert Repeat(q, n)[..n - 1] == Repeat(q, n - 1);
      SumRepeat(q, n - 1);
    }
  }

  lemma SumCons(a: int, rest: seq<int>)
    ensures Sum([a] + rest) == a + Sum(rest)
  {
    SumConcat([a], rest);
    assert [a][..0] == [];
  }

  /** The groups after the first hold what the first does not. */
  lemma TailSum(channels: int, numGroups: int)
    requires numGroups >= 1
    ensures Sum(Repeat(channels / numGroups, numGroups - 1))
            == channels - (channels / numGroups + channels % numGroups)
  {
    var q, m := channels / numGroups, channels % numGroups;
    SumRepeat(q, numGroups - 1);
    DivMod(channels, numGroups);
    MulPred(q, numGroups);
  }

  lemma MulPred(q: int, n: int)
    ensures q * (n - 1) == q * n - q
  {
  }

  /** The groups add up to the channel count. */
  lemma SplitSum(channels: int, numGroups: int)
    requires numGroups >= 1
    ensures Sum(Split(channels, numGroups).value) == channels
  {
    var q := channels / numGroups;
    SumCons(q + channels % numGroups, Repeat(q, numGroups - 1));
    TailSum(channels, numGroups);
  }

  /** Every group after the first holds the quotient, the first holds the
      quotient plus the remainder, so the first is the largest and exceeds
      the others by less than the number of groups. */
  lemma SplitShape(channels: int, numGroups: int)
    requires numGroups >= 1
    ensures var s := Split(channels, numGroups).value;
      && s[0] == channels / numGroups + channels % numGroups
      && (forall i :: 1 <= i < numGroups ==> s[i] == channels / numGroups)
      && (forall i :: 0 <= i < numGroups ==> s[i] <= s[0] < s[i] + numGroups)
  {
  }

  lemma QuotientPositive(channels: int, numGroups: int)
    requires 1 <= numGroups
    ensures channels / numGroups >= 1 <==> numGroups <= channels
  {
    var q, m := channels / numGroups, channels % numGroups;
    assert channels == numGroups * q + m && 0 <= m < numGroups;
    if q >= 1 {
      assert numGroups * q >= numGroups * 1;
    } else {
      assert numGroups * q <= 0;
    }
  }

  /** Every group is non-empty exactly when there are no more groups than
      channels. */
  lemma SplitPositive(channels: int, numGroups: int)
    requires numGroups >= 1
    ensures (forall i :: 0 <= i < numGroups ==> Split(channels, numGroups).value[i] > 0)
            <==> numGroups <= channels
  {
    var s := Split(channels, numGroups).value;
    QuotientPositive(channels, numGroups);
    // the last group holds the quotient, or the whole count when it is also the first
    var last := numGroups - 1;
    assert s[last] == if numGroups == 1 then channels else channels / numGroups by {
      if numGroups == 1 { SplitOne(channels); }
    }
    if numGroups <= channels {
      assert forall i :: 0 <= i < numGroups ==> s[i] >= channels / numGroups;
    }
  }

  /** The split is the only list of `num_groups` entries that sums to the
      channel count and holds the quotient after entry 0. */
  lemma SplitUnique(channels: int, numGroups: int, s: seq<int>)
    requires numGroups >= 1
    requires |s| == numGroups && Sum(s) == channels
    requires forall i :: 1 <= i < numGroups ==> s[i] == channels / numGroups
    ensures s == Split(channels, numGroups).value
  {
    var q, m := channels / numGroups, channels % numGroups;
    var tail := Repeat(q, numGroups - 1);
    assert s[1..] == tail;
    assert s == [s[0]] + tail;
    SumCons(s[0], tail);
    TailSum(channels, numGroups);
    assert s[0] == q + m;
  }

  /** A single group is the whole channel count. */
  lemma SplitOne(channels: int)
    ensures Split(channels, 1) == Ok([channels])
  {
    assert channels / 1 == channels && channels % 1 == 0;
    assert Repeat(channels, 0) == [];
    assert [channels] + [] == [channels];
  }

  /** The worked examples written beside the source. */
  lemma SplitExamples()
    ensures Split(16, 1) == Ok([16])
    ensures Split(24, 1) == Ok([24])
    ensures Split(24, 3) == Ok([8, 8, 8])
    ensures Split(40, 2) == Ok([20, 20])
    ensures Split(40, 3) == Ok([14, 13, 13])
  {
    SplitOne(16);
    SplitOne(24);
    assert Repeat(8, 2) == [8, 8] by { assert Repeat(8, 1) == [8] by { assert Repeat(8, 0) == []; } }
    assert Repeat(20, 1) == [20] by { assert Repeat(20, 0) == []; }
    assert Repeat(13, 2) == [13, 13] by { assert Repeat(13, 1) == [13] by { assert Repeat(13, 0) == []; } }
    assert [8] + [8, 8] == [8, 8, 8];
    assert [20] + [20] == [20, 20];
    assert [14] + [13, 13] == [14, 13, 13];
  }
}
