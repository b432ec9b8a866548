// Model of the sequential effect of demos/channels/channels.go. The channel is
// modelled as the FIFO sequence of everything the producer sends, in send
// order; the consumer goroutine then receives that sequence in the same order.
// Blocking, the buffer capacity and the close/done signalling are not modelled.
module Channels {

  const Max: int := 50000000
  const Block: int := 500

  // ---------------------------------------------------------------------------
  // Sequences of integers
  // ---------------------------------------------------------------------------

  /** The stream lo, lo+1, ..., hi-1 (empty when hi <= lo). */
  function Range(lo: int, hi: int): (r: seq<int>)
    decreases hi - lo
    ensures |r| == if hi > lo then hi - lo else 0
    ensures forall k :: 0 <= k < |r| ==> r[k] == lo + k
  {
    if hi <= lo then [] else Range(lo, hi - 1) + [hi - 1]
  }

  function Zeros(n: nat): seq<int>
  {
    seq(n, _ => 0)
  }

  function Sum(s: seq<int>): int
  {
    if s == [] then 0 else Sum(s[..|s| - 1]) + s[|s| - 1]
  }

  lemma {:induction false} SumConcat(a: seq<int>, b: seq<int>)
    ensures Sum(a + b) == Sum(a) + Sum(b)
    decreases |b|
  {
    if b == [] {
      assert a + b == a;
    } else {
      var b' := b[..|b| - 1];
      assert (a + b)[..|a + b| - 1] == a + b';
      assert (a + b)[|a + b| - 1] == b[|b| - 1];
      SumConcat(a, b');
    }
  }

  lemma {:induction false} SumZeros(n: nat)
    ensures Sum(Zeros(n)) == 0
  {
    if n > 0 {
      assert Zeros(n)[..n - 1] == Zeros(n - 1);
      SumZeros(n - 1);
    }
  }

  /** Gauss: 0 + 1 + ... + (n-1) == n*(n-1)/2. */
  lemma {:induction false} SumRange(n: nat)
    ensures 2 * Sum(Range(0, n)) == n * (n - 1)
    ensures Sum(Range(0, n)) == n * (n - 1) / 2
  {
    if n > 0 {
      var r := Range(0, n);
      assert r[..n - 1] == Range(0, n - 1);
      SumRange(n - 1);
      assert 2 * Sum(r) == (n - 1) * (n - 2) + 2 * (n - 1);
    }
  }

  lemma {:induction false} RangeConcat(lo: int, mid: int, hi: int)
    requires lo <= mid <= hi
    ensures Range(lo, mid) + Range(mid, hi) == Range(lo, hi)
  {
  }

  // ---------------------------------------------------------------------------
  // multiSend: one element per send
  // ---------------------------------------------------------------------------

  /** The sending loop of multiSend: each of 0 .. max-1 is sent on its own. */
  method SendStream(max: int) returns (c: seq<int>)
    ensures c == Range(0, max)
  {
    c := [];
    var i := 0;
    while i < max
      invariant 0 <= i <= if max > 0 then max else 0
      invariant c == Range(0, i)
    {
      c := c + [i];
      i := i + 1;
    }
  }

  /** The receiving goroutine of multiSend: adds every received value to count. */
  method SumStream(c: seq<int>) returns (count: int)
    ensures count == Sum(c)
  {
    count := 0;
    var k := 0;
    while k < |c|
      invariant 0 <= k <= |c|
      invariant count == Sum(c[..k])
    {
      assert c[..k + 1][..k] == c[..k];
      count := count + c[k];
      k := k + 1;
    }
    assert c[..|c|] == c;
  }

  /** multiSend, produce-all-then-consume-all: the consumer sees 0..max-1 in
      order and its count is max*(max-1)/2. */
  method MultiSend(max: int) returns (received: seq<int>, count: int)
    ensures |received| == if max > 0 then max else 0
    ensures forall k :: 0 <= k < |received| ==> received[k] == k
    ensures count == if max > 0 then max * (max - 1) / 2 else 0
  {
    received := SendStream(max);
    count := SumStream(received);
    if max > 0 {
      SumRange(max);
    }
  }

  // ---------------------------------------------------------------------------
  // blockSend: the stream chopped into fixed-size, zero-initialised arrays
  // ---------------------------------------------------------------------------

  /** The array sent for the batch that starts at i: slot n holds i+n up to and
      including max-1, and keeps its zero value after that. */
  function Batch(i: int, max: int, block: int): (b: seq<int>)
    requires block > 0
    ensures |b| == block
  {
    seq(block, n => if i + n < max then i + n else 0)
  }

  /** Every batch sent by the producer loop from start index i on, with i
      growing by block while it is below max. Nothing is sent exactly when i
      has reached max, and every batch is a whole `[block]int` array. */
  function BatchesFrom(i: int, max: int, block: int): (r: seq<seq<int>>)
    requires block > 0
    decreases max - i
    ensures r == [] <==> i >= max
    ensures forall k :: 0 <= k < |r| ==> |r[k]| == block
  {
    if i >= max then [] else [Batch(i, max, block)] + BatchesFrom(i + block, max, block)
  }

  /** All batches blockSend sends: exactly ceil(max/block) of them. */
  function Batches(max: int, block: int): (r: seq<seq<int>>)
    requires block > 0
    ensures |r| == NumBatches(max, block)
  {
    if max > 0 then
      BatchCountFrom(0, max, block);
      BatchesFrom(0, max, block)
    else
      BatchesFrom(0, max, block)
  }

  /** ceil(max / block) for a positive max, no batch otherwise. */
  function NumBatches(max: int, block: int): nat
    requires block > 0
  {
    if max <= 0 then 0 else (max + block - 1) / block
  }

  /** The sending loop of blockSend. Each batch is a fresh zeroed array, filled
      slot by slot until the slot holding max-1 has been written. */
  method SendBatches(max: int, block: int) returns (c: seq<seq<int>>)
    requires block > 0
    ensures c == Batches(max, block)
  {
    c := [];
    var i := 0;
    while i < max
      invariant c + BatchesFrom(i, max, block) == Batches(max, block)
      decreases max - i
    {
      var b := new int[block](_ => 0);
      for n := 0 to block
        invariant i + n < max
        invariant forall k :: 0 <= k < n ==> b[k] == i + k
        invariant forall k :: n <= k < block ==> b[k] == 0
      {
        b[n] := i + n;
        if i + n == max - 1 {
          break;
        }
      }
      assert b[..] == Batch(i, max, block);
      c := c + [b[..]];
      i := i + block;
    }
  }

  function Flatten(bs: seq<seq<int>>): seq<int>
  {
    if bs == [] then [] else Flatten(bs[..|bs| - 1]) + bs[|bs| - 1]
  }

  /** The total that a consumer adds up: every element of every batch. */
  function SumAll(bs: seq<seq<int>>): int
  {
    if bs == [] then 0 else SumAll(bs[..|bs| - 1]) + Sum(bs[|bs| - 1])
  }

  /** The receiving goroutine of blockSend: adds every slot of every received
      array, padding included, to count. */
  method SumBatches(c: seq<seq<int>>) returns (count: int)
    ensures count == SumAll(c)
  {
    count := 0;
    var k := 0;
    while k < |c|
      invariant 0 <= k <= |c|
      invariant count == SumAll(c[..k])
    {
      var a := c[k];
      var n := 0;
      while n < |a|
        invariant 0 <= n <= |a|
        invariant count == SumAll(c[..k]) + Sum(a[..n])
      {
        assert a[..n + 1][..n] == a[..n];
        count := count + a[n];
        n := n + 1;
      }
      assert a[..n] == a;
      assert c[..k + 1][..k] == c[..k];
      k := k + 1;
    }
    assert c[..|c|] == c;
  }

  lemma {:induction false} FlattenConcat(a: seq<seq<int>>, b: seq<seq<int>>)
    ensures Flatten(a + b) == Flatten(a) + Flatten(b)
    decreases |b|
  {
    if b == [] {
      assert a + b == a;
    } else {
      var b' := b[..|b| - 1];
      assert (a + b)[..|a + b| - 1] == a + b';
      assert (a + b)[|a + b| - 1] == b[|b| - 1];
      FlattenConcat(a, b');
    }
  }

  lemma {:induction false} SumAllIsSumOfFlatten(bs: seq<seq<int>>)
    ensures SumAll(bs) == Sum(Flatten(bs))
    decreases |bs|
  {
    if bs != [] {
      SumAllIsSumOfFlatten(bs[..|bs| - 1]);
      SumConcat(Flatten(bs[..|bs| - 1]), bs[|bs| - 1]);
    }
  }

  // Division facts used for the batch count.
  lemma DivIsOne(x: int, b: int)
    requires b > 0 && b <= x < 2 * b
    ensures x / b == 1
  {
  }

  lemma DivUnique(x: int, b: int, q: int, r: int)
    requires b > 0 && 0 <= r < b && x == q * b + r
    ensures x / b == q
  {
    var d := x / b - q;
    assert d * b == r - x % b by {
      assert x == (x / b) * b + x % b;
      assert (x / b) * b == d * b + q * b;
    }
  }

  lemma DivPlusDivisor(y: int, b: int)
    requires b > 0
    ensures (y + b) / b == y / b + 1
  {
    assert y == (y / b) * b + y % b;
    DivUnique(y + b, b, y / b + 1, y % b);
  }

  lemma DivExact(q: int, b: int)
    requires b > 0
    ensures (q * b + b - 1) / b == q
  {
    DivUnique(q * b + b - 1, b, q, b - 1);
  }

  lemma {:induction false} BatchCountFrom(i: int, max: int, block: int)
    requires block > 0 && i < max
    ensures |BatchesFrom(i, max, block)| == (max - i + block - 1) / block
    decreases max - i
  {
    if i + block >= max {
      DivIsOne(max - i + block - 1, block);
    } else {
      BatchCountFrom(i + block, max, block);
      DivPlusDivisor(max - i - 1, block);
    }
  }

  lemma {:induction false} BatchesFromAt(i: int, max: int, block: int, k: int)
    requires block > 0 && 0 <= k < |BatchesFrom(i, max, block)|
    ensures i + k * block < max
    ensures BatchesFrom(i, max, block)[k] == Batch(i + k * block, max, block)
    decreases max - i
  {
    if k > 0 {
      BatchesFromAt(i + block, max, block, k - 1);
      assert i + block + (k - 1) * block == i + k * block;
    }
  }

  /** Batch k starts at k*block; slot n holds k*block+n while that is below max
      and keeps its zero value after the slot holding max-1. */
  lemma BatchContents(max: int, block: int, k: int, n: int)
    requires block > 0 && 0 <= k < |Batches(max, block)| && 0 <= n < block
    ensures k * block < max
    ensures |Batches(max, block)[k]| == block
    ensures Batches(max, block)[k][n] == if k * block + n < max then k * block + n else 0
  {
    BatchesFromAt(0, max, block, k);
  }

  lemma FlattenCons(b: seq<int>, rest: seq<seq<int>>)
    ensures Flatten([b] + rest) == b + Flatten(rest)
  {
    FlattenConcat([b], rest);
    assert [b][..0] == [];
  }

  lemma LastBatch(i: int, max: int, block: int)
    requires block > 0 && i < max <= i + block
    ensures Batch(i, max, block) == Range(i, max) + Zeros(i + block - max)
  {
  }

  lemma FullBatch(i: int, max: int, block: int)
    requires block > 0 && i + block < max
    ensures Batch(i, max, block) == Range(i, i + block)
  {
  }

  /** The batches starting at i hold at least max-i slots and pad fewer than
      block of them. */
  lemma {:induction false} BatchSlotsFrom(i: int, max: int, block: int)
    requires block > 0 && i < max
    ensures max - i <= |BatchesFrom(i, max, block)| * block < max - i + block
    decreases max - i
  {
    var m := |BatchesFrom(i + block, max, block)|;
    assert |BatchesFrom(i, max, block)| == m + 1;
    assert (m + 1) * block == m * block + block;
    if i + block < max {
      BatchSlotsFrom(i + block, max, block);
    }
  }

  /** Concatenated in send order the batches give i..max-1 followed by the
      zero padding of the last batch, which is shorter than one batch. */
  lemma {:induction false} FlattenBatchesFrom(i: int, max: int, block: int)
    requires block > 0 && i < max
    ensures max - i <= |BatchesFrom(i, max, block)| * block < max - i + block
    ensures Flatten(BatchesFrom(i, max, block))
         == Range(i, max) + Zeros(|BatchesFrom(i, max, block)| * block - (max - i))
    decreases max - i
  {
    BatchSlotsFrom(i, max, block);
    var b := Batch(i, max, block);
    var rest := BatchesFrom(i + block, max, block);
    var m := |rest|;
    assert BatchesFrom(i, max, block) == [b] + rest;
    FlattenCons(b, rest);
    assert (m + 1) * block == m * block + block;
    if i + block >= max {
      LastBatch(i, max, block);
    } else {
      FlattenBatchesFrom(i + block, max, block);
      FullBatch(i, max, block);
      RangeConcat(i, i + block, max);
      assert Flatten(rest) == Range(i + block, max) + Zeros(m * block - (max - i - block));
    }
  }

  /** Sum conservation: the blockSend consumer's count is the sum of the whole
      stream, the padding adding nothing. */
  lemma SumAllBatches(max: int, block: int)
    requires block > 0
    ensures SumAll(Batches(max, block)) == if max > 0 then max * (max - 1) / 2 else 0
  {
    SumAllIsSumOfFlatten(Batches(max, block));
    if max > 0 {
      FlattenBatchesFrom(0, max, block);
      var pad := |Batches(max, block)| * block - max;
      SumConcat(Range(0, max), Zeros(pad));
      SumZeros(pad);
      SumRange(max);
    }
  }

  /** When block divides max there is no padding: every batch is full and the
      batches concatenate to exactly 0..max-1. */
  lemma FullBatchesWhenDivisible(max: int, block: int)
    requires block > 0 && max > 0 && max % block == 0
    ensures |Batches(max, block)| == max / block
    ensures Flatten(Batches(max, block)) == Range(0, max)
  {
    DivExact(max / block, block);
    assert max == max / block * block;
    FlattenBatchesFrom(0, max, block);
    assert Zeros(0) == [];
  }

  /** With the program's constants 500 divides 50000000: 100000 full batches;
      the final count 1249999975000000 fits in Go's 64-bit int. */
  lemma ProgramConstants()
    ensures Max % Block == 0
    ensures |Batches(Max, Block)| == 100000
    ensures Flatten(Batches(Max, Block)) == Range(0, Max)
    ensures SumAll(Batches(Max, Block)) == 1249999975000000 < 0x8000_0000_0000_0000
  {
    FullBatchesWhenDivisible(Max, Block);
    SumAllBatches(Max, Block);
  }

  /** blockSend, produce-all-then-consume-all. */
  method BlockSend(max: int, block: int) returns (sent: seq<seq<int>>, count: int)
    requires block > 0
    ensures sent == Batches(max, block)
    ensures |sent| == NumBatches(max, block)
    ensures forall k :: 0 <= k < |sent| ==> |sent[k]| == block
    ensures count == if max > 0 then max * (max - 1) / 2 else 0
  {
    sent := SendBatches(max, block);
    count := SumBatches(sent);
    SumAllBatches(max, block);
  }
}
