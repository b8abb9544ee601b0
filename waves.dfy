/**
 * The partition of a run's operations into waves (batches of at most
 * `concurrency` calls dispatched together), and the global order in which
 * the calls complete when the waves are drained one after another.
 */
module Batching {
  import opened Types

  /** One batch: the operation indices start .. start + size - 1. */
  datatype Wave = Wave(start: int, size: int)

  /** How many batches the partition loop creates for `total` operations. */
  function NumWaves(total: int, c: int): nat
    requires c >= 1
    decreases total
  {
    if total <= 0 then 0 else 1 + NumWaves(total - c, c)
  }

  /** The batches in creation order: batch k starts at k * c and holds
      min(c, total - k * c) operations. */
  function Waves(total: int, c: int): (ws: seq<Wave>)
    requires c >= 1
    ensures |ws| == NumWaves(total, c)
    ensures ws == [] <==> total <= 0
    ensures forall k :: 0 <= k < |ws| ==> ws[k].start == k * c && ws[k].size <= c
  {
    seq(NumWaves(total, c), k => Wave(k * c, Min(c, total - k * c)))
  }

  /** Each batch begins where the previous one ended, the first at 0. */
  ghost predicate Contiguous(ws: seq<Wave>)
  {
    && (ws != [] ==> ws[0].start == 0)
    && (forall k :: 0 < k < |ws| ==> ws[k].start == ws[k - 1].start + ws[k - 1].size)
  }

  /** The first operation index past the last batch. */
  function End(ws: seq<Wave>): int
  {
    if ws == [] then 0 else ws[|ws| - 1].start + ws[|ws| - 1].size
  }

  function SumSizes(ws: seq<Wave>): int
  {
    if ws == [] then 0 else SumSizes(ws[..|ws| - 1]) + ws[|ws| - 1].size
  }

  function Sizes(ws: seq<Wave>): seq<int>
  {
    seq(|ws|, k requires 0 <= k < |ws| => ws[k].size)
  }

  /** The partition loop of the runner: it pushes one batch per step and
      advances by the batch size until every operation is covered. */
  method BuildBatches(total: int, c: int) returns (batches: seq<Wave>)
    requires c >= 1
    ensures batches == Waves(total, c)
  {
    batches := [];
    var i := 0;
    while i < total
      invariant i == |batches| * c
      invariant |batches| + NumWaves(total - i, c) == NumWaves(total, c)
      invariant forall k :: 0 <= k < |batches| ==> batches[k] == Wave(k * c, Min(c, total - k * c))
      decreases total - i
    {
      batches := batches + [Wave(i, Min(c, total - i))];
      i := i + c;
    }
  }

  /** Batch k starts at k * c, so a later batch never starts earlier. */
  lemma BatchStartsMonotone(c: int, k1: int, k2: int)
    requires c >= 1 && 0 <= k1 <= k2
    ensures k1 * c <= k2 * c
  {
    assert k2 * c - k1 * c == (k2 - k1) * c;
  }

  /** n batches of at most c operations cover exactly total operations, and
      n - 1 full batches do not. */
  lemma {:induction false} NumWavesBounds(total: int, c: int)
    requires c >= 1
    ensures total <= 0 ==> NumWaves(total, c) == 0
    ensures total > 0 ==> (NumWaves(total, c) - 1) * c < total <= NumWaves(total, c) * c
  {
    if total > 0 {
      var m := NumWaves(total - c, c);
      NumWavesBounds(total - c, c);
      assert (m + 1) * c == m * c + c;
      assert (m - 1) * c == m * c - c;
    }
  }

  /** The batches start at 0, c, 2c, ..., each holds between 1 and c
      operations, every batch but the last holds exactly c, and together they
      cover the operations 0 .. total - 1 without gap or overlap. */
  lemma WavesPartition(total: int, c: int)
    requires c >= 1
    ensures var ws := Waves(total, c);
      && (forall k :: 0 <= k < |ws| ==> ws[k].start == k * c && 1 <= ws[k].size <= c)
      && (forall k :: 0 <= k < |ws| - 1 ==> ws[k].size == c)
      && Contiguous(ws)
      && End(ws) == (if total <= 0 then 0 else total)
      && SumSizes(ws) == End(ws)
  {
    var ws := Waves(total, c);
    var n := |ws|;
    NumWavesBounds(total, c);
    forall k | 0 <= k < n
      ensures 1 <= ws[k].size <= c
      ensures k < n - 1 ==> ws[k].size == c
    {
      BatchStartsMonotone(c, k, n - 1);
      if k < n - 1 {
        BatchStartsMonotone(c, k + 1, n - 1);
        assert (k + 1) * c == k * c + c;
      }
    }
    forall k | 0 < k < n
      ensures ws[k].start == ws[k - 1].start + ws[k - 1].size
    {
      assert (k - 1) * c + c == k * c;
    }
    if n > 0 {
      assert (n - 1) * c + c == n * c;
    }
    ContiguousSumSizes(ws);
  }

  lemma {:induction false} ContiguousSumSizes(ws: seq<Wave>)
    requires Contiguous(ws)
    ensures SumSizes(ws) == End(ws)
  {
    if ws != [] {
      var pre := ws[..|ws| - 1];
      ContiguousPrefix(ws);
      ContiguousSumSizes(pre);
      if |ws| > 1 {
        assert pre[|pre| - 1] == ws[|ws| - 2];
      }
      assert ws[|ws| - 1].start == End(pre);
    }
  }

  /** Ten operations at concurrency three run as four batches of sizes
      3, 3, 3 and 1. */
  lemma TenOperationsAtConcurrencyThree()
    ensures Sizes(Waves(10, 3)) == [3, 3, 3, 1]
  {
    assert NumWaves(1, 3) == 1;
    assert NumWaves(4, 3) == 2;
    assert NumWaves(7, 3) == 3;
    assert NumWaves(10, 3) == 4;
  }

  // ---------------------------------------------------------------------
  // Completion order

  /** `p` lists each of 0 .. n - 1 exactly once. */
  ghost predicate IsPermutation(p: seq<int>, n: int)
  {
    && |p| == n
    && (forall k :: 0 <= k < |p| ==> 0 <= p[k] < n)
    && (forall j, k :: 0 <= j < k < |p| ==> p[j] != p[k])
    && (forall x :: 0 <= x < n ==> x in p)
  }

  /** The operation indices of one batch in the order its calls resolved,
      given that order as positions within the batch. */
  function WaveCompletions(w: Wave, order: seq<int>): (ids: seq<int>)
    ensures |ids| == |order|
  {
    seq(|order|, k requires 0 <= k < |order| => w.start + order[k])
  }

  /** The operation indices of a whole run in the order their calls resolved:
      batch after batch, each in its own resolution order. */
  function CompletionOrder(ws: seq<Wave>, orders: seq<seq<int>>): seq<int>
    requires |orders| == |ws|
  {
    if ws == [] then []
    else CompletionOrder(ws[..|ws| - 1], orders[..|orders| - 1])
         + WaveCompletions(ws[|ws| - 1], orders[|orders| - 1])
  }

  /** Appending a batch that resolves in some permutation of its own
      positions to a permutation of the operations before it gives a
      permutation of all operations up to the batch's end. */
  lemma AppendBatch(head: seq<int>, w: Wave, order: seq<int>)
    requires IsPermutation(head, w.start) && IsPermutation(order, w.size)
    ensures IsPermutation(head + WaveCompletions(w, order), w.start + w.size)
  {
    var block := WaveCompletions(w, order);
    var ids := head + block;
    forall p, q | 0 <= p < q < |ids| ensures ids[p] != ids[q] {
      if q < |head| {
        assert ids[p] == head[p] && ids[q] == head[q];
      } else if p < |head| {
        assert ids[p] == head[p] && ids[q] == block[q - |head|];
      } else {
        assert ids[p] == block[p - |head|] && ids[q] == block[q - |head|];
      }
    }
    forall x | 0 <= x < w.start + w.size ensures x in ids {
      if x < w.start {
        assert x in head;
      } else {
        assert x - w.start in order;
        var j :| 0 <= j < |order| && order[j] == x - w.start;
        assert ids[|head| + j] == x;
      }
    }
  }

  lemma PrefixPermutations(ws: seq<Wave>, orders: seq<seq<int>>)
    requires |orders| == |ws| && ws != []
    requires forall k :: 0 <= k < |ws| ==> IsPermutation(orders[k], ws[k].size)
    ensures var pre, preOrders := ws[..|ws| - 1], orders[..|ws| - 1];
      forall k :: 0 <= k < |pre| ==> IsPermutation(preOrders[k], pre[k].size)
  {
    var pre, preOrders := ws[..|ws| - 1], orders[..|ws| - 1];
    forall k | 0 <= k < |pre| ensures IsPermutation(preOrders[k], pre[k].size) {
      assert pre[k] == ws[k] && preOrders[k] == orders[k];
    }
  }

  /** Every operation of a contiguous run of batches resolves exactly once. */
  lemma {:induction false} CompletionOrderPermutation(ws: seq<Wave>, orders: seq<seq<int>>)
    requires |orders| == |ws| && Contiguous(ws)
    requires forall k :: 0 <= k < |ws| ==> IsPermutation(orders[k], ws[k].size)
    ensures IsPermutation(CompletionOrder(ws, orders), End(ws))
  {
    if ws != [] {
      var n := |ws|;
      var pre, preOrders := ws[..n - 1], orders[..n - 1];
      ContiguousPrefix(ws);
      PrefixPermutations(ws, orders);
      CompletionOrderPermutation(pre, preOrders);
      assert ws[n - 1].start == End(pre) by {
        if n > 1 { assert pre[n - 2] == ws[n - 2]; }
      }
      AppendBatch(CompletionOrder(pre, preOrders), ws[n - 1], orders[n - 1]);
    }
  }

  lemma {:induction false} CompletionOrderLength(ws: seq<Wave>, orders: seq<seq<int>>)
    requires |orders| == |ws| && Contiguous(ws)
    requires forall k :: 0 <= k < |ws| ==> |orders[k]| == ws[k].size
    ensures |CompletionOrder(ws, orders)| == End(ws)
  {
    if ws != [] {
      var n := |ws|;
      var pre, preOrders := ws[..n - 1], orders[..n - 1];
      ContiguousPrefix(ws);
      assert forall k :: 0 <= k < |pre| ==> pre[k] == ws[k] && preOrders[k] == orders[k];
      CompletionOrderLength(pre, preOrders);
      assert ws[n - 1].start == End(pre) by {
        if n > 1 { assert pre[n - 2] == ws[n - 2]; }
      }
      var head, tail := CompletionOrder(pre, preOrders), WaveCompletions(ws[n - 1], orders[n - 1]);
      assert CompletionOrder(ws, orders) == head + tail;
      assert |tail| == ws[n - 1].size;
    }
  }

  /** The calls of all batches but the last fill the positions before the
      last batch's first operation. */
  lemma PrefixLength(ws: seq<Wave>, orders: seq<seq<int>>)
    requires |orders| == |ws| && Contiguous(ws) && ws != []
    requires forall i :: 0 <= i < |ws| ==> |orders[i]| == ws[i].size
    ensures |CompletionOrder(ws[..|ws| - 1], orders[..|ws| - 1])| == ws[|ws| - 1].start
  {
    var n := |ws|;
    var pre, preOrders := ws[..n - 1], orders[..n - 1];
    ContiguousPrefix(ws);
    assert forall i :: 0 <= i < |pre| ==> pre[i] == ws[i] && preOrders[i] == orders[i];
    CompletionOrderLength(pre, preOrders);
    if n > 1 { assert pre[n - 2] == ws[n - 2]; }
  }

  /** The calls of the last batch resolve after all earlier ones, at the
      positions of that batch, with operation indices of that batch. */
  lemma CompletionInLastBlock(ws: seq<Wave>, orders: seq<seq<int>>, p: int)
    requires |orders| == |ws| && Contiguous(ws) && ws != []
    requires forall i :: 0 <= i < |ws| ==> |orders[i]| == ws[i].size
    requires IsPermutation(orders[|ws| - 1], ws[|ws| - 1].size)
    requires ws[|ws| - 1].start <= p < ws[|ws| - 1].start + ws[|ws| - 1].size
    ensures 0 <= p < |CompletionOrder(ws, orders)|
    ensures ws[|ws| - 1].start <= CompletionOrder(ws, orders)[p] < ws[|ws| - 1].start + ws[|ws| - 1].size
  {
    var n := |ws|;
    var last, order := ws[n - 1], orders[n - 1];
    PrefixLength(ws, orders);
    var head := CompletionOrder(ws[..n - 1], orders[..n - 1]);
    var tail := WaveCompletions(last, order);
    assert CompletionOrder(ws, orders) == head + tail;
    var q := p - last.start;
    assert 0 <= order[q] < last.size;
    assert tail[q] == last.start + order[q];
  }

  /** The call resolving at position p, inside batch k's positions, is an
      operation of batch k. */
  lemma {:induction false} CompletionInBlock(ws: seq<Wave>, orders: seq<seq<int>>, k: int, p: int)
    requires |orders| == |ws| && Contiguous(ws)
    requires forall i :: 0 <= i < |ws| ==> IsPermutation(orders[i], ws[i].size)
    requires 0 <= k < |ws| && ws[k].start <= p < ws[k].start + ws[k].size
    ensures 0 <= p < |CompletionOrder(ws, orders)|
    ensures ws[k].start <= CompletionOrder(ws, orders)[p] < ws[k].start + ws[k].size
  {
    var n := |ws|;
    if k == n - 1 {
      assert IsPermutation(orders[n - 1], ws[n - 1].size);
      CompletionInLastBlock(ws, orders, p);
    } else {
      var pre, preOrders := ws[..n - 1], orders[..n - 1];
      CompletionOrderLength(ws, orders);
      BlockBeforeEnd(ws, k);
      ContiguousPrefix(ws);
      PrefixPermutations(ws, orders);
      assert pre[k] == ws[k];
      CompletionInBlock(pre, preOrders, k, p);
      var head := CompletionOrder(pre, preOrders);
      assert CompletionOrder(ws, orders) == head + WaveCompletions(ws[n - 1], orders[n - 1]);
      assert CompletionOrder(ws, orders)[p] == head[p];
    }
  }

  /** Every call resolving while batch k drains belongs to batch k. */
  lemma {:induction false} CompletionOrderBlocks(ws: seq<Wave>, orders: seq<seq<int>>)
    requires |orders| == |ws| && Contiguous(ws)
    requires forall k :: 0 <= k < |ws| ==> IsPermutation(orders[k], ws[k].size)
    ensures |CompletionOrder(ws, orders)| == End(ws)
    ensures forall k :: 0 <= k < |ws| ==> 0 <= ws[k].start && ws[k].start + ws[k].size <= End(ws)
    ensures forall k, p :: 0 <= k < |ws| && ws[k].start <= p < ws[k].start + ws[k].size ==>
      ws[k].start <= CompletionOrder(ws, orders)[p] < ws[k].start + ws[k].size
  {
    CompletionOrderLength(ws, orders);
    BlocksInRange(ws);
    forall k, p | 0 <= k < |ws| && ws[k].start <= p < ws[k].start + ws[k].size
      ensures ws[k].start <= CompletionOrder(ws, orders)[p] < ws[k].start + ws[k].size
    {
      CompletionInBlock(ws, orders, k, p);
    }
  }

  /** Because batches drain one after another, every call of a later batch
      resolves with a higher operation index than every call of an earlier
      batch. */
  lemma LaterWaveHigherIndices(total: int, c: int, orders: seq<seq<int>>, k1: int, p: int, k2: int, q: int)
    requires c >= 1
    requires |orders| == NumWaves(total, c)
    requires forall k :: 0 <= k < |orders| ==> IsPermutation(orders[k], Waves(total, c)[k].size)
    requires 0 <= k1 < k2 < |orders|
    requires Waves(total, c)[k1].start <= p < Waves(total, c)[k1].start + Waves(total, c)[k1].size
    requires Waves(total, c)[k2].start <= q < Waves(total, c)[k2].start + Waves(total, c)[k2].size
    ensures 0 <= p < q < |CompletionOrder(Waves(total, c), orders)|
    ensures CompletionOrder(Waves(total, c), orders)[p] < CompletionOrder(Waves(total, c), orders)[q]
  {
    var ws := Waves(total, c);
    assert Contiguous(ws) by { WavesPartition(total, c); }
    CompletionInBlock(ws, orders, k1, p);
    CompletionInBlock(ws, orders, k2, q);
    BatchStartsMonotone(c, k1 + 1, k2);
    assert (k1 + 1) * c == k1 * c + c;
    assert (k1 + 1) * c == k1 * c + c;
  }

  lemma ContiguousPrefix(ws: seq<Wave>)
    requires Contiguous(ws) && ws != []
    ensures Contiguous(ws[..|ws| - 1])
  {
  }

  lemma BlocksInRange(ws: seq<Wave>)
    requires Contiguous(ws)
    requires forall i :: 0 <= i < |ws| ==> ws[i].size >= 0
    ensures forall k :: 0 <= k < |ws| ==> 0 <= ws[k].start && ws[k].start + ws[k].size <= End(ws)
  {
    forall k | 0 <= k < |ws| ensures 0 <= ws[k].start && ws[k].start + ws[k].size <= End(ws) {
      BlockBeforeEnd(ws, k);
    }
  }

  /** In a contiguous run of batches of non-negative size, every batch lies
      between 0 and the end of the last one. */
  lemma {:induction false} BlockBeforeEnd(ws: seq<Wave>, k: int)
    requires Contiguous(ws) && 0 <= k < |ws|
    requires forall i :: 0 <= i < |ws| ==> ws[i].size >= 0
    ensures 0 <= ws[k].start && ws[k].start + ws[k].size <= End(ws)
  {
    var n := |ws|;
    if n > 1 {
      var pre := ws[..n - 1];
      ContiguousPrefix(ws);
      var j := if k < n - 1 then k else n - 2;
      assert pre[j] == ws[j];
      assert pre[n - 2] == ws[n - 2];
      BlockBeforeEnd(pre, j);
      BlockBeforeEnd(pre, n - 2);
    }
  }

  /** Draining one more batch appends that batch's completions. */
  lemma CompletionOrderStep(ws: seq<Wave>, orders: seq<seq<int>>, m: int)
    requires |orders| == |ws| && 0 <= m < |ws|
    ensures CompletionOrder(ws[..m + 1], orders[..m + 1])
      == CompletionOrder(ws[..m], orders[..m]) + WaveCompletions(ws[m], orders[m])
  {
    assert ws[..m + 1][..m] == ws[..m];
    assert orders[..m + 1][..m] == orders[..m];
  }

  /** Draining only the first m batches resolves a prefix of the order in
      which draining all of them resolves the calls. */
  lemma {:induction false} CompletionOrderPrefix(ws: seq<Wave>, orders: seq<seq<int>>, m: int)
    requires |orders| == |ws| && 0 <= m <= |ws|
    ensures CompletionOrder(ws[..m], orders[..m]) <= CompletionOrder(ws, orders)
    decreases |ws| - m
  {
    if m < |ws| {
      CompletionOrderPrefix(ws, orders, m + 1);
      CompletionOrderStep(ws, orders, m);
      var shorter, longer := CompletionOrder(ws[..m], orders[..m]), CompletionOrder(ws[..m + 1], orders[..m + 1]);
      assert longer[..|shorter|] == shorter;
    } else {
      assert ws[..m] == ws && orders[..m] == orders;
    }
  }

  /** When only the first m batches drain, a call of a later one of them
      still resolves with a higher operation index than every call of an
      earlier one. */
  lemma PrefixLaterWaveHigher(total: int, c: int, orders: seq<seq<int>>, m: int, ids: seq<int>,
                              k1: int, p: int, k2: int, q: int)
    requires c >= 1 && |orders| == NumWaves(total, c)
    requires forall k :: 0 <= k < |orders| ==> IsPermutation(orders[k], Waves(total, c)[k].size)
    requires 0 <= k1 < k2 < m <= |orders|
    requires ids == CompletionOrder(Waves(total, c)[..m], orders[..m])
    requires Waves(total, c)[k1].start <= p < Waves(total, c)[k1].start + Waves(total, c)[k1].size
    requires Waves(total, c)[k2].start <= q < Waves(total, c)[k2].start + Waves(total, c)[k2].size
    ensures 0 <= p < q < |ids| && ids[p] < ids[q]
  {
    var ws := Waves(total, c);
    var full := CompletionOrder(ws, orders);
    LaterWaveHigherIndices(total, c, orders, k1, p, k2, q);
    CompletionOrderPrefix(ws, orders, m);
    WavesPartition(total, c);
    ContiguousTake(ws, m);
    var pre, preOrders := ws[..m], orders[..m];
    assert forall i :: 0 <= i < m ==> pre[i] == ws[i] && |preOrders[i]| == pre[i].size;
    CompletionOrderLength(pre, preOrders);
    BlockBeforeEnd(pre, k2);
    assert ids[p] == full[p] && ids[q] == full[q];
  }

  lemma ContiguousTake(ws: seq<Wave>, m: int)
    requires Contiguous(ws) && 0 <= m <= |ws|
    ensures Contiguous(ws[..m])
  {
  }

  /** The calls resolved by the first m batches are operations of the run:
      each index is one of 0 .. total - 1, and none repeats; after every
      batch, all of them have resolved. */
  lemma PrefixInRange(total: int, c: int, orders: seq<seq<int>>, m: int, ids: seq<int>)
    requires c >= 1 && |orders| == NumWaves(total, c) && 0 <= m <= |orders|
    requires forall k :: 0 <= k < |orders| ==> IsPermutation(orders[k], Waves(total, c)[k].size)
    requires ids == CompletionOrder(Waves(total, c)[..m], orders[..m])
    ensures forall p :: 0 <= p < |ids| ==> 0 <= ids[p] < total
    ensures forall p, q :: 0 <= p < q < |ids| ==> ids[p] != ids[q]
    ensures ids != [] ==> total > 0
    ensures m == |orders| ==> |ids| == (if total <= 0 then 0 else total)
  {
    var ws := Waves(total, c);
    WavesPartition(total, c);
    var pre, preOrders := ws[..m], orders[..m];
    ContiguousTake(ws, m);
    forall k | 0 <= k < m ensures IsPermutation(preOrders[k], pre[k].size) {
      assert preOrders[k] == orders[k] && pre[k] == ws[k];
    }
    CompletionOrderPermutation(pre, preOrders);
    if m > 0 {
      BlockBeforeEnd(ws, m - 1);
      assert pre[m - 1] == ws[m - 1];
    }
    if m == |orders| {
      assert pre == ws;
    }
  }
}
