// The per-chunk index loop of the templated parallel_for wrapper
// (src/common/thread_pool.h): a chunk [chunkBegin, chunkEnd) calls the
// user's callable once for each index, in increasing order. The callable's
// observable effect is modelled as the sequence of indices it was called
// with.
module ChunkLoop {

  /** The indices lo, lo + 1, ..., hi - 1 (empty when hi <= lo). */
  function Range(lo: nat, hi: nat): (r: seq<nat>)
    ensures |r| == if lo <= hi then hi - lo else 0
    ensures forall i :: 0 <= i < |r| ==> r[i] == lo + i
  {
    if hi <= lo then [] else seq(hi - lo, i requires 0 <= i < hi - lo => lo + i)
  }

  /** A range is strictly increasing. */
  lemma RangeIncreasing(lo: nat, hi: nat, i: nat, j: nat)
    requires i < j < |Range(lo, hi)|
    ensures Range(lo, hi)[i] < Range(lo, hi)[j]
  {
  }

  /** Adjacent ranges concatenate into one. */
  lemma RangeSplit(lo: nat, mid: nat, hi: nat)
    requires lo <= mid <= hi
    ensures Range(lo, mid) + Range(mid, hi) == Range(lo, hi)
  {
    var a, b, c := Range(lo, mid), Range(mid, hi), Range(lo, hi);
    assert |a + b| == |c|;
    forall i | 0 <= i < |c| ensures (a + b)[i] == c[i] {
      if i < |a| {
        assert (a + b)[i] == a[i];
      } else {
        assert (a + b)[i] == b[i - |a|];
      }
    }
  }

  lemma RangeCons(lo: nat, hi: nat)
    requires lo < hi
    ensures Range(lo, hi) == [lo] + Range(lo + 1, hi)
  {
    RangeSplit(lo, lo + 1, hi);
    assert Range(lo, lo + 1) == [lo];
  }

  /** Every index in [lo, hi) occurs exactly once in the range, and no other does. */
  lemma {:induction false} RangeOnce(lo: nat, hi: nat, k: nat)
    ensures multiset(Range(lo, hi))[k] == if lo <= k < hi then 1 else 0
    decreases hi - lo
  {
    if lo < hi {
      var rest := Range(lo + 1, hi);
      RangeOnce(lo + 1, hi, k);
      RangeCons(lo, hi);
      assert multiset([lo] + rest) == multiset{lo} + multiset(rest);
    }
  }

  /** The lambda of parallel_for: call the callable for chunkBegin,
      chunkBegin + 1, ..., chunkEnd - 1, appending each index to the log of
      calls. An empty or reversed chunk calls nothing. */
  method RunChunk(chunkBegin: nat, chunkEnd: nat, calls: seq<nat>) returns (calls': seq<nat>)
    ensures calls' == calls + Range(chunkBegin, chunkEnd)
  {
    calls' := calls;
    var idx := chunkBegin;
    while idx < chunkEnd
      invariant chunkBegin <= idx && (idx <= chunkEnd || idx == chunkBegin)
      invariant calls' == calls + Range(chunkBegin, idx)
      decreases chunkEnd - idx
    {
      RangeSplit(chunkBegin, idx, idx + 1);
      calls' := calls' + [idx];
      idx := idx + 1;
    }
  }
}
