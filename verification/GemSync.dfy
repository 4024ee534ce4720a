/** Range arithmetic of rknpu_gem_sync_ioctl: a request over a buffer whose head may lie in a
    contiguous on-chip cache and whose rest is a scatter list in DDR. */
module GemSync {
  import opened Npu
  import opened Sums

  /** unsigned long is 64 bits wide. */
  const WORD: nat := 0x1_0000_0000_0000_0000

  // ---------- the DDR part ----------

  /** One dma_sync_single_range call: `size` bytes at `offset` of segment `seg`. */
  datatype Sync = Sync(seg: nat, offset: nat, size: nat)

  /** DDR position at which segment `i` begins. */
  function Base(segs: seq<nat>, i: nat): nat
    requires i <= |segs|
  {
    Sum(segs[..i])
  }

  predicate InSegment(segs: seq<nat>, op: Sync) {
    op.seg < |segs| && op.size > 0 && op.offset + op.size <= segs[op.seg]
  }

  predicate AllInSegment(segs: seq<nat>, ops: seq<Sync>) {
    forall i :: 0 <= i < |ops| ==> InSegment(segs, ops[i])
  }

  /** The DDR bytes a list of calls touches, in order, with repetitions if there were any. */
  function Touched(segs: seq<nat>, ops: seq<Sync>): seq<int>
    requires AllInSegment(segs, ops)
  {
    if ops == [] then []
    else
      var n := |ops| - 1;
      assert InSegment(segs, ops[n]);
      Touched(segs, ops[..n]) + Span(Base(segs, ops[n].seg) + ops[n].offset, ops[n].size)
  }

  lemma BaseStep(segs: seq<nat>, i: nat)
    requires i < |segs|
    ensures Base(segs, i + 1) == Base(segs, i) + segs[i]
  {
    assert segs[..i + 1][..i] == segs[..i];
  }

  lemma {:induction false} BaseMonotone(segs: seq<nat>, i: nat, k: nat)
    requires i <= k <= |segs|
    ensures Base(segs, i) <= Base(segs, k)
    decreases k - i
  {
    if i < k {
      BaseStep(segs, k - 1);
      BaseMonotone(segs, i, k - 1);
    }
  }

  /** Different places of the list are different DDR positions, so a position names one place. */
  lemma PlaceOfPosition(segs: seq<nat>, i: nat, o: nat, k: nat, q: nat)
    requires i < |segs| && o < segs[i] && k < |segs| && q < segs[k]
    requires Base(segs, i) + o == Base(segs, k) + q
    ensures i == k && o == q
  {
    BaseStep(segs, i);
    BaseStep(segs, k);
    if i < k { BaseMonotone(segs, i + 1, k); }
    if k < i { BaseMonotone(segs, k + 1, i); }
  }

  function Min(a: int, b: int): int { if a < b then a else b }
  function Max(a: int, b: int): int { if a < b then b else a }

  /** The part of a request of `length` bytes at `offset` that exists in a list of `total` bytes. */
  function Available(total: nat, offset: nat, length: nat): nat {
    Min(length, Max(0, total - offset))
  }

  lemma TouchedAppend(segs: seq<nat>, ops: seq<Sync>, op: Sync)
    requires AllInSegment(segs, ops) && InSegment(segs, op)
    ensures AllInSegment(segs, ops + [op])
    ensures Touched(segs, ops + [op]) == Touched(segs, ops) + Span(Base(segs, op.seg) + op.offset, op.size)
  {
    assert (ops + [op])[..|ops|] == ops;
  }

  lemma SpanJoin(start: int, n: nat, m: nat)
    ensures Span(start, n) + Span(start + n, m) == Span(start, n + m)
  {
  }

  /** The scatter-list loop.  It syncs every requested byte that exists exactly once, in order, at its
      place in its own segment, and nothing else. */
  method SyncSegments(segs: seq<nat>, offset0: nat, length0: nat) returns (ops: seq<Sync>)
    ensures AllInSegment(segs, ops)
    ensures Touched(segs, ops) == Span(offset0, Available(Sum(segs), offset0, length0))
    ensures offset0 + length0 <= Sum(segs) ==> Touched(segs, ops) == Span(offset0, length0)
    ensures offset0 <= Sum(segs) < offset0 + length0 ==> Touched(segs, ops) == Span(offset0, Sum(segs) - offset0)
    ensures Sum(segs) <= offset0 || length0 == 0 ==> Touched(segs, ops) == []
  {
    ops := [];
    var length: int, offset: int, len: int := length0, offset0, 0;
    var i := 0;
    assert segs[..0] == [];
    while i < |segs| && length != 0
      invariant 0 <= i <= |segs| && len == Base(segs, i)
      invariant offset0 <= offset && 0 <= length && length + (offset - offset0) == length0
      invariant length > 0 ==> len <= offset
      invariant offset > offset0 ==> offset <= len
      invariant AllInSegment(segs, ops)
      invariant Touched(segs, ops) == Span(offset0, offset - offset0)
    {
      BaseStep(segs, i);
      len := len + segs[i];
      if len > offset {
        var left := len - offset;
        var segOffset := segs[i] - left;
        var size := if length < left then length else left;
        TouchedAppend(segs, ops, Sync(i, segOffset, size));
        SpanJoin(offset0, offset - offset0, size);
        ops := ops + [Sync(i, segOffset, size)];
        offset := offset + size;
        length := length - size;
      }
      i := i + 1;
    }
    BaseMonotone(segs, i, |segs|);
    assert segs[..|segs|] == segs;
    assert offset - offset0 == Available(Sum(segs), offset0, length0);
  }

  // ---------- the cache part ----------

  /** Bytes synced in the cache, and the request passed on to the scatter list. */
  datatype Split = Split(cached: nat, length: nat, offset: nat)

  /** The contiguous case of rknpu_cache_sync, in 64-bit arithmetic. */
  function CacheSplit(offset: nat, length: nat, cache: nat): Split
    requires offset < WORD && length < WORD && cache < WORD
  {
    if offset >= cache then Split(0, length, offset - cache)
    else if (offset + length) % WORD <= cache then Split(length, 0, 0)
    else Split(cache - offset, (length - (cache - offset)) % WORD, 0)
  }

  /** What the split should do: the cached bytes are those of the request below `cache`, and the rest
      of the request, moved down by `cache`, is what goes on. */
  predicate SplitsRequest(offset: nat, length: nat, cache: nat, s: Split) {
    && s.cached == Max(0, Min(offset + length, cache) - offset)
    && s.length == length - s.cached
    && (s.length > 0 ==> s.offset == Max(offset, cache) - cache)
  }

  /** The split is right exactly when the end of a request that begins in the cache does not wrap. */
  lemma CacheSplitExact(offset: nat, length: nat, cache: nat)
    requires offset < WORD && length < WORD && cache < WORD
    ensures SplitsRequest(offset, length, cache, CacheSplit(offset, length, cache)) <==>
            (offset >= cache || offset + length < WORD)
  {
    if offset < cache {
      if offset + length < WORD {
        assert (offset + length) % WORD == offset + length;
        if offset + length > cache {
          assert (length - (cache - offset)) % WORD == length - (cache - offset);
        }
      } else {
        assert (offset + length) % WORD == offset + length - WORD;
      }
    }
  }

  /** The whole request over a buffer of `cache` cached bytes followed by the scatter list, whenever the
      split is right: a request at or beyond the cache, or any request at all if there is none, may be as
      long as a word allows. */
  method SyncRange(cache: nat, segs: seq<nat>, offset: nat, length: nat) returns (cached: nat, ops: seq<Sync>)
    requires cache < WORD && offset < WORD && length < WORD && (offset >= cache || offset + length < WORD)
    ensures cached == Max(0, Min(offset + length, cache) - offset)
    ensures AllInSegment(segs, ops)
    ensures Span(offset, cached) + Shifted(Touched(segs, ops), cache) ==
            Span(offset, Available(cache + Sum(segs), offset, length))
  {
    CacheSplitExact(offset, length, cache);
    var s := CacheSplit(offset, length, cache);
    cached := s.cached;
    ops := SyncSegments(segs, s.offset, s.length);
    var n := Available(Sum(segs), s.offset, s.length);
    ShiftSpan(s.offset, n, cache);
    if s.length > 0 {
      if cached > 0 { SpanJoin(offset, cached, n); }
    }
  }

  /** Positions in DDR as positions in the buffer. */
  function Shifted(xs: seq<int>, delta: int): (ys: seq<int>)
    ensures |ys| == |xs|
  {
    seq(|xs|, i requires 0 <= i < |xs| => xs[i] + delta)
  }

  lemma ShiftSpan(start: int, n: nat, delta: int)
    ensures Shifted(Span(start, n), delta) == Span(start + delta, n)
  {
  }
}
