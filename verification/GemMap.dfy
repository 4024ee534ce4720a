/** Buffers with a contiguous cache head: allocation maps the cache and then the DDR pages into one
    IOVA range and rolls back on every failure; freeing takes exactly that buffer away again. */
module GemMap {
  import opened Npu

  /** A scatter-list segment: `length` bytes at physical address `phys`. */
  datatype Seg = Seg(phys: int, length: nat)

  /** Physical addresses of the list's bytes, in order. */
  function Bytes(segs: seq<Seg>): seq<int> {
    if segs == [] then []
    else Bytes(segs[..|segs| - 1]) + Span(segs[|segs| - 1].phys, segs[|segs| - 1].length)
  }

  /** The addresses [start, start + n). */
  function Keys(start: int, n: nat): set<int> {
    if n == 0 then {} else Keys(start, n - 1) + {start + n - 1}
  }

  /** The page table with `bytes` mapped at `start`. */
  function MapAt(pt: map<int, int>, start: int, bytes: seq<int>): map<int, int>
    decreases |bytes|
  {
    if bytes == [] then pt
    else
      var n := |bytes| - 1;
      MapAt(pt, start, bytes[..n])[start + n := bytes[n]]
  }

  lemma {:induction false} KeysMember(start: int, n: nat, k: int)
    ensures k in Keys(start, n) <==> start <= k < start + n
  {
    if n > 0 { KeysMember(start, n - 1, k); }
  }

  /** Inside the range the table gives the bytes, outside it is as before. */
  lemma {:induction false} MapAtValue(pt: map<int, int>, start: int, bytes: seq<int>, k: int)
    ensures start <= k < start + |bytes| ==>
            k in MapAt(pt, start, bytes) && MapAt(pt, start, bytes)[k] == bytes[k - start]
    ensures !(start <= k < start + |bytes|) ==> (k in MapAt(pt, start, bytes) <==> k in pt)
    ensures !(start <= k < start + |bytes|) && k in pt ==> MapAt(pt, start, bytes)[k] == pt[k]
    decreases |bytes|
  {
    if bytes != [] { MapAtValue(pt, start, bytes[..|bytes| - 1], k); }
  }

  lemma {:induction false} MapMore(pt: map<int, int>, start: int, a: seq<int>, b: seq<int>)
    ensures MapAt(MapAt(pt, start, a), start + |a|, b) == MapAt(pt, start, a + b)
    decreases |b|
  {
    if b == [] {
      assert a + b == a;
    } else {
      var n := |b| - 1;
      MapMore(pt, start, a, b[..n]);
      assert (a + b)[..|a| + n] == a + b[..n];
    }
  }

  lemma UnmapUndoes(pt: map<int, int>, start: int, bytes: seq<int>)
    requires pt.Keys !! Keys(start, |bytes|)
    ensures MapAt(pt, start, bytes) - Keys(start, |bytes|) == pt
  {
    var undone := MapAt(pt, start, bytes) - Keys(start, |bytes|);
    forall k ensures k in undone <==> k in pt
      ensures k in pt ==> undone[k] == pt[k]
    {
      KeysMember(start, |bytes|, k);
      MapAtValue(pt, start, bytes, k);
    }
  }

  lemma MinusTwice(pt: map<int, int>, a: set<int>, b: set<int>)
    ensures pt - a - b == pt - (a + b)
  {
  }

  lemma KeysSplit(start: int, n: nat, m: nat, whole: nat)
    requires n + m <= whole
    ensures Keys(start, n + m) == Keys(start, n) + Keys(start + n, m)
    ensures Keys(start, n) !! Keys(start + n, m)
    ensures Keys(start, n + m) <= Keys(start, whole)
  {
    forall k ensures k in Keys(start, n + m) <==> k in Keys(start, n) + Keys(start + n, m)
      ensures !(k in Keys(start, n) && k in Keys(start + n, m))
      ensures k in Keys(start, n + m) ==> k in Keys(start, whole)
    {
      KeysMember(start, n + m, k);
      KeysMember(start, n, k);
      KeysMember(start + n, m, k);
      KeysMember(start, whole, k);
    }
  }

  /** Two unmap calls, or one when there is no DDR part, clear the whole mapped range. */
  lemma UnmapHalves(pt: map<int, int>, iova: int, cacheSize: nat, size: nat)
    ensures size > 0 ==> pt - Keys(iova, cacheSize) - Keys(iova + cacheSize, size) == pt - Keys(iova, cacheSize + size)
    ensures size == 0 ==> pt - Keys(iova, cacheSize) == pt - Keys(iova, cacheSize + size)
  {
    KeysSplit(iova, cacheSize, size, cacheSize + size);
    MinusTwice(pt, Keys(iova, cacheSize), Keys(iova + cacheSize, size));
  }

  // ---------- the state, and what it means ----------

  /** A gem object, by its number. */
  type Handle = nat

  /** A live buffer: its IOVA range, the cache at its head and the physical addresses of its DDR bytes. */
  datatype Buffer = Buffer(iova: int, iovaSize: nat, cache: int, cacheSize: nat, ddr: seq<int>)

  function Contents(b: Buffer): seq<int> { Span(b.cache, b.cacheSize) + b.ddr }

  predicate Owns(b: Buffer, k: int) { b.iova <= k < b.iova + b.iovaSize }

  predicate Maps(b: Buffer, k: int) { b.iova <= k < b.iova + b.cacheSize + |b.ddr| }

  predicate Fits(b: Buffer) { b.cacheSize + |b.ddr| <= b.iovaSize }

  /** What the IOMMU translates, the addresses the IOVA allocator has handed out, the objects that hold
      a page array and a scatter table, and the live buffers. */
  datatype View = View(
    pt: map<int, int>,
    reserved: set<int>,
    pages: set<Handle>,
    sgts: set<Handle>,
    objs: map<Handle, Buffer>)

  ghost predicate OwnedBySome(objs: map<Handle, Buffer>, k: int) {
    exists h :: h in objs && Owns(objs[h], k)
  }

  ghost predicate MappedBySome(objs: map<Handle, Buffer>, k: int) {
    exists h :: h in objs && Maps(objs[h], k)
  }

  function WithPages(objs: map<Handle, Buffer>): set<Handle> {
    set h | h in objs && objs[h].ddr != []
  }

  ghost predicate Disjoint(objs: map<Handle, Buffer>) {
    forall g, h, k :: g in objs && h in objs && Owns(objs[g], k) && Owns(objs[h], k) ==> g == h
  }

  /** At address `k`: it is reserved exactly if a live range contains it, mapped exactly if a live buffer
      maps it, and then to that buffer's byte. */
  ghost predicate PointOk(v: View, k: int) {
    && (k in v.reserved <==> OwnedBySome(v.objs, k))
    && (k in v.pt <==> MappedBySome(v.objs, k))
    && (forall h :: h in v.objs && Maps(v.objs[h], k) ==>
       k in v.pt && v.pt[k] == Contents(v.objs[h])[k - v.objs[h].iova])
  }

  predicate AllFit(objs: map<Handle, Buffer>) {
    forall h :: h in objs ==> Fits(objs[h])
  }

  /** Live ranges are disjoint, the reserved addresses are exactly theirs, and the page table is exactly
      the union of their mappings. */
  ghost predicate ViewOk(v: View) {
    && AllFit(v.objs)
    && Disjoint(v.objs)
    && (forall k :: PointOk(v, k))
    && v.pages == WithPages(v.objs) && v.sgts == WithPages(v.objs)
  }

  /** Address by address: a live buffer's range translates to its cache and then to its DDR bytes, and
      an address outside every live buffer is not mapped. */
  lemma Translates(v: View, h: Handle, k: int)
    requires ViewOk(v)
    ensures h in v.objs && Maps(v.objs[h], k) ==>
              var b := v.objs[h];
              && k in v.pt
              && v.pt[k] == if k < b.iova + b.cacheSize then b.cache + (k - b.iova) else b.ddr[k - b.iova - b.cacheSize]
    ensures k in v.pt ==> exists g :: g in v.objs && Maps(v.objs[g], k)
  {
    assert PointOk(v, k);
  }

  /** The live buffers determine everything else: two consistent states with the same buffers are equal,
      whatever their histories. */
  lemma Determined(v: View, w: View)
    requires ViewOk(v) && ViewOk(w) && v.objs == w.objs
    ensures v == w
  {
    forall k ensures k in v.pt <==> k in w.pt
      ensures k in v.pt && k in w.pt ==> v.pt[k] == w.pt[k]
      ensures k in v.reserved <==> k in w.reserved
    {
      assert PointOk(v, k) && PointOk(w, k);
    }
    assert v.pt == w.pt && v.reserved == w.reserved;
  }

  // ---------- allocation and free as steps ----------

  datatype Op = Alloc(h: Handle, b: Buffer) | Free(h: Handle)

  /** The IOVA allocator hands out a large enough range that is not in use. */
  predicate Can(v: View, op: Op) {
    match op
    case Alloc(h, b) => h !in v.objs && Fits(b) && v.reserved !! Keys(b.iova, b.iovaSize)
    case Free(h) => h in v.objs
  }

  function Apply(v: View, op: Op): View
    requires Can(v, op)
  {
    match op
    case Alloc(h, b) =>
      var own: set<Handle> := if b.ddr != [] then {h} else {};
      View(MapAt(v.pt, b.iova, Contents(b)), v.reserved + Keys(b.iova, b.iovaSize),
           v.pages + own, v.sgts + own, v.objs[h := b])
    case Free(h) =>
      var b := v.objs[h];
      View(v.pt - Keys(b.iova, b.cacheSize + |b.ddr|), v.reserved - Keys(b.iova, b.iovaSize),
           v.pages - {h}, v.sgts - {h}, v.objs - {h})
  }

  /** A free range belongs to nobody. */
  lemma FreeRange(v: View, h: Handle, b: Buffer, k: int)
    requires ViewOk(v) && Can(v, Alloc(h, b)) && Owns(b, k)
    ensures !OwnedBySome(v.objs, k) && !MappedBySome(v.objs, k)
    ensures forall g :: g in v.objs ==> !Owns(v.objs[g], k)
  {
    KeysMember(b.iova, b.iovaSize, k);
    assert PointOk(v, k);
    MappedIsOwned(v.objs, k);
  }

  lemma MappedIsOwned(objs: map<Handle, Buffer>, k: int)
    requires AllFit(objs)
    ensures MappedBySome(objs, k) ==> OwnedBySome(objs, k)
  {
    if MappedBySome(objs, k) {
      var g :| g in objs && Maps(objs[g], k);
      assert Fits(objs[g]) && Owns(objs[g], k);
    }
  }

  lemma AllocDisjoint(v: View, h: Handle, b: Buffer)
    requires ViewOk(v) && Can(v, Alloc(h, b))
    ensures Disjoint(v.objs[h := b]) && AllFit(v.objs[h := b])
  {
    var objs' := v.objs[h := b];
    forall f, g, k | f in objs' && g in objs' && Owns(objs'[f], k) && Owns(objs'[g], k) ensures f == g {
      if Owns(b, k) { FreeRange(v, h, b, k); }
    }
  }

  lemma AllocPoint(v: View, h: Handle, b: Buffer, k: int)
    requires Can(v, Alloc(h, b)) && PointOk(v, k) && (Owns(b, k) ==> !MappedBySome(v.objs, k))
    ensures PointOk(Apply(v, Alloc(h, b)), k)
  {
    var v' := Apply(v, Alloc(h, b));
    MapAtValue(v.pt, b.iova, Contents(b), k);
    KeysMember(b.iova, b.iovaSize, k);
    SomeAfterAlloc(v.objs, h, b, k);
    forall g | g in v'.objs && Maps(v'.objs[g], k)
      ensures k in v'.pt && v'.pt[k] == Contents(v'.objs[g])[k - v'.objs[g].iova]
    {
      if g != h { assert MappedBySome(v.objs, k); }
    }
  }

  lemma SomeAfterAlloc(objs: map<Handle, Buffer>, h: Handle, b: Buffer, k: int)
    requires h !in objs
    ensures MappedBySome(objs[h := b], k) <==> MappedBySome(objs, k) || Maps(b, k)
    ensures OwnedBySome(objs[h := b], k) <==> OwnedBySome(objs, k) || Owns(b, k)
  {
    var objs' := objs[h := b];
    assert objs'[h] == b && forall g :: g in objs ==> g in objs' && objs'[g] == objs[g];
    if MappedBySome(objs, k) {
      var g :| g in objs && Maps(objs[g], k);
      assert Maps(objs'[g], k);
    }
    if OwnedBySome(objs, k) {
      var g :| g in objs && Owns(objs[g], k);
      assert Owns(objs'[g], k);
    }
  }

  lemma AllocKeeps(v: View, h: Handle, b: Buffer)
    requires ViewOk(v) && Can(v, Alloc(h, b))
    ensures ViewOk(Apply(v, Alloc(h, b)))
  {
    var v' := Apply(v, Alloc(h, b));
    AllocDisjoint(v, h, b);
    forall k ensures PointOk(v', k) {
      assert PointOk(v, k);
      if Owns(b, k) { FreeRange(v, h, b, k); }
      AllocPoint(v, h, b, k);
    }
    assert v'.pages == WithPages(v'.objs);
  }

  lemma FreePoint(v: View, h: Handle, k: int)
    requires h in v.objs && AllFit(v.objs) && Disjoint(v.objs) && PointOk(v, k)
    ensures PointOk(Apply(v, Free(h)), k)
  {
    var b := v.objs[h];
    KeysMember(b.iova, b.cacheSize + |b.ddr|, k);
    KeysMember(b.iova, b.iovaSize, k);
    SomeAfterFree(v.objs, h, k);
    var v' := Apply(v, Free(h));
    forall g | g in v'.objs && Maps(v'.objs[g], k)
      ensures k in v'.pt && v'.pt[k] == Contents(v'.objs[g])[k - v'.objs[g].iova]
    {
      assert Maps(v.objs[g], k) && MappedBySome(v'.objs, k);
    }
  }

  lemma SomeAfterFree(objs: map<Handle, Buffer>, h: Handle, k: int)
    requires h in objs && Disjoint(objs) && AllFit(objs)
    ensures MappedBySome(objs - {h}, k) <==> MappedBySome(objs, k) && !Maps(objs[h], k)
    ensures OwnedBySome(objs - {h}, k) <==> OwnedBySome(objs, k) && !Owns(objs[h], k)
  {
    var objs' := objs - {h};
    if MappedBySome(objs, k) {
      var g :| g in objs && Maps(objs[g], k);
      assert Owns(objs[g], k);
      if g != h { assert Maps(objs'[g], k); }
    }
    if OwnedBySome(objs, k) {
      var g :| g in objs && Owns(objs[g], k);
      if g != h { assert Owns(objs'[g], k); }
    }
    if MappedBySome(objs', k) {
      var g :| g in objs' && Maps(objs'[g], k);
      assert Fits(objs[g]) && Fits(objs[h]);
      assert Maps(objs[g], k) && Owns(objs[g], k);
    }
    if OwnedBySome(objs', k) {
      var g :| g in objs' && Owns(objs'[g], k);
      assert Owns(objs[g], k);
    }
  }

  lemma FreeKeeps(v: View, h: Handle)
    requires ViewOk(v) && h in v.objs
    ensures ViewOk(Apply(v, Free(h)))
  {
    var v' := Apply(v, Free(h));
    forall k ensures PointOk(v', k) {
      assert PointOk(v, k);
      FreePoint(v, h, k);
    }
    assert v'.pages == WithPages(v'.objs);
  }

  lemma OpKeeps(v: View, op: Op)
    requires ViewOk(v) && Can(v, op)
    ensures ViewOk(Apply(v, op))
  {
    match op {
      case Alloc(h, b) => AllocKeeps(v, h, b);
      case Free(h) => FreeKeeps(v, h);
    }
  }

  // ---------- round trips ----------

  /** Round trip: freeing what was just allocated restores the page table, the IOVA space and every
      allocation. */
  lemma AllocThenFree(v: View, h: Handle, b: Buffer)
    requires ViewOk(v) && Can(v, Alloc(h, b))
    ensures Apply(Apply(v, Alloc(h, b)), Free(h)) == v
  {
    AllocKeeps(v, h, b);
    FreeKeeps(Apply(v, Alloc(h, b)), h);
    assert v.objs[h := b] - {h} == v.objs;
    Determined(Apply(Apply(v, Alloc(h, b)), Free(h)), v);
  }

  /** Freeing one buffer commutes with allocating or freeing any other. */
  lemma FreeCommutes(v: View, op: Op, h: Handle)
    requires ViewOk(v) && h in v.objs && Can(v, op) && op.h != h
    ensures ViewOk(Apply(v, Free(h))) && Can(Apply(v, Free(h)), op)
    ensures h in Apply(v, op).objs
    ensures Apply(Apply(v, op), Free(h)) == Apply(Apply(v, Free(h)), op)
  {
    FreeKeeps(v, h);
    OpKeeps(v, op);
    OpKeeps(Apply(v, Free(h)), op);
    FreeKeeps(Apply(v, op), h);
    SameBuffers(v, op, h);
    Determined(Apply(Apply(v, op), Free(h)), Apply(Apply(v, Free(h)), op));
  }

  lemma SameBuffers(v: View, op: Op, h: Handle)
    requires h in v.objs && Can(v, op) && op.h != h
    ensures Can(Apply(v, Free(h)), op) && h in Apply(v, op).objs
    ensures Apply(Apply(v, op), Free(h)).objs == Apply(Apply(v, Free(h)), op).objs
  {
    var one, two := Apply(v, op).objs - {h}, Apply(Apply(v, Free(h)), op).objs;
    if op.Alloc? {
      assert one == (v.objs - {h})[op.h := op.b];
    } else {
      assert one == (v.objs - {h}) - {op.h};
    }
  }

  ghost predicate Runs(v0: View, ops: seq<Op>, v: View)
    decreases |ops|
  {
    if ops == [] then v == v0 else Can(v0, ops[0]) && Runs(Apply(v0, ops[0]), ops[1..], v)
  }

  lemma {:induction false} RunKeeps(v0: View, ops: seq<Op>, v: View)
    requires ViewOk(v0) && Runs(v0, ops, v)
    ensures ViewOk(v)
    decreases |ops|
  {
    if ops != [] {
      OpKeeps(v0, ops[0]);
      RunKeeps(Apply(v0, ops[0]), ops[1..], v);
    }
  }

  lemma {:induction false} FreeMovesForward(v0: View, ops: seq<Op>, v: View, h: Handle)
    requires ViewOk(v0) && h in v0.objs && Runs(v0, ops, v)
    requires forall i :: 0 <= i < |ops| ==> ops[i].h != h
    ensures ViewOk(v) && h in v.objs
    ensures Runs(Apply(v0, Free(h)), ops, Apply(v, Free(h)))
    decreases |ops|
  {
    if ops != [] {
      FreeCommutes(v0, ops[0], h);
      OpKeeps(v0, ops[0]);
      FreeMovesForward(Apply(v0, ops[0]), ops[1..], v, h);
    }
  }

  /** A buffer leaves no trace: allocate it, allocate and free any other buffers in any order, free it,
      and the state is the one those other operations alone would have produced. */
  lemma BufferLeavesNoTrace(v0: View, h: Handle, b: Buffer, ops: seq<Op>, v: View)
    requires ViewOk(v0) && Can(v0, Alloc(h, b)) && Runs(Apply(v0, Alloc(h, b)), ops, v)
    requires forall i :: 0 <= i < |ops| ==> ops[i].h != h
    ensures ViewOk(v) && h in v.objs
    ensures Runs(v0, ops, Apply(v, Free(h)))
  {
    AllocKeeps(v0, h, b);
    AllocThenFree(v0, h, b);
    FreeMovesForward(Apply(v0, Alloc(h, b)), ops, v, h);
  }

  /** Freeing one buffer leaves every other live buffer's translation alone. */
  lemma OthersUndisturbed(v: View, h: Handle, g: Handle, k: int)
    requires ViewOk(v) && h in v.objs && g in v.objs && g != h && Maps(v.objs[g], k)
    ensures k in v.pt && k in Apply(v, Free(h)).pt && Apply(v, Free(h)).pt[k] == v.pt[k]
  {
    assert PointOk(v, k);
    FreePoint(v, h, k);
    assert Maps(Apply(v, Free(h)).objs[g], k);
  }

  // ---------- the driver ----------

  /** What the kernel answers: whether the device has a domain, the IOVA range (start zero means
      failure), and the results of the mapping calls, the page and the scatter-table allocation. */
  datatype Answers = Answers(
    domain: bool, iova: int, iovaSize: nat, cacheRet: int, pagesRet: int, sgtRet: int, segRet: nat -> int)

  /** The segment loop reaches segment `i`, if nothing fails before. */
  predicate Tried(segs: seq<Seg>, size: nat, i: nat) {
    i < |segs| && |Bytes(segs[..i])| < size
  }

  ghost predicate SegmentsOk(segs: seq<Seg>, size: nat, segRet: nat -> int) {
    forall i: nat :: Tried(segs, size, i) ==> segRet(i) == 0
  }

  lemma SegmentsExact(segs: seq<Seg>, size: nat, segRet: nat -> int)
    ensures SegmentsOk(segs, size, segRet) <==>
            forall i: nat :: i < |segs| && |Bytes(segs[..i])| < size ==> segRet(i) == 0
  {
    forall i: nat | i < |segs| && |Bytes(segs[..i])| < size ensures Tried(segs, size, i) { }
  }

  /** Every call the allocation makes succeeds. */
  ghost predicate Granted(a: Answers, segs: seq<Seg>, size: nat) {
    && a.domain && a.iova != 0 && a.cacheRet == 0
    && (size > 0 ==> a.pagesRet == 0 && a.sgtRet == 0 && SegmentsOk(segs, size, a.segRet))
  }

  class Space {
    var pt: map<int, int>          // what the IOMMU translates
    var reserved: set<int>         // addresses handed out by the IOVA allocator
    var pages: set<Handle>         // objects holding a page array
    var sgts: set<Handle>          // objects holding a scatter table
    var objs: map<Handle, Buffer>  // live objects

    ghost function Abs(): View
      reads this
    {
      View(pt, reserved, pages, sgts, objs)
    }

    ghost predicate Valid()
      reads this
    {
      ViewOk(Abs())
    }

    constructor ()
      ensures Valid() && Abs() == View(map[], {}, {}, {}, map[])
    {
      pt, reserved, pages, sgts, objs := map[], {}, {}, {}, map[];
    }

    /** iommu_map: all of it or, on a non-zero return, nothing. */
    method IommuMap(start: int, phys: int, n: nat, answer: int) returns (ret: int)
      modifies this`pt
      ensures ret == answer
      ensures pt == if ret == 0 then MapAt(old(pt), start, Span(phys, n)) else old(pt)
    {
      ret := answer;
      if ret == 0 {
        pt := MapAt(pt, start, Span(phys, n));
      }
    }

    method IommuUnmap(start: int, n: nat)
      modifies this`pt
      ensures pt == old(pt) - Keys(start, n)
    {
      pt := pt - Keys(start, n);
    }

    /** The segment loop: it stops at the first failing segment, number `at`, with all
        earlier ones mapped, and otherwise maps the first `size` bytes; `done` counts the bytes mapped. */
    method MapSegments(start: int, segs: seq<Seg>, size: nat, segRet: nat -> int)
      returns (ret: int, done: nat, ghost at: nat)
      requires |Bytes(segs)| >= size
      modifies this`pt
      ensures done <= size <= |Bytes(segs)|
      ensures pt == MapAt(old(pt), start, Bytes(segs)[..done])
      ensures ret == 0 <==> SegmentsOk(segs, size, segRet)
      ensures ret == 0 <==> forall i: nat :: i < |segs| && |Bytes(segs[..i])| < size ==> segRet(i) == 0
      ensures ret == 0 ==> done == size
      ensures ret != 0 ==> Tried(segs, size, at) && ret == segRet(at) && done == |Bytes(segs[..at])|
      ensures forall d: nat :: d < at ==> segRet(d) == 0
    {
      var length, offset, i := size, start, 0;
      ret, at := 0, 0;
      SegmentsStart(pt, start, segs, size);
      while i < |segs| && length != 0
        invariant 0 <= i <= |segs| && 0 <= length <= size && offset == start + (size - length)
        invariant SegmentsMapped(old(pt), pt, start, segs, size, i, size - length)
        invariant ret == 0 && forall d: nat :: d < i ==> segRet(d) == 0
      {
        var n := if length < segs[i].length then length else segs[i].length;
        SegmentsStep(old(pt), pt, start, segs, size, i, size - length, n);
        ret := IommuMap(offset, segs[i].phys, n, segRet(i));
        if ret != 0 {
          SegmentsExact(segs, size, segRet);
          return ret, size - length, i;
        }
        length := length - n;
        offset := offset + n;
        i := i + 1;
      }
      done := size - length;
      SegmentsExact(segs, size, segRet);
      SegmentsEnd(old(pt), pt, start, segs, size, i, done);
    }

    /** The DDR half, with the labels sgl_unmap and put_pages. */
    method MapPages(h: Handle, start: int, segs: seq<Seg>, size: nat, a: Answers) returns (ret: int)
      requires 0 < size <= |Bytes(segs)| && pt.Keys !! Keys(start, size) && h !in pages && h !in sgts
      modifies this`pt, this`pages, this`sgts
      ensures ret == 0 <==> a.pagesRet == 0 && a.sgtRet == 0 && SegmentsOk(segs, size, a.segRet)
      ensures ret == 0 ==> pt == MapAt(old(pt), start, Bytes(segs)[..size])
      ensures ret == 0 ==> pages == old(pages) + {h} && sgts == old(sgts) + {h}
      ensures ret != 0 ==> pt == old(pt) && pages == old(pages) && sgts == old(sgts)
    {
      if a.pagesRet != 0 {
        return a.pagesRet;
      }
      pages := pages + {h};
      if a.sgtRet != 0 {
        pages := pages - {h};
        return a.sgtRet;
      }
      sgts := sgts + {h};
      var done;
      ghost var at;
      ret, done, at := MapSegments(start, segs, size, a.segRet);
      if ret != 0 {
        KeysSplit(start, done, 0, size);
        UnmapUndoes(old(pt), start, Bytes(segs)[..done]);
        if done > 0 {
          IommuUnmap(start, done);
        }
        sgts := sgts - {h};
        pages := pages - {h};
      }
    }

    /** The mapping calls, with the label cache_unmap. */
    method MapBuffer(h: Handle, cache: int, cacheSize: nat, size: nat, segs: seq<Seg>, a: Answers) returns (ret: int)
      requires size <= |Bytes(segs)| && pt.Keys !! Keys(a.iova, cacheSize + size) && h !in pages && h !in sgts
      modifies this`pt, this`pages, this`sgts
      ensures ret == 0 <==>
              a.cacheRet == 0 && (size > 0 ==> a.pagesRet == 0 && a.sgtRet == 0 && SegmentsOk(segs, size, a.segRet))
      ensures a.cacheRet != 0 ==> ret == a.cacheRet
      ensures ret == 0 ==> pt == MapAt(old(pt), a.iova, Span(cache, cacheSize) + Bytes(segs)[..size])
      ensures ret == 0 ==> pages == old(pages) + (if size > 0 then {h} else {})
      ensures ret == 0 ==> sgts == old(sgts) + (if size > 0 then {h} else {})
      ensures ret != 0 ==> pt == old(pt) && pages == old(pages) && sgts == old(sgts)
    {
      CacheHead(pt, a.iova, cache, cacheSize, Bytes(segs)[..size]);
      ret := IommuMap(a.iova, cache, cacheSize, a.cacheRet);
      if ret != 0 {
        return;
      }
      if size == 0 {
        assert Span(cache, cacheSize) + Bytes(segs)[..0] == Span(cache, cacheSize);
        return;
      }
      ret := MapPages(h, a.iova + cacheSize, segs, size, a);
      if ret != 0 {
        IommuUnmap(a.iova, cacheSize);
      }
    }

    /** rknpu_gem_alloc_buf_with_cache with a contiguous cache: it succeeds exactly if every call it
        makes does, and then adds exactly the new buffer; otherwise nothing has changed. */
    method AllocWithCache(h: Handle, cache: int, cacheSize: nat, size: nat, segs: seq<Seg>, a: Answers)
      returns (ret: int)
      requires Valid() && h !in objs
      requires |Bytes(segs)| >= size
      requires a.iova != 0 ==> cacheSize + size <= a.iovaSize && reserved !! Keys(a.iova, a.iovaSize)
      modifies this
      ensures Valid()
      ensures ret == 0 <==> Granted(a, segs, size)
      ensures ret == 0 <==>
              && a.domain && a.iova != 0 && a.cacheRet == 0
              && (size > 0 ==>
                    && a.pagesRet == 0 && a.sgtRet == 0
                    && forall i: nat :: i < |segs| && |Bytes(segs[..i])| < size ==> a.segRet(i) == 0)
      ensures ret != 0 ==> Abs() == old(Abs())
      ensures !a.domain ==> ret == -EINVAL
      ensures a.domain && a.iova == 0 ==> ret == -ENOMEM
      ensures a.domain && a.iova != 0 && a.cacheRet != 0 ==> ret == a.cacheRet
      ensures ret == 0 ==>
                var op := Alloc(h, Buffer(a.iova, a.iovaSize, cache, cacheSize, Bytes(segs)[..size]));
                Can(old(Abs()), op) && Abs() == Apply(old(Abs()), op)
    {
      SegmentsExact(segs, size, a.segRet);
      if !a.domain {
        return -EINVAL;
      }
      if a.iova == 0 {
        return -ENOMEM;
      }
      ghost var b := Buffer(a.iova, a.iovaSize, cache, cacheSize, Bytes(segs)[..size]);
      FreeRangeIsUnmapped(Abs(), h, b);
      assert h !in pages && h !in sgts;
      reserved := reserved + Keys(a.iova, a.iovaSize);
      ret := MapBuffer(h, cache, cacheSize, size, segs, a);
      if ret != 0 {
        reserved := reserved - Keys(a.iova, a.iovaSize);
      } else {
        objs := objs[h := Buffer(a.iova, a.iovaSize, cache, cacheSize, Bytes(segs)[..size])];
        AllocKeeps(old(Abs()), h, b);
      }
    }

    method UnmapBuffer(b: Buffer)
      modifies this`pt
      ensures pt == old(pt) - Keys(b.iova, b.cacheSize + |b.ddr|)
    {
      UnmapHalves(pt, b.iova, b.cacheSize, |b.ddr|);
      IommuUnmap(b.iova, b.cacheSize);
      if |b.ddr| > 0 {
        IommuUnmap(b.iova + b.cacheSize, |b.ddr|);
      }
    }

    /** rknpu_gem_free_buf_with_cache.  Without a domain the mappings and the range stay behind, so the
        space stays consistent exactly if the device still has its domain. */
    method FreeWithCache(h: Handle, domain: bool)
      requires Valid() && h in objs
      modifies this
      ensures domain ==> Abs() == Apply(old(Abs()), Free(h))
      ensures !domain ==> Abs() == Apply(old(Abs()), Free(h)).(pt := old(pt), reserved := old(reserved))
      ensures Valid() <==> domain || old(objs)[h].iovaSize == 0
    {
      var b := objs[h];
      FreeKeeps(Abs(), h);
      StaysReserved(Abs(), h);
      if domain {
        UnmapBuffer(b);
        reserved := reserved - Keys(b.iova, b.iovaSize);
      }
      pages := pages - {h};
      sgts := sgts - {h};
      objs := objs - {h};
    }
  }

  /** The cache is mapped in front of the DDR range, leaves it free, and can be taken back alone. */
  lemma CacheHead(pt: map<int, int>, iova: int, cache: int, cacheSize: nat, ddr: seq<int>)
    requires pt.Keys !! Keys(iova, cacheSize + |ddr|)
    ensures var head := MapAt(pt, iova, Span(cache, cacheSize));
            && head.Keys !! Keys(iova + cacheSize, |ddr|)
            && MapAt(head, iova + cacheSize, ddr) == MapAt(pt, iova, Span(cache, cacheSize) + ddr)
            && head - Keys(iova, cacheSize) == pt
  {
    var head := MapAt(pt, iova, Span(cache, cacheSize));
    forall k ensures !(k in head.Keys && k in Keys(iova + cacheSize, |ddr|))
      ensures !(k in pt.Keys && k in Keys(iova, cacheSize))
    {
      KeysMember(iova, cacheSize + |ddr|, k);
      KeysMember(iova, cacheSize, k);
      KeysMember(iova + cacheSize, |ddr|, k);
      MapAtValue(pt, iova, Span(cache, cacheSize), k);
    }
    MapMore(pt, iova, Span(cache, cacheSize), ddr);
    UnmapUndoes(pt, iova, Span(cache, cacheSize));
  }

  lemma FreeRangeIsUnmapped(v: View, h: Handle, b: Buffer)
    requires ViewOk(v) && Can(v, Alloc(h, b))
    ensures v.pt.Keys !! Keys(b.iova, b.cacheSize + |b.ddr|)
  {
    forall k | k in v.pt.Keys ensures k !in Keys(b.iova, b.cacheSize + |b.ddr|) {
      KeysMember(b.iova, b.cacheSize + |b.ddr|, k);
      assert PointOk(v, k);
      if Owns(b, k) { FreeRange(v, h, b, k); }
    }
  }

  /** Dropping a buffer but not its range leaves addresses reserved that nobody owns, unless the range
      was empty. */
  lemma StaysReserved(v: View, h: Handle)
    requires ViewOk(v) && h in v.objs
    ensures var left := Apply(v, Free(h)).(pt := v.pt, reserved := v.reserved);
            ViewOk(left) <==> v.objs[h].iovaSize == 0
  {
    var b := v.objs[h];
    var freed := Apply(v, Free(h));
    var left := freed.(pt := v.pt, reserved := v.reserved);
    if b.iovaSize == 0 {
      assert Fits(b);
      FreeKeeps(v, h);
      assert left == freed;
    } else {
      SomeAfterFree(v.objs, h, b.iova);
      assert PointOk(v, b.iova) && Owns(b, b.iova);
      assert !PointOk(left, b.iova);
    }
  }

  /** The segment loop after `i` segments: the first `m` bytes are mapped. */
  ghost predicate SegmentsMapped(
    pt0: map<int, int>, pt: map<int, int>, start: int, segs: seq<Seg>, size: nat, i: nat, m: nat)
  {
    && i <= |segs| && m <= size && m <= |Bytes(segs)|
    && pt == MapAt(pt0, start, Bytes(segs)[..m])
    && if m < size then m == |Bytes(segs[..i])| else |Bytes(segs[..i])| >= size
  }

  lemma SegmentsStart(pt: map<int, int>, start: int, segs: seq<Seg>, size: nat)
    ensures SegmentsMapped(pt, pt, start, segs, size, 0, 0)
  {
    assert segs[..0] == [] && Bytes(segs)[..0] == [];
  }

  lemma SegmentsStep(
    pt0: map<int, int>, pt: map<int, int>, start: int, segs: seq<Seg>, size: nat, i: nat, m: nat, n: nat)
    requires SegmentsMapped(pt0, pt, start, segs, size, i, m) && i < |segs| && m < size
    requires n == if size - m < segs[i].length then size - m else segs[i].length
    ensures SegmentsMapped(pt0, MapAt(pt, start + m, Span(segs[i].phys, n)), start, segs, size, i + 1, m + n)
    ensures Tried(segs, size, i) && m == |Bytes(segs[..i])|
  {
    MapSegment(pt0, start, segs, i, n);
  }

  lemma SegmentsEnd(pt0: map<int, int>, pt: map<int, int>, start: int, segs: seq<Seg>, size: nat, i: nat, m: nat)
    requires SegmentsMapped(pt0, pt, start, segs, size, i, m) && (i == |segs| || m == size) && |Bytes(segs)| >= size
    ensures m == size && forall d: nat :: Tried(segs, size, d) ==> d < i
  {
    assert segs[..|segs|] == segs;
    NothingMore(segs, size, i);
  }

  /** Once the first `i` segments cover the size, no later one is tried. */
  lemma NothingMore(segs: seq<Seg>, size: nat, i: nat)
    requires i <= |segs| && (i == |segs| || |Bytes(segs[..i])| >= size)
    ensures forall d: nat :: Tried(segs, size, d) ==> d < i
  {
    forall d: nat | Tried(segs, size, d) ensures d < i {
      if i <= d {
        assert segs[..d][..i] == segs[..i];
        BytesPrefix(segs[..d], i);
      }
    }
  }

  /** Mapping the first `n` bytes of segment `i` after all earlier segments. */
  lemma MapSegment(pt: map<int, int>, start: int, segs: seq<Seg>, i: nat, n: nat)
    requires i < |segs| && n <= segs[i].length
    ensures var m := |Bytes(segs[..i])|;
            && m + n <= |Bytes(segs)|
            && MapAt(MapAt(pt, start, Bytes(segs)[..m]), start + m, Span(segs[i].phys, n)) ==
               MapAt(pt, start, Bytes(segs)[..m + n])
            && |Bytes(segs[..i + 1])| == m + segs[i].length
  {
    SegmentBytes(segs, i, n);
    MapMore(pt, start, Bytes(segs)[..|Bytes(segs[..i])|], Span(segs[i].phys, n));
  }

  lemma SegmentBytes(segs: seq<Seg>, i: nat, n: nat)
    requires i < |segs| && n <= segs[i].length
    ensures |Bytes(segs[..i])| + n <= |Bytes(segs)|
    ensures Bytes(segs)[..|Bytes(segs[..i])| + n] == Bytes(segs)[..|Bytes(segs[..i])|] + Span(segs[i].phys, n)
    ensures |Bytes(segs[..i + 1])| == |Bytes(segs[..i])| + segs[i].length
  {
    assert segs[..i + 1][..i] == segs[..i];
    BytesPrefix(segs, i);
    BytesPrefix(segs, i + 1);
    assert Bytes(segs[..i + 1]) == Bytes(segs[..i]) + Span(segs[i].phys, segs[i].length);
  }

  lemma {:induction false} BytesPrefix(segs: seq<Seg>, i: nat)
    requires i <= |segs|
    ensures Bytes(segs[..i]) <= Bytes(segs)
    decreases |segs|
  {
    if i == |segs| {
      assert segs[..i] == segs;
    } else {
      var front := segs[..|segs| - 1];
      assert front[..i] == segs[..i];
      BytesPrefix(front, i);
    }
  }
}
