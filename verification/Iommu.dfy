/** IOMMU domains: switching, and the protocol by which callers hold a domain.  A get is serialised by
    domain_lock, a put is a bare atomic decrement, and the domain changes only at count zero. */
module Iommu {
  import opened Npu

  const MAX_DOMAINS: nat := 16   // RKNPU_MAX_IOMMU_DOMAIN_NUM

  // ---------- switching ----------

  /** iommu_domain_id, iommu_domains[], iommu_domain_num and iommu_en; and the kernel's side, the domain
      the device is attached to and the default domain of its group. */
  datatype Domains = Domains(
    current: int,
    table: seq<Option<nat>>,
    num: int,
    enabled: bool,
    attached: Option<nat>,
    dflt: Option<nat>)

  /** What the kernel answers during one switch: whether the device has a bus, a freshly allocated domain,
      and the results of attaching the new domain and of attaching the old one again. */
  datatype Answer = Answer(bus: bool, newDomain: Option<nat>, attachRet: int, reattachRet: int)

  function Entries(table: seq<Option<nat>>): nat {
    if table == [] then 0 else Bit(table[0].Some?) + Entries(table[1..])
  }

  predicate DomainsOk(d: Domains) {
    && |d.table| == MAX_DOMAINS
    && 0 <= d.current < MAX_DOMAINS
    && d.table[d.current].Some?
    && d.num == Entries(d.table)
  }

  /** iommu_detach_device: the device falls back to its group's default domain. */
  function Detach(d: Domains): Domains { d.(attached := d.dflt) }

  /** iommu_attach_device: on a non-zero return the attachment is as before. */
  function Attach(d: Domains, domain: Option<nat>, ret: int): Domains {
    if ret == 0 then d.(attached := domain) else d
  }

  /** rknpu_iommu_switch_domain. */
  function Switch(d: Domains, id: int, a: Answer): (r: (Domains, int))
    requires DomainsOk(d)
  {
    if !d.enabled then (d, -EINVAL)
    else if id < 0 || id > MAX_DOMAINS - 1 then (d, -EINVAL)
    else if !a.bus then (d, -EFAULT)
    else if id == d.current then (d, 0)
    else if d.table[d.current] != d.attached then (d, -EINVAL)
    else if d.table[id].Some? then
      var d1 := Attach(Detach(d), d.table[id], a.attachRet);
      if a.attachRet != 0 then (Attach(d1, d.attached, a.reattachRet), a.attachRet)
      else (d1.(current := id, dflt := d.table[id]), 0)
    else if a.newDomain.None? then (d, -EIO)
    else
      var d1 := Attach(Detach(d), a.newDomain, a.attachRet);
      if a.attachRet != 0 then (d1, a.attachRet)
      else (d1.(current := id, table := d.table[id := a.newDomain], num := d.num + 1, dflt := a.newDomain), 0)
  }

  lemma {:induction false} EntriesUpdate(table: seq<Option<nat>>, i: nat, x: Option<nat>)
    requires i < |table|
    ensures Entries(table[i := x]) == Entries(table) - Bit(table[i].Some?) + Bit(x.Some?)
  {
    if i == 0 {
      assert table[i := x][1..] == table[1..];
    } else {
      EntriesUpdate(table[1..], i - 1, x);
      assert table[i := x][1..] == table[1..][i - 1 := x];
    }
  }

  function EmptyTable(n: nat): (table: seq<Option<nat>>)
    ensures |table| == n
  {
    seq(n, _ => None)
  }

  lemma {:induction false} NoEntries(n: nat)
    ensures Entries(EmptyTable(n)) == 0
  {
    if n > 0 {
      NoEntries(n - 1);
      assert EmptyTable(n)[1..] == EmptyTable(n - 1);
    }
  }

  /** The device is attached to the domain the driver believes in, and falls back to it. */
  predicate Synced(d: Domains)
    requires DomainsOk(d)
  {
    d.attached == d.table[d.current] && d.dflt == d.attached
  }

  /** A switch either arrives at the requested domain or changes no driver field; known domains are never
      forgotten, and the counter stays the number of table entries.  If the group's default domain is the
      current one, a failed switch leaves the attachment alone too. */
  lemma SwitchAllOrNothing(d: Domains, id: int, a: Answer)
    requires DomainsOk(d)
    ensures var (d', ret) := Switch(d, id, a);
            && DomainsOk(d')
            && (ret == 0 ==> d'.current == id)
            && (ret != 0 ==> d' == d.(attached := d'.attached))
            && (forall i :: 0 <= i < MAX_DOMAINS && d.table[i].Some? ==> d'.table[i] == d.table[i])
            && (forall i :: 0 <= i < MAX_DOMAINS && i != id ==> d'.table[i] == d.table[i])
            && (Synced(d) ==> Synced(d') && (ret != 0 ==> d' == d))
  {
    var (d', ret) := Switch(d, id, a);
    if 0 <= id < MAX_DOMAINS {
      EntriesUpdate(d.table, id, a.newDomain);
    }
  }

  /** Exactly when a switch succeeds, and where it then arrives. */
  lemma SwitchSucceeds(d: Domains, id: int, a: Answer)
    requires DomainsOk(d)
    ensures Switch(d, id, a).1 == 0 <==>
            && d.enabled && 0 <= id < MAX_DOMAINS && a.bus
            && (id == d.current ||
                (&& d.attached == d.table[d.current]
                 && (d.table[id].Some? || a.newDomain.Some?)
                 && a.attachRet == 0))
    ensures Switch(d, id, a).1 == 0 && id != d.current ==>
              var d' := Switch(d, id, a).0;
              var target := if d.table[id].Some? then d.table[id] else a.newDomain;
              && d'.current == id && |d'.table| == MAX_DOMAINS && d'.table[id] == target
              && d'.attached == target && d'.dflt == target
              && d'.num == d.num + Bit(d.table[id].None?)
    ensures id == d.current ==> Switch(d, id, a).0 == d
    ensures var ret := Switch(d, id, a).1;
            && (!d.enabled || id < 0 || id >= MAX_DOMAINS ==> ret == -EINVAL)
            && (d.enabled && 0 <= id < MAX_DOMAINS && !a.bus ==> ret == -EFAULT)
            && (d.enabled && 0 <= id < MAX_DOMAINS && a.bus && id != d.current ==>
                  && (d.attached != d.table[d.current] ==> ret == -EINVAL)
                  && (d.attached == d.table[d.current] && d.table[id].None? && a.newDomain.None? ==> ret == -EIO)
                  && (d.attached == d.table[d.current] && (d.table[id].Some? || a.newDomain.Some?) ==>
                        ret == a.attachRet))
  {
  }

  /** The switch gets as far as detaching the device. */
  predicate Detaches(d: Domains, id: int, a: Answer)
    requires DomainsOk(d)
  {
    && d.enabled && 0 <= id < MAX_DOMAINS && a.bus && id != d.current
    && (d.table[id].Some? || a.newDomain.Some?)
  }

  /** Exactly when a switch from a correctly attached device leaves it correctly attached: it never
      detached it, the attach worked, the fallback is the current domain anyway, or a known domain was
      asked for and the old one could be attached again.  A failed attach of a new domain makes no such
      call, so there only the fallback helps. */
  lemma AttachmentExact(d: Domains, id: int, a: Answer)
    requires DomainsOk(d) && d.attached == d.table[d.current]
    ensures var d' := Switch(d, id, a).0;
            DomainsOk(d') &&
            (d'.attached == d'.table[d'.current] <==>
               || !Detaches(d, id, a)
               || a.attachRet == 0
               || d.dflt == d.attached
               || (d.table[id].Some? && a.reattachRet == 0))
  {
    SwitchAllOrNothing(d, id, a);
  }

  // ---------- one locked attempt ----------

  datatype Outcome = Got | Retry | Failed(code: int)

  /** The body of the loop of rknpu_iommu_domain_get_and_switch, between lock and unlock. */
  function Attempt(d: Domains, refs: int, id: int, a: Answer): (Domains, int, Outcome)
    requires DomainsOk(d)
  {
    if id == d.current then (d, refs + 1, Got)
    else if refs != 0 then (d, refs, Retry)
    else
      var (d', ret) := Switch(d, id, a);
      if ret != 0 then (d', refs, Failed(ret)) else (d', refs + 1, Got)
  }

  class IommuState {
    var current: int
    var table: seq<Option<nat>>
    var num: int
    var refs: int
    var attached: Option<nat>
    var dflt: Option<nat>
    const enabled: bool

    ghost function Abs(): Domains
      reads this
    {
      Domains(current, table, num, enabled, attached, dflt)
    }

    ghost predicate Valid()
      reads this
    {
      DomainsOk(Abs())
    }

    /** Fresh device memory followed by rknpu_iommu_init_domain, on a device attached to its group's
        default domain. */
    constructor (dflt: nat, enabled: bool)
      ensures Valid() && current == 0 && num == 1 && refs == 0 && table[0] == Some(dflt)
      ensures Synced(Abs())
    {
      this.enabled := enabled;
      var empty := EmptyTable(MAX_DOMAINS);
      attached, this.dflt := Some(dflt), Some(dflt);
      current, num, refs := 0, 1, 0;
      table := empty[0 := Some(dflt)];
      NoEntries(MAX_DOMAINS);
      EntriesUpdate(empty, 0, Some(dflt));
    }

    method DetachDevice()
      modifies this`attached
      ensures attached == dflt
    {
      attached := dflt;
    }

    method AttachDevice(domain: Option<nat>, answer: int) returns (ret: int)
      modifies this`attached
      ensures ret == answer && attached == if ret == 0 then domain else old(attached)
    {
      ret := answer;
      if ret == 0 { attached := domain; }
    }

    /** rknpu_iommu_switch_domain. */
    method SwitchDomain(id: int, a: Answer) returns (ret: int)
      requires Valid()
      modifies this
      ensures Valid() && (Abs(), ret) == Switch(old(Abs()), id, a) && refs == old(refs)
      ensures ret == 0 <==>
              && enabled && 0 <= id < MAX_DOMAINS && a.bus
              && (id == old(current) ||
                  (&& old(attached == table[current])
                   && (old(table)[id].Some? || a.newDomain.Some?)
                   && a.attachRet == 0))
    {
      SwitchAllOrNothing(Abs(), id, a);
      SwitchSucceeds(Abs(), id, a);
      if !enabled { return -EINVAL; }
      if id < 0 || id > MAX_DOMAINS - 1 { return -EINVAL; }
      if !a.bus { return -EFAULT; }
      if id == current { return 0; }
      var src := attached;
      if src != table[current] { return -EINVAL; }
      var dst := table[id];
      if dst.Some? {
        DetachDevice();
        ret := AttachDevice(dst, a.attachRet);
        if ret != 0 {
          var _ := AttachDevice(src, a.reattachRet);
          return;
        }
        current := id;
      } else {
        dst := a.newDomain;
        if dst.None? { return -EIO; }
        DetachDevice();
        ret := AttachDevice(dst, a.attachRet);
        if ret != 0 { return; }
        current := id;
        table := table[id := dst];
        num := num + 1;
      }
      dflt := dst;
    }

    /** One turn of rknpu_iommu_domain_get_and_switch under domain_lock. */
    method TryGet(id: int, a: Answer) returns (outcome: Outcome)
      requires Valid()
      modifies this
      ensures Valid() && (Abs(), refs, outcome) == Attempt(old(Abs()), old(refs), id, a)
      ensures outcome.Got? <==>
              || id == old(current)
              || (&& old(refs) == 0 && enabled && 0 <= id < MAX_DOMAINS && a.bus
                  && old(attached == table[current])
                  && (old(table)[id].Some? || a.newDomain.Some?) && a.attachRet == 0)
      ensures outcome.Retry? <==> id != old(current) && old(refs) != 0
      ensures outcome.Got? ==> current == id && refs == old(refs) + 1
      ensures !outcome.Got? ==> Abs() == old(Abs()).(attached := attached) && refs == old(refs)
      ensures Synced(old(Abs())) ==> Synced(Abs())
      ensures current != old(current) ==> old(refs) == 0
    {
      SwitchAllOrNothing(Abs(), id, a);
      SwitchSucceeds(Abs(), id, a);
      if id == current {
        refs := refs + 1;
        return Got;
      }
      if refs == 0 {
        var ret := SwitchDomain(id, a);
        if ret != 0 { return Failed(ret); }
        refs := refs + 1;
        return Got;
      }
      return Retry;
    }

    /** rknpu_iommu_domain_put. */
    method Put()
      modifies this`refs
      ensures refs == old(refs) - 1
    {
      refs := refs - 1;
    }
  }

  // ---------- threads ----------

  type Tid = nat

  /** Where a thread stands in a get, or that it holds a reference. */
  datatype Pc =
    | Out
    | Want(id: int)       // about to take domain_lock
    | Locked(id: int)     // about to compare the ids
    | Check(id: int)      // ids differ: about to read the reference count
    | Switching(id: int)  // read zero: about to switch
    | Taking(id: int)     // about to increment the count
    | Took(id: int)       // incremented, lock still held
    | Leaving(id: int)    // count was not zero: about to unlock and sleep
    | Failing             // switch failed: about to unlock and return
    | Holding(id: int)    // returned zero

  datatype Proto = Proto(dom: Domains, refs: int, lock: Option<Tid>, pcs: map<Tid, Pc>)

  datatype Move =
    | Begin(id: int) | Lock | Compare | ReadRefs | DoSwitch(a: Answer) | Inc | Unlock | GiveUp | Release

  function At(p: Proto, t: Tid): Pc { if t in p.pcs then p.pcs[t] else Out }

  predicate InLock(pc: Pc) {
    pc.Locked? || pc.Check? || pc.Switching? || pc.Taking? || pc.Took? || pc.Leaving? || pc.Failing?
  }

  predicate HasRef(pc: Pc) { pc.Took? || pc.Holding? }

  function Holders(p: Proto): set<Tid> {
    set t | t in p.pcs && HasRef(p.pcs[t])
  }

  function Go(p: Proto, t: Tid, pc: Pc): Proto { p.(pcs := p.pcs[t := pc]) }

  predicate CanMove(p: Proto, t: Tid, m: Move) {
    var pc := At(p, t);
    match m
    case Begin(_) => pc == Out
    case Lock => pc.Want? && p.lock.None?
    case Compare => pc.Locked?
    case ReadRefs => pc.Check?
    case DoSwitch(_) => pc.Switching?
    case Inc => pc.Taking?
    case Unlock => pc.Took? || pc.Leaving? || pc.Failing?
    case GiveUp => pc.Want?
    case Release => pc.Holding?
  }

  function Moved(p: Proto, t: Tid, m: Move): Proto
    requires CanMove(p, t, m) && DomainsOk(p.dom)
  {
    var pc := At(p, t);
    match m
    case Begin(id) => Go(p, t, Want(id))
    case Lock => Go(p, t, Locked(pc.id)).(lock := Some(t))
    case Compare => Go(p, t, if pc.id == p.dom.current then Taking(pc.id) else Check(pc.id))
    case ReadRefs => Go(p, t, if p.refs == 0 then Switching(pc.id) else Leaving(pc.id))
    case DoSwitch(a) =>
      var (d, ret) := Switch(p.dom, pc.id, a);
      Go(p, t, if ret == 0 then Taking(pc.id) else Failing).(dom := d)
    case Inc => Go(p, t, Took(pc.id)).(refs := p.refs + 1)
    case Unlock =>
      var pc' := if pc.Took? then Holding(pc.id) else if pc.Leaving? then Want(pc.id) else Out;
      Go(p, t, pc').(lock := None)
    case GiveUp => Go(p, t, Out)
    case Release => Go(p, t, Out).(refs := p.refs - 1)
  }

  /** What thread `t` may rely on at its place. */
  predicate ThreadOk(p: Proto, t: Tid) {
    var pc := At(p, t);
    && (InLock(pc) <==> p.lock == Some(t))
    && (HasRef(pc) || pc.Taking? ==> pc.id == p.dom.current)
    && (pc.Switching? ==> p.refs == 0)
  }

  ghost predicate ProtoOk(p: Proto) {
    && DomainsOk(p.dom)
    && p.refs == |Holders(p)|
    && (forall t: Tid :: ThreadOk(p, t))
  }

  function ProtoInit(d: Domains): Proto { Proto(d, 0, None, map[]) }

  lemma HoldersAfter(p: Proto, t: Tid, pc: Pc)
    ensures Holders(Go(p, t, pc)) == if HasRef(pc) then Holders(p) + {t} else Holders(p) - {t}
    ensures t in Holders(p) <==> HasRef(At(p, t))
  {
  }

  lemma RefsAfter(p: Proto, t: Tid, m: Move)
    requires CanMove(p, t, m) && DomainsOk(p.dom) && p.refs == |Holders(p)|
    ensures Moved(p, t, m).refs == |Holders(Moved(p, t, m))|
  {
    var p' := Moved(p, t, m);
    HoldersAfter(p, t, At(p', t));
    assert Holders(p') == Holders(Go(p, t, At(p', t)));
    if t in Holders(p) {
      assert |Holders(p) - {t}| == |Holders(p)| - 1;
      assert Holders(p) + {t} == Holders(p);
    } else {
      assert Holders(p) - {t} == Holders(p);
    }
  }

  /** While nobody holds a reference nobody can put one back. */
  lemma NoHolders(p: Proto, u: Tid)
    requires p.refs == |Holders(p)| && p.refs == 0
    ensures !HasRef(At(p, u))
  {
    HoldersAfter(p, u, Out);
  }

  lemma MoveKeepsThread(p: Proto, t: Tid, m: Move, u: Tid)
    requires CanMove(p, t, m) && DomainsOk(p.dom) && p.refs == |Holders(p)|
    requires ThreadOk(p, t) && ThreadOk(p, u)
    ensures ThreadOk(Moved(p, t, m), u)
  {
    var pc := At(p, t);
    assert u != t ==> At(Moved(p, t, m), u) == At(p, u);
    if m.DoSwitch? {
      SwitchAllOrNothing(p.dom, pc.id, m.a);
      NoHolders(p, u);
    }
    if m.Release? && At(p, u).Switching? {
      NoHolders(p, t);
    }
  }

  lemma MoveKeeps(p: Proto, t: Tid, m: Move)
    requires ProtoOk(p) && CanMove(p, t, m)
    ensures ProtoOk(Moved(p, t, m))
    ensures Synced(p.dom) ==> Synced(Moved(p, t, m).dom)
  {
    RefsAfter(p, t, m);
    assert ThreadOk(p, t);
    if m.DoSwitch? { SwitchAllOrNothing(p.dom, At(p, t).id, m.a); }
    forall u: Tid ensures ThreadOk(Moved(p, t, m), u) {
      assert ThreadOk(p, u);
      MoveKeepsThread(p, t, m, u);
    }
  }

  ghost predicate ProtoRuns(p0: Proto, ms: seq<(Tid, Move)>, p: Proto)
    decreases |ms|
  {
    if ms == [] then p == p0
    else
      && DomainsOk(p0.dom)
      && CanMove(p0, ms[0].0, ms[0].1)
      && ProtoRuns(Moved(p0, ms[0].0, ms[0].1), ms[1..], p)
  }

  lemma {:induction false} ProtoRunKeeps(p0: Proto, ms: seq<(Tid, Move)>, p: Proto)
    requires ProtoOk(p0) && ProtoRuns(p0, ms, p)
    ensures ProtoOk(p) && (Synced(p0.dom) ==> Synced(p.dom))
    decreases |ms|
  {
    if ms != [] {
      MoveKeeps(p0, ms[0].0, ms[0].1);
      ProtoRunKeeps(Moved(p0, ms[0].0, ms[0].1), ms[1..], p);
    }
  }

  /** Domain hold safety: under every interleaving of any number of threads, the count is the number of
      holders, and the device stays on the domain every holder asked for, in the driver's books and, if it
      started attached to its group's default domain, in its attachment. */
  lemma HoldSafety(d: Domains, ms: seq<(Tid, Move)>, p: Proto)
    requires DomainsOk(d) && ProtoRuns(ProtoInit(d), ms, p)
    ensures p.refs == |Holders(p)|
    ensures forall t: Tid :: At(p, t).Holding? ==> At(p, t).id == p.dom.current
    ensures DomainsOk(p.dom) && (Synced(d) ==> p.dom.attached == p.dom.table[p.dom.current])
    ensures forall t: Tid, u: Tid :: InLock(At(p, t)) && InLock(At(p, u)) ==> t == u
  {
    ProtoRunKeeps(ProtoInit(d), ms, p);
    forall t: Tid ensures At(p, t).Holding? ==> At(p, t).id == p.dom.current {
      assert ThreadOk(p, t);
    }
    forall t: Tid, u: Tid ensures InLock(At(p, t)) && InLock(At(p, u)) ==> t == u {
      assert ThreadOk(p, t) && ThreadOk(p, u);
    }
  }

  /** The device changes domain only while nobody holds one. */
  lemma SwitchOnlyWhenFree(d: Domains, ms: seq<(Tid, Move)>, p: Proto, t: Tid, m: Move)
    requires DomainsOk(d) && ProtoRuns(ProtoInit(d), ms, p) && DomainsOk(p.dom) && CanMove(p, t, m)
    requires Moved(p, t, m).dom.current != p.dom.current
    ensures p.refs == 0 && Holders(p) == {} && m.DoSwitch?
  {
    ProtoRunKeeps(ProtoInit(d), ms, p);
    assert ThreadOk(p, t);
  }

  /** All moves are thread `t`'s. */
  predicate AllBy(ms: seq<(Tid, Move)>, t: Tid) {
    forall i :: 0 <= i < |ms| ==> ms[i].0 == t
  }

  /** An uncontended get is the locked attempt: the fine-grained moves compose to Attempt, from
      taking domain_lock to releasing it. */
  lemma GetIsAttempt(p: Proto, t: Tid, id: int, a: Answer) returns (ms: seq<(Tid, Move)>, p': Proto)
    requires ProtoOk(p) && At(p, t) == Want(id) && p.lock.None?
    ensures ProtoRuns(p, ms, p')
    ensures |ms| >= 2 && ms[0] == (t, Lock) && ms[|ms| - 1] == (t, Unlock) && AllBy(ms, t)
    ensures var (d, refs, outcome) := Attempt(p.dom, p.refs, id, a);
            && p'.dom == d && p'.refs == refs && p'.lock.None?
            && At(p', t) == (match outcome case Got => Holding(id) case Retry => Want(id) case Failed(_) => Out)
  {
    var p1 := Moved(p, t, Lock);
    MoveKeeps(p, t, Lock);
    var p2 := Moved(p1, t, Compare);
    MoveKeeps(p1, t, Compare);
    if id == p.dom.current {
      ms, p' := IncTail(p2, t, id);
    } else {
      var p3 := Moved(p2, t, ReadRefs);
      MoveKeeps(p2, t, ReadRefs);
      if p.refs != 0 {
        p' := Moved(p3, t, Unlock);
        ms := Prepend(p3, t, Unlock, [], p');
      } else {
        ms, p' := SwitchTail(p3, t, id, a);
      }
      ms := Prepend(p2, t, ReadRefs, ms, p');
    }
    ms := Prepend(p1, t, Compare, ms, p');
    ms := Prepend(p, t, Lock, ms, p');
  }

  lemma Prepend(p0: Proto, t: Tid, m: Move, ms: seq<(Tid, Move)>, p: Proto) returns (all: seq<(Tid, Move)>)
    requires DomainsOk(p0.dom) && CanMove(p0, t, m) && ProtoRuns(Moved(p0, t, m), ms, p)
    ensures ProtoRuns(p0, all, p)
    ensures all == [(t, m)] + ms && all[0] == (t, m)
    ensures all[|all| - 1] == if ms == [] then (t, m) else ms[|ms| - 1]
    ensures AllBy(ms, t) ==> AllBy(all, t)
  {
    all := [(t, m)] + ms;
    assert all[1..] == ms;
  }

  lemma IncTail(p: Proto, t: Tid, id: int) returns (ms: seq<(Tid, Move)>, p': Proto)
    requires ProtoOk(p) && At(p, t) == Taking(id)
    ensures ProtoRuns(p, ms, p')
    ensures ms != [] && ms[|ms| - 1] == (t, Unlock) && AllBy(ms, t)
    ensures p'.dom == p.dom && p'.refs == p.refs + 1 && p'.lock.None? && At(p', t) == Holding(id)
  {
    var p1 := Moved(p, t, Inc);
    p' := Moved(p1, t, Unlock);
    ms := Prepend(p1, t, Unlock, [], p');
    ms := Prepend(p, t, Inc, ms, p');
  }

  lemma SwitchTail(p: Proto, t: Tid, id: int, a: Answer) returns (ms: seq<(Tid, Move)>, p': Proto)
    requires ProtoOk(p) && At(p, t) == Switching(id)
    ensures ProtoRuns(p, ms, p')
    ensures ms != [] && ms[|ms| - 1] == (t, Unlock) && AllBy(ms, t)
    ensures var (d, ret) := Switch(p.dom, id, a);
            && p'.dom == d && p'.refs == p.refs + Bit(ret == 0) && p'.lock.None?
            && At(p', t) == if ret == 0 then Holding(id) else Out
  {
    var p1 := Moved(p, t, DoSwitch(a));
    MoveKeeps(p, t, DoSwitch(a));
    if Switch(p.dom, id, a).1 == 0 {
      ms, p' := IncTail(p1, t, id);
    } else {
      p' := Moved(p1, t, Unlock);
      ms := Prepend(p1, t, Unlock, [], p');
    }
    ms := Prepend(p, t, DoSwitch(a), ms, p');
  }
}
