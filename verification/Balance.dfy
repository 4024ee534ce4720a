/** Load balancing of AUTO submissions.  A submitter reads the load counters one after the other without
    a lock, may then sleep in the domain get, and only then enqueues, so its choice can be stale. */
module Balance {
  import opened Npu
  import opened Scheduler
  import opened Calls
  import opened Device
  import opened Sums

  // ---------- submitters ----------

  /** One submitting thread: outside, inside the loop of rknpu_schedule_core_index with the least load
      it has read so far, or on its way to the enqueue section of the chosen core. */
  datatype Sub =
    | Out
    | Scanning(next: nat, best: nat, least: int)
    | Chosen(core: nat)

  datatype Auto = Auto(s: State, subs: seq<Sub>)

  datatype Event =
    | Look(p: nat)                 // read one core's task_num, or leave the loop
    | Put(p: nat, spec: JobSpec)   // the enqueue section
    | GiveUp(p: nat)               // the domain get failed: nothing is enqueued
    | Sched(t: Step)               // any scheduler step that submits and releases nothing

  function Looked(sub: Sub, loads: seq<int>, n: nat): Sub
    requires 1 <= n <= |loads|
  {
    match sub
    case Out => Scanning(1, 0, loads[0])
    case Scanning(i, best, least) =>
      if i >= n then Chosen(best)
      else if least > loads[i] then Scanning(i + 1, i, loads[i])
      else Scanning(i + 1, best, least)
    case Chosen(_) => sub
  }

  /** `w` bounds the weights of the jobs. */
  predicate Can(a: Auto, e: Event, w: nat)
    requires Shape(a.s)
  {
    match e
    case Look(p) => p < |a.subs| && !a.subs[p].Chosen?
    case Put(p, spec) =>
      && p < |a.subs| && a.subs[p].Chosen? && a.subs[p].core < MAX_CORES
      && ValidSpec(a.s.cfg, spec) && spec.mask == CoreMask(a.subs[p].core)
      && CoreRange(a.s.cfg, spec, a.subs[p].core).number <= w
    case GiveUp(p) => p < |a.subs| && a.subs[p].Chosen?
    case Sched(t) => Enabled(a.s, t) && !t.Submit? && !t.Release? && !t.Abort?
  }

  function After(a: Auto, e: Event, w: nat): Auto
    requires Shape(a.s) && Can(a, e, w)
  {
    match e
    case Look(p) => a.(subs := a.subs[p := Looked(a.subs[p], TaskNums(a.s), a.s.cfg.numIrqs)])
    case Put(p, spec) => Auto(Apply(a.s, Submit(spec)), a.subs[p := Out])
    case GiveUp(p) => a.(subs := a.subs[p := Out])
    case Sched(t) => a.(s := Apply(a.s, t))
  }

  ghost predicate AutoRuns(a0: Auto, es: seq<Event>, a: Auto, w: nat)
    decreases |es|
  {
    if es == [] then a == a0
    else Shape(a0.s) && Can(a0, es[0], w) && AutoRuns(After(a0, es[0], w), es[1..], a, w)
  }

  // ---------- the invariant ----------

  /** What a submitter read is no more than what the counters say now. */
  predicate SubOk(sub: Sub, loads: seq<int>, n: nat)
    requires n <= |loads|
  {
    match sub
    case Out => true
    case Scanning(i, best, least) => best < i <= n && forall d :: 0 <= d < i ==> least <= loads[d]
    case Chosen(k) => k < n
  }

  /** The submitter may still add a job to core `k`, judged against a load of `bar`. */
  function Claim(sub: Sub, k: nat, bar: int): nat {
    match sub
    case Out => 0
    case Scanning(_, best, least) => Bit(best == k && least <= bar)
    case Chosen(core) => Bit(core == k)
  }

  function ClaimList(subs: seq<Sub>, k: nat, bar: int): (xs: seq<nat>)
    ensures |xs| == |subs|
  {
    seq(|subs|, p requires 0 <= p < |subs| => Claim(subs[p], k, bar))
  }

  function Claims(subs: seq<Sub>, k: nat, bar: int): nat { Sum(ClaimList(subs, k, bar)) }

  /** Core `k`, with everything that may still be added to it, stays within |subs| weights of `bar`. */
  predicate Within(loads: seq<int>, subs: seq<Sub>, w: nat, k: nat, bar: int)
    requires k < |loads|
  {
    loads[k] + w * Claims(subs, k, bar) <= bar + w * |subs|
  }

  /** ... for every bar that some core's load does not exceed. */
  ghost predicate Balanced(loads: seq<int>, n: nat, subs: seq<Sub>, w: nat)
    requires n <= |loads|
  {
    && (forall p :: 0 <= p < |subs| ==> SubOk(subs[p], loads, n))
    && (forall k: nat, i: nat, bar: int :: k < n && i < n && loads[i] <= bar ==> Within(loads, subs, w, k, bar))
  }

  lemma ClaimsUpdate(subs: seq<Sub>, p: nat, sub: Sub, k: nat, bar: int)
    requires p < |subs|
    ensures Claims(subs[p := sub], k, bar) == Claims(subs, k, bar) - Claim(subs[p], k, bar) + Claim(sub, k, bar)
  {
    SumUpdate(ClaimList(subs, k, bar), ClaimList(subs[p := sub], k, bar), p);
  }

  lemma ClaimsBound(subs: seq<Sub>, k: nat, bar: int)
    ensures Claims(subs, k, bar) <= |subs|
  {
    SumBound(ClaimList(subs, k, bar), 1);
  }

  lemma FullHouse(loads: seq<int>, subs: seq<Sub>, w: nat, k: nat, bar: int)
    requires k < |loads| && loads[k] <= bar
    ensures Within(loads, subs, w, k, bar)
  {
    ClaimsBound(subs, k, bar);
    Times(w, Claims(subs, k, bar), |subs|);
  }

  lemma Times(w: nat, x: nat, y: nat)
    requires x <= y
    ensures w * x <= w * y
  {
  }

  lemma TimesNext(w: nat, x: nat)
    ensures w * (x + 1) == w * x + w
  {
  }

  /** One read: a new candidate has been read off the counters, so the bound holds for it outright;
      leaving the loop turns a candidate no core lies below into a choice. */
  lemma LookKeeps(loads: seq<int>, n: nat, subs: seq<Sub>, w: nat, p: nat)
    requires 1 <= n <= |loads| && Balanced(loads, n, subs, w) && p < |subs|
    ensures Balanced(loads, n, subs[p := Looked(subs[p], loads, n)], w)
  {
    var sub := Looked(subs[p], loads, n);
    var subs' := subs[p := sub];
    assert SubOk(subs[p], loads, n);
    forall k: nat, i: nat, bar: int | k < n && i < n && loads[i] <= bar ensures Within(loads, subs', w, k, bar) {
      assert Within(loads, subs, w, k, bar);
      if Claim(sub, k, bar) <= Claim(subs[p], k, bar) {
        ClaimsUpdate(subs, p, sub, k, bar);
        Times(w, Claims(subs', k, bar), Claims(subs, k, bar));
      } else {
        FullHouse(loads, subs', w, k, bar);
      }
    }
  }

  lemma GiveUpKeeps(loads: seq<int>, n: nat, subs: seq<Sub>, w: nat, p: nat)
    requires n <= |loads| && Balanced(loads, n, subs, w) && p < |subs|
    ensures Balanced(loads, n, subs[p := Out], w)
  {
    var subs' := subs[p := Out];
    forall k: nat, i: nat, bar: int | k < n && i < n && loads[i] <= bar ensures Within(loads, subs', w, k, bar) {
      assert Within(loads, subs, w, k, bar);
      ClaimsUpdate(subs, p, Out, k, bar);
      Times(w, Claims(subs', k, bar), Claims(subs, k, bar));
    }
  }

  /** The enqueue trades a claim for at most its weight. */
  lemma PutKeeps(loads: seq<int>, n: nat, subs: seq<Sub>, w: nat, p: nat, x: nat)
    requires n <= |loads| && Balanced(loads, n, subs, w) && p < |subs| && subs[p].Chosen? && x <= w
    ensures subs[p].core < n
    ensures Balanced(loads[subs[p].core := loads[subs[p].core] + x], n, subs[p := Out], w)
  {
    assert SubOk(subs[p], loads, n);
    var c := subs[p].core;
    var loads', subs' := loads[c := loads[c] + x], subs[p := Out];
    forall k: nat, i: nat, bar: int | k < n && i < n && loads'[i] <= bar ensures Within(loads', subs', w, k, bar) {
      assert loads[i] <= bar && Within(loads, subs, w, k, bar);
      ClaimsUpdate(subs, p, Out, k, bar);
      if k == c {
        TimesNext(w, Claims(subs', k, bar));
      }
    }
    forall q | 0 <= q < |subs'| ensures SubOk(subs'[q], loads', n) {
      assert SubOk(subs[q], loads, n);
    }
  }

  // ---------- the scheduler's counters ----------

  lemma SubmitLoads(s: State, spec: JobSpec, k: nat)
    requires Shape(s) && ValidSpec(s.cfg, spec) && k < MAX_CORES && spec.mask == CoreMask(k)
    ensures Shape(DoSubmit(s, spec)) && k < s.cfg.numIrqs
    ensures TaskNums(DoSubmit(s, spec)) == TaskNums(s)[k := TaskNums(s)[k] + CoreRange(s.cfg, spec, k).number]
  {
    SubmitShape(s, spec);
    CoresOfMask(s.cfg, spec.mask, k);
    var s' := DoSubmit(s, spec);
    forall d | 0 <= d < MAX_CORES
      ensures TaskNums(s')[d] == TaskNums(s)[d] + (if d == k then CoreRange(s.cfg, spec, k).number else 0)
    {
      assert s'.cores[d] == EnqueueOn(s.cfg, spec, |s.jobs|, d, s.cores[d]);
    }
  }

  lemma OthersKeepLoad(s: State, t: Step, d: nat)
    requires Shape(s) && Enabled(s, t) && !t.Submit? && !t.Release? && !t.Abort? && d < MAX_CORES
    ensures |Apply(s, t).cores| == MAX_CORES && Apply(s, t).cores[d].taskNum == s.cores[d].taskNum
  {
  }

  ghost predicate Inv(a: Auto, w: nat) {
    Shape(a.s) && Balanced(TaskNums(a.s), a.s.cfg.numIrqs, a.subs, w)
  }

  lemma EventKeeps(a: Auto, e: Event, w: nat)
    requires Inv(a, w) && Can(a, e, w)
    ensures Inv(After(a, e, w), w)
    ensures After(a, e, w).s.cfg == a.s.cfg && |After(a, e, w).subs| == |a.subs|
  {
    var loads, n := TaskNums(a.s), a.s.cfg.numIrqs;
    match e {
      case Look(p) => LookKeeps(loads, n, a.subs, w, p);
      case Put(p, spec) =>
        SubmitLoads(a.s, spec, a.subs[p].core);
        PutKeeps(loads, n, a.subs, w, p, CoreRange(a.s.cfg, spec, a.subs[p].core).number);
      case GiveUp(p) => GiveUpKeeps(loads, n, a.subs, w, p);
      case Sched(t) =>
        ApplyShape(a.s, t);
        OthersKeepLoad(a.s, t, 0);
        OthersKeepLoad(a.s, t, 1);
        OthersKeepLoad(a.s, t, 2);
        assert TaskNums(Apply(a.s, t)) == loads;
    }
  }

  lemma {:induction false} RunKeeps(a0: Auto, es: seq<Event>, a: Auto, w: nat)
    requires Inv(a0, w) && AutoRuns(a0, es, a, w)
    ensures Inv(a, w) && a.s.cfg == a0.s.cfg && |a.subs| == |a0.subs|
    decreases |es|
  {
    if es != [] {
      EventKeeps(a0, es[0], w);
      RunKeeps(After(a0, es[0], w), es[1..], a, w);
    }
  }

  lemma SpreadOf(loads: seq<int>, n: nat, subs: seq<Sub>, w: nat, k: nat, i: nat)
    requires n <= |loads| && Balanced(loads, n, subs, w) && k < n && i < n
    ensures loads[k] - loads[i] <= w * |subs|
    ensures |subs| == 1 ==> loads[k] - loads[i] <= w
  {
    assert Within(loads, subs, w, k, loads[i]);
    Times(w, 0, Claims(subs, k, loads[i]));
    TimesNext(w, 0);
  }

  /** Nobody is submitting and all cores carry the same load. */
  predicate Level(a: Auto)
    requires Shape(a.s)
  {
    && (forall p :: 0 <= p < |a.subs| ==> a.subs[p] == Out)
    && (forall k, i :: 0 <= k < a.s.cfg.numIrqs && 0 <= i < a.s.cfg.numIrqs ==> TaskNums(a.s)[k] == TaskNums(a.s)[i])
  }

  lemma LevelInv(a: Auto, w: nat)
    requires Shape(a.s) && Level(a)
    ensures Inv(a, w)
  {
    var loads, n := TaskNums(a.s), a.s.cfg.numIrqs;
    forall k: nat, i: nat, bar: int | k < n && i < n && loads[i] <= bar ensures Within(loads, a.subs, w, k, bar) {
      FullHouse(loads, a.subs, w, k, bar);
    }
  }

  /** Greedy balance: from equal loads, `P` threads submitting AUTO jobs of weight at most `w`, with no
      release in between, keep all loads within P * w of each other, however their reads and enqueues
      interleave.  With a single submitter that is the largest job weight. */
  lemma GreedyBalance(a0: Auto, es: seq<Event>, a: Auto, w: nat, k: nat, i: nat)
    requires Shape(a0.s) && Level(a0) && AutoRuns(a0, es, a, w)
    requires k < a0.s.cfg.numIrqs && i < a0.s.cfg.numIrqs
    ensures Shape(a.s)
    ensures TaskNums(a.s)[k] - TaskNums(a.s)[i] <= w * |a0.subs|
    ensures |a0.subs| == 1 ==> TaskNums(a.s)[k] - TaskNums(a.s)[i] <= w
  {
    LevelInv(a0, w);
    RunKeeps(a0, es, a, w);
    var loads := TaskNums(a.s);
    SpreadOf(loads, a.s.cfg.numIrqs, a.subs, w, k, i);
  }

  // ---------- an undisturbed scan ----------

  /** The submitter after `m` reads of unchanging counters. */
  function Scan(loads: seq<int>, n: nat, m: nat): Sub
    requires 1 <= n <= |loads|
  {
    if m == 0 then Out else Looked(Scan(loads, n, m - 1), loads, n)
  }

  lemma {:induction false} ScanSoFar(loads: seq<int>, n: nat, m: nat)
    requires 1 <= m <= n <= |loads|
    ensures Scan(loads, n, m).Scanning? && Scan(loads, n, m).next == m && Scan(loads, n, m).best < m
    ensures Scan(loads, n, m).least == loads[Scan(loads, n, m).best] && LowestMin(loads, m, Scan(loads, n, m).best)
  {
    if m == 1 {
      assert Scan(loads, n, 0) == Out;
    } else {
      ScanSoFar(loads, n, m - 1);
    }
  }

  /** Undisturbed, the reads find the lowest-index least loaded core, as rknpu_schedule_core_index does. */
  lemma ScanFindsLowestMin(loads: seq<int>, n: nat)
    requires 1 <= n <= |loads|
    ensures var sub := Scan(loads, n, n + 1);
            && sub.Chosen? && sub.core < n
            && (forall i :: 0 <= i < n ==> loads[sub.core] <= loads[i])
            && (forall i :: 0 <= i < sub.core ==> loads[sub.core] < loads[i])
  {
    ScanSoFar(loads, n, n);
  }

  // ---------- the bound is reached ----------

  /** A job of weight `w` for core 0. */
  function Heavy(w: nat): JobSpec {
    var r := Range(0, w);
    JobSpec(1, Range(0, 1), [r, r, r, r, r], true, true, 0)
  }

  /** How much more core 0 carries than core 1. */
  function Gap(s: State): int
    requires Shape(s)
  {
    TaskNums(s)[0] - TaskNums(s)[1]
  }

  /** The first `p` submitters have chosen core 0, the others have not begun. */
  predicate Chose(subs: seq<Sub>, p: nat) {
    p <= |subs| && forall q :: 0 <= q < |subs| ==> subs[q] == if q < p then Chosen(0) else Out
  }

  ghost predicate Reaches(a0: Auto, a: Auto, w: nat) { exists es :: AutoRuns(a0, es, a, w) }

  lemma ReachesFrom(a0: Auto, e: Event, a: Auto, w: nat)
    requires Shape(a0.s) && Can(a0, e, w) && Reaches(After(a0, e, w), a, w)
    ensures Reaches(a0, a, w)
  {
    var es :| AutoRuns(After(a0, e, w), es, a, w);
    assert ([e] + es)[1..] == es;
    assert AutoRuns(a0, [e] + es, a, w);
  }

  lemma EnqueueOne(a: Auto, p: nat, w: nat) returns (a1: Auto)
    requires Shape(a.s) && a.s.cfg == RK3583 && p < |a.subs| && a.subs[p] == Chosen(0)
    ensures Shape(a1.s) && a1.s.cfg == a.s.cfg && a1.subs == a.subs[p := Out]
    ensures Gap(a1.s) == Gap(a.s) + w
    ensures forall a' :: Reaches(a1, a', w) ==> Reaches(a, a', w)
  {
    SubmitLoads(a.s, Heavy(w), 0);
    a1 := After(a, Put(p, Heavy(w)), w);
    forall a' | Reaches(a1, a', w) ensures Reaches(a, a', w) {
      ReachesFrom(a, Put(p, Heavy(w)), a', w);
    }
  }

  /** The weight of `p` such jobs. */
  function Stacked(w: nat, p: nat): nat {
    if p == 0 then 0 else Stacked(w, p - 1) + w
  }

  lemma {:induction false} StackedIsTimes(w: nat, p: nat)
    ensures Stacked(w, p) == w * p
  {
    if p > 0 {
      StackedIsTimes(w, p - 1);
      TimesNext(w, p - 1);
    }
  }

  lemma {:induction false} EnqueueAll(a: Auto, p: nat, w: nat) returns (a': Auto)
    requires Shape(a.s) && a.s.cfg == RK3583 && Chose(a.subs, p)
    ensures Reaches(a, a', w) && Shape(a'.s) && Gap(a'.s) == Gap(a.s) + Stacked(w, p)
    decreases p
  {
    if p == 0 {
      a' := a;
      assert AutoRuns(a, [], a, w);
    } else {
      var a1 := EnqueueOne(a, p - 1, w);
      a' := EnqueueAll(a1, p - 1, w);
    }
  }

  lemma {:induction false} ChooseAll(a: Auto, p: nat, w: nat) returns (a': Auto)
    requires Shape(a.s) && a.s.cfg == RK3583 && Chose(a.subs, p) && Gap(a.s) == 0
    ensures Reaches(a, a', w) && Shape(a'.s) && Gap(a'.s) == w * |a.subs|
    decreases |a.subs| - p
  {
    if p == |a.subs| {
      a' := EnqueueAll(a, p, w);
      StackedIsTimes(w, p);
    } else {
      var a1 := After(a, Look(p), w);
      var a2 := After(a1, Look(p), w);
      var a3 := After(a2, Look(p), w);
      assert a3.subs == a.subs[p := Chosen(0)];
      a' := ChooseAll(a3, p + 1, w);
      ReachesFrom(a2, Look(p), a', w);
      ReachesFrom(a1, Look(p), a', w);
      ReachesFrom(a, Look(p), a', w);
    }
  }

  /** No smaller bound holds: for every number of submitters and every weight there is a run on a
      two-core device, from power-up, that drives the loads P * w apart. */
  lemma BoundIsReached(P: nat, w: nat) returns (a0: Auto, a: Auto)
    ensures a0.s == Init(RK3583) && |a0.subs| == P && Shape(a0.s) && Level(a0)
    ensures Reaches(a0, a, w) && Shape(a.s)
    ensures Gap(a.s) == w * P
  {
    a0 := Auto(Init(RK3583), seq(P, _ => Out));
    a := ChooseAll(a0, 0, w);
  }
}
