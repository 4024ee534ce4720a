/** Deadlock freedom and termination of the gang scheduler. */
module Progress {
  import opened Npu
  import opened Scheduler
  import opened Sums
  import opened Gang
  import opened GangSteps
  import Coverage
  import Fifo

  // ---------- quiescence ----------

  predicate CoreQuiet(core: Core) {
    core.nextCalls == 0 && core.irq == Idle && core.armed.None?
  }

  /** Nothing is in flight: no call outstanding, no handler running, no chunk programmed. */
  predicate Quiescent(s: State)
    requires Shape(s)
  {
    && (forall c :: 0 <= c < MAX_CORES ==> CoreQuiet(s.cores[c]))
    && (forall j, c :: 0 <= j < |s.jobs| && 0 <= c < MAX_CORES ==>
       !s.jobs[j].parts[c].dec && !s.jobs[j].parts[c].commit)
  }

  /** All queues and slots are empty. */
  predicate Drained(s: State)
    requires Shape(s)
  {
    forall c :: 0 <= c < MAX_CORES ==> s.cores[c].slot.None? && s.cores[c].todo == [] && s.cores[c].taskNum == 0
  }

  /** With everything older done, the oldest unfinished job is not stuck behind anybody: each of its
      cores is either past it, or holds it, or is idle and being woken up. */
  lemma OldestNotBlocked(s: State, j: JobId, c: nat)
    requires Inv(s) && j < |s.jobs| && c < MAX_CORES && HasCore(s.specs[j].mask, c)
    requires forall i :: 0 <= i < j ==> s.jobs[i].done
    requires s.jobs[j].parts[c].place == Queued
    ensures s.cores[c].slot.None? && s.cores[c].todo != []
    ensures s.cores[c].nextCalls > 0 || s.cores[c].irq.Freed? || s.cores[c].irq.Final?
  {
    var core := s.cores[c];
    assert Fifo.PlaceOk(s, j, c) && WakeOk(core) && CoreShape(core, |s.jobs|);
    if core.slot.Some? {
      SlotIsNotYounger(s, j, c);
      var i := core.slot.value;
      assert JobOk(s, i) && Fifo.PlaceOk(s, i, c);
      Coverage.FinishedEverywhere(s, i, c);
    }
  }

  lemma SlotIsNotYounger(s: State, j: JobId, c: nat)
    requires Fifo.Inv(s) && j < |s.jobs| && c < MAX_CORES && j in s.cores[c].todo && s.cores[c].slot.Some?
    ensures s.cores[c].slot.value < j
    ensures s.cores[c].slot.value < |s.jobs| && HasCore(s.specs[s.cores[c].slot.value].mask, c)
  {
    var core := s.cores[c];
    assert CoreShape(core, |s.jobs|);
    assert Fifo.PlaceOk(s, core.slot.value, c);
    Coverage.ReleasedAscending(s, c);
    var all := core.released + Fifo.SlotSeq(core.slot) + core.todo;
    var r := |core.released|;
    var k :| 0 <= k < |core.todo| && core.todo[k] == j;
    assert all[r] == core.slot.value && all[r + 1 + k] == j;
  }

  /** In a quiescent state a runnable job whose predecessors are done is done. */
  lemma OldestIsDone(s: State, j: JobId)
    requires Inv(s) && Quiescent(s) && j < |s.jobs| && Runnable(s.specs[j])
    requires forall i :: 0 <= i < j ==> s.jobs[i].done
    ensures s.jobs[j].done
  {
    forall c | 0 <= c < MAX_CORES ensures s.jobs[j].parts[c].place != Queued && !s.jobs[j].parts[c].dec {
      NotQueuedAtRest(s, j, c);
    }
    assert JobOk(s, j);
    assert s.jobs[j].runCount == 0;
    forall c | 0 <= c < MAX_CORES ensures s.jobs[j].parts[c].place == Outside || s.jobs[j].parts[c].counted {
      CountedAtRest(s, j, c);
    }
    assert CoreQuiet(s.cores[0]) && CoreQuiet(s.cores[1]) && CoreQuiet(s.cores[2]);
  }

  lemma NotQueuedAtRest(s: State, j: JobId, c: nat)
    requires Inv(s) && Quiescent(s) && j < |s.jobs| && c < MAX_CORES
    requires forall i :: 0 <= i < j ==> s.jobs[i].done
    ensures s.jobs[j].parts[c].place != Queued && !s.jobs[j].parts[c].dec
  {
    assert Fifo.PlaceOk(s, j, c) && CoreQuiet(s.cores[c]);
    if s.jobs[j].parts[c].place == Queued { OldestNotBlocked(s, j, c); }
  }

  lemma CountedAtRest(s: State, j: JobId, c: nat)
    requires Inv(s) && Quiescent(s) && j < |s.jobs| && c < MAX_CORES && Runnable(s.specs[j])
    requires s.jobs[j].runCount == 0 && s.jobs[j].parts[c].place != Queued
    ensures s.jobs[j].parts[c].place == Outside || s.jobs[j].parts[c].counted
  {
    assert PairOk(s, j, c) && CoreQuiet(s.cores[c]);
  }

  lemma {:induction false} AllDone(s: State, n: nat)
    requires Inv(s) && Quiescent(s) && n <= |s.jobs|
    requires forall j :: 0 <= j < |s.jobs| ==> Runnable(s.specs[j])
    ensures forall j :: 0 <= j < n ==> s.jobs[j].done
  {
    if n > 0 {
      AllDone(s, n - 1);
      OldestIsDone(s, n - 1);
    }
  }

  lemma DoneIsRunnable(s: State, j: JobId)
    requires Inv(s) && j < |s.jobs| && s.jobs[j].done
    ensures Runnable(s.specs[j])
  {
    assert JobOk(s, j);
    CommitMatchesQueues(s.specs[j].mask, 0);
    var c := if HasCore(s.specs[j].mask, 0) then 0 else if HasCore(s.specs[j].mask, 1) then 1 else 2;
    Coverage.FinishedEverywhere(s, j, c);
    assert PairOk(s, j, c);
  }

  lemma DoneIsDrained(s: State)
    requires Inv(s) && forall j :: 0 <= j < |s.jobs| ==> s.jobs[j].done
    ensures Drained(s)
  {
    forall c | 0 <= c < MAX_CORES ensures s.cores[c].slot.None? && s.cores[c].todo == [] && s.cores[c].taskNum == 0 {
      var core := s.cores[c];
      assert CoreShape(core, |s.jobs|) && Fifo.ListOk(s.cfg, s.specs, c, core);
      if core.slot.Some? {
        assert JobOk(s, core.slot.value) && Fifo.PlaceOk(s, core.slot.value, c);
        Coverage.FinishedEverywhere(s, core.slot.value, c);
      }
      if core.todo != [] {
        var j := core.todo[0];
        assert JobOk(s, j) && Fifo.PlaceOk(s, j, c);
        Coverage.FinishedEverywhere(s, j, c);
      }
    }
  }

  /** Gang deadlock freedom, with its exact condition.  When a normal run comes to rest, every job is
      done if and only if every submitted job was one the commit path runs: a supported mask, the PC
      flag and a task object. */
  lemma DeadlockFreedom(cfg: Config, ts: seq<Step>, s: State)
    requires ValidConfig(cfg) && NormalRuns(Init(cfg), ts, s)
    requires Shape(s) && Quiescent(s)
    ensures (forall j :: 0 <= j < |s.jobs| ==> s.jobs[j].done) <==>
            (forall j :: 0 <= j < |s.jobs| ==> Runnable(s.specs[j]))
    ensures (forall j :: 0 <= j < |s.jobs| ==> Runnable(s.specs[j])) ==> Drained(s)
  {
    Reachable(cfg, ts, s);
    if forall j :: 0 <= j < |s.jobs| ==> Runnable(s.specs[j]) {
      AllDone(s, |s.jobs|);
      DoneIsDrained(s);
    }
    if forall j :: 0 <= j < |s.jobs| ==> s.jobs[j].done {
      forall j | 0 <= j < |s.jobs| ensures Runnable(s.specs[j]) { DoneIsRunnable(s, j); }
    }
  }

  // ---------- the termination measure ----------

  function IrqCost(irq: IrqPc, armed: bool): nat {
    match irq
    case Idle => if armed then 3 else 0
    case Entered(_) => if armed then 2 else 1
    case Accepted(_) => 1 + 2 * Bit(armed)
    case Again(_) => 4 + 2 * Bit(armed)
    case Last(_) => 5 + 2 * Bit(armed)
    case Freed(_) => 4 + 2 * Bit(armed)
    case Final(_) => 3 + 2 * Bit(armed)
  }

  function CoreCost(core: Core): nat {
    core.nextCalls + IrqCost(core.irq, core.armed.Some?)
  }

  /** Interrupts a part still needs. */
  function Left(need: nat, p: Part): nat {
    if p.place == Outside || p.submitCount >= need then 0 else need - p.submitCount
  }

  function PartCost(need: nat, p: Part): nat {
    4 * Bit(p.commit) + 5 * Left(need, p)
  }

  function JobCost(s: State, j: JobId): nat
    requires Shape(s) && j < |s.jobs|
  {
    13 * NotArrived(s.jobs[j])
    + PartCost(Need(s.cfg, s.specs, j, 0), s.jobs[j].parts[0])
    + PartCost(Need(s.cfg, s.specs, j, 1), s.jobs[j].parts[1])
    + PartCost(Need(s.cfg, s.specs, j, 2), s.jobs[j].parts[2])
  }

  function JobCosts(s: State): (xs: seq<nat>)
    requires Shape(s)
    ensures |xs| == |s.jobs|
  {
    seq(|s.jobs|, j requires 0 <= j < |s.jobs| => JobCost(s, j))
  }

  /** How many steps of work are left at most. */
  function Rank(s: State): nat
    requires Shape(s)
  {
    Sum(JobCosts(s)) + CoreCost(s.cores[0]) + CoreCost(s.cores[1]) + CoreCost(s.cores[2])
  }

  /** A step that is neither a new submission nor a spurious interrupt. */
  predicate Work(s: State, t: Step)
    requires Shape(s)
  {
    && !t.Submit? && !t.Abort?
    && (t.IrqEnter? ==> t.c < MAX_CORES && s.cores[t.c].armed.Some?)
    && (t.IrqStatus? && !t.matched ==> t.c < MAX_CORES && s.cores[t.c].armed.None?)
  }

  function Pending(p: Part): nat { Bit(p.place == Queued || p.dec) }

  /** What a step contributes to the rank when it rewrites part `c` of job `j` and core `c`. */
  lemma RankOfPart(s: State, s': State, j: JobId, c: nat)
    requires Shape(s) && Shape(s') && j < |s.jobs| && c < MAX_CORES
    requires s'.cfg == s.cfg && s'.specs == s.specs
    requires forall d :: 0 <= d < MAX_CORES && d != c ==> s'.cores[d] == s.cores[d]
    requires forall i :: 0 <= i < |s.jobs| && i != j ==> s'.jobs[i] == s.jobs[i]
    requires forall d :: 0 <= d < MAX_CORES && d != c ==> s'.jobs[j].parts[d] == s.jobs[j].parts[d]
    ensures Rank(s') - Rank(s) ==
            13 * Pending(s'.jobs[j].parts[c]) - 13 * Pending(s.jobs[j].parts[c])
            + PartCost(Need(s.cfg, s.specs, j, c), s'.jobs[j].parts[c]) -
              PartCost(Need(s.cfg, s.specs, j, c), s.jobs[j].parts[c])
            + CoreCost(s'.cores[c]) - CoreCost(s.cores[c])
  {
    SumUpdate(JobCosts(s), JobCosts(s'), j);
    assert NotArrived(s'.jobs[j]) - NotArrived(s.jobs[j]) == Pending(s'.jobs[j].parts[c]) - Pending(s.jobs[j].parts[c]);
  }

  lemma RankOfCore(s: State, s': State, c: nat)
    requires Shape(s) && c < MAX_CORES && Shape(s')
    requires s'.cfg == s.cfg && s'.specs == s.specs && s'.jobs == s.jobs
    requires forall d :: 0 <= d < MAX_CORES && d != c ==> s'.cores[d] == s.cores[d]
    ensures Rank(s') - Rank(s) == CoreCost(s'.cores[c]) - CoreCost(s.cores[c])
  {
    assert JobCosts(s') == JobCosts(s);
  }

  lemma NextLowers(s: State, c: nat)
    requires Shape(s) && Enabled(s, NextCall(c)) && Shape(DoNext(s, c))
    requires forall j :: 0 <= j < |s.jobs| && j in s.cores[c].todo ==> s.jobs[j].parts[c].place == Queued
    ensures Rank(DoNext(s, c)) < Rank(s)
  {
    var core := s.cores[c];
    assert CoreShape(core, |s.jobs|);
    if core.slot.Some? || core.todo == [] {
      RankOfCore(s, DoNext(s, c), c);
    } else {
      RankOfPart(s, DoNext(s, c), core.todo[0], c);
    }
  }

  lemma DecRunLowers(s: State, j: JobId, c: nat)
    requires Shape(s) && Enabled(s, DecRun(j, c)) && Shape(DoDecRun(s, j, c)) && PairOk(s, j, c)
    ensures Rank(DoDecRun(s, j, c)) < Rank(s)
  {
    var s' := DoDecRun(s, j, c);
    DecRunCost(s, j, c, 0);
    DecRunCost(s, j, c, 1);
    DecRunCost(s, j, c, 2);
    assert JobCost(s', j) < JobCost(s, j);
    CostOfOther(s, j, c);
    SumUpdate(JobCosts(s), JobCosts(s'), j);
  }

  lemma CostOfOther(s: State, j: JobId, c: nat)
    requires Shape(s) && Enabled(s, DecRun(j, c)) && Shape(DoDecRun(s, j, c))
    ensures DoDecRun(s, j, c).cores == s.cores
    ensures |JobCosts(DoDecRun(s, j, c))| == |JobCosts(s)|
    ensures forall i :: 0 <= i < |s.jobs| && i != j ==> JobCosts(DoDecRun(s, j, c))[i] == JobCosts(s)[i]
  {
  }

  lemma DecRunCost(s: State, j: JobId, c: nat, d: nat)
    requires Shape(s) && Enabled(s, DecRun(j, c)) && Shape(DoDecRun(s, j, c)) && PairOk(s, j, c) && d < MAX_CORES
    ensures var p, p' := s.jobs[j].parts[d], DoDecRun(s, j, c).jobs[j].parts[d];
            && Need(DoDecRun(s, j, c).cfg, DoDecRun(s, j, c).specs, j, d) == Need(s.cfg, s.specs, j, d)
            && PartCost(Need(s.cfg, s.specs, j, d), p') <= PartCost(Need(s.cfg, s.specs, j, d), p) + 4
            && Pending(p') == Pending(p) - Bit(d == c)
  {
  }

  lemma CommitLowers(s: State, j: JobId, c: nat)
    requires Shape(s) && Enabled(s, Commit(j, c)) && Shape(DoCommit(s, j, c)) && PairOk(s, j, c)
    requires s.cores[c].armed in {None, Some(j)}
    ensures Rank(DoCommit(s, j, c)) < Rank(s)
  {
    RankOfPart(s, DoCommit(s, j, c), j, c);
  }

  lemma IrqEnterLowers(s: State, c: nat, j: JobId)
    requires Shape(s) && Enabled(s, IrqEnter(c)) && Shape(DoIrqEnter(s, c))
    requires s.cores[c].armed.Some? && s.cores[c].slot == Some(j) && j < |s.jobs|
    ensures Rank(DoIrqEnter(s, c)) < Rank(s)
  {
    RankOfPart(s, DoIrqEnter(s, c), j, c);
  }

  lemma IrqStatusLowers(s: State, t: Step)
    requires Shape(s) && t.IrqStatus? && Enabled(s, t) && Normal(s, t) && Work(s, t) && Shape(Apply(s, t))
    ensures Rank(Apply(s, t)) < Rank(s)
  {
    RankOfCore(s, Apply(s, t), t.c);
  }

  lemma DoneIncLowers(s: State, c: nat, j: JobId)
    requires Shape(s) && Enabled(s, DoneInc(c)) && Shape(DoDoneInc(s, c))
    requires s.cores[c].irq == Accepted(j) && j < |s.jobs| && PairOk(s, j, c) && s.jobs[j].parts[c].place == InSlot
    ensures Rank(DoDoneInc(s, c)) < Rank(s)
  {
    RankOfPart(s, DoDoneInc(s, c), j, c);
  }

  lemma RecommitLowers(s: State, c: nat)
    requires Shape(s) && Enabled(s, Recommit(c)) && Shape(DoRecommit(s, c))
    ensures Rank(DoRecommit(s, c)) < Rank(s)
  {
    RankOfCore(s, DoRecommit(s, c), c);
  }

  lemma ReleaseLowers(s: State, c: nat, j: JobId)
    requires Shape(s) && Enabled(s, Release(c)) && Shape(DoRelease(s, c))
    requires s.cores[c].irq == Last(j) && j < |s.jobs| && PairOk(s, j, c) && s.jobs[j].parts[c].place == InSlot
    ensures Rank(DoRelease(s, c)) < Rank(s)
  {
    RankOfPart(s, DoRelease(s, c), j, c);
  }

  lemma CountDownLowers(s: State, c: nat, j: JobId)
    requires Shape(s) && Enabled(s, CountDown(c)) && Shape(DoCountDown(s, c))
    requires s.cores[c].irq == Freed(j) && j < |s.jobs|
    ensures Rank(DoCountDown(s, c)) < Rank(s)
  {
    var s' := DoCountDown(s, c);
    assert s'.jobs[j].parts[c] == s.jobs[j].parts[c].(counted := true);
    assert CoreCost(s'.cores[c]) < CoreCost(s.cores[c]);
    RankOfPart(s, s', j, c);
  }

  lemma CompleteLowers(s: State, c: nat, j: JobId)
    requires Shape(s) && Enabled(s, Complete(c)) && Shape(DoComplete(s, c))
    requires s.cores[c].irq == Final(j) && j < |s.jobs|
    ensures Rank(DoComplete(s, c)) < Rank(s)
  {
    RankOfPart(s, DoComplete(s, c), j, c);
  }

  /** The local facts a step of work needs, out of the invariant. */
  lemma WorkFacts(s: State, t: Step)
    requires Inv(s) && Enabled(s, t) && Normal(s, t) && Work(s, t)
    ensures t.NextCall? ==>
              forall j :: 0 <= j < |s.jobs| && j in s.cores[t.c].todo ==> s.jobs[j].parts[t.c].place == Queued
    ensures t.DecRun? || t.Commit? ==> PairOk(s, t.j, t.c)
    ensures t.Commit? ==> s.cores[t.c].armed in {None, Some(t.j)}
    ensures t.IrqEnter? ==> s.cores[t.c].slot == s.cores[t.c].armed && s.cores[t.c].slot.value < |s.jobs|
    ensures t.DoneInc? || t.Recommit? || t.Release? || t.CountDown? || t.Complete? ==>
              var j := s.cores[t.c].irq.job;
              && j < |s.jobs| && PairOk(s, j, t.c)
              && (!t.CountDown? && !t.Complete? ==> s.jobs[j].parts[t.c].place == InSlot)
  {
    if t.NextCall? {
      forall j | 0 <= j < |s.jobs| && j in s.cores[t.c].todo ensures s.jobs[j].parts[t.c].place == Queued {
        assert Fifo.PlaceOk(s, j, t.c);
      }
    } else if t.Commit? {
      assert PairOk(s, t.j, t.c) && Fifo.PlaceOk(s, t.j, t.c);
      if s.cores[t.c].armed.Some? { ArmedIsSlot(s, t.c); }
    } else if t.IrqEnter? {
      ArmedIsSlot(s, t.c);
      assert CoreShape(s.cores[t.c], |s.jobs|);
    } else if !t.DecRun? && !t.IrqStatus? {
      HandlerPair(s, t.c);
    }
  }

  /** Every step of work lowers the rank. */
  lemma WorkLowersRank(s: State, t: Step)
    requires Inv(s) && Enabled(s, t) && Normal(s, t) && Work(s, t)
    ensures Inv(Apply(s, t)) && Rank(Apply(s, t)) < Rank(s)
  {
    StepKeeps(s, t);
    WorkFacts(s, t);
    match t {
      case NextCall(c) => NextLowers(s, c);
      case DecRun(j, c) => DecRunLowers(s, j, c);
      case Commit(j, c) => CommitLowers(s, j, c);
      case IrqEnter(c) => IrqEnterLowers(s, c, s.cores[c].slot.value);
      case IrqStatus(_, _) => IrqStatusLowers(s, t);
      case DoneInc(c) => DoneIncLowers(s, c, s.cores[c].irq.job);
      case Recommit(c) => RecommitLowers(s, c);
      case Release(c) => ReleaseLowers(s, c, s.cores[c].irq.job);
      case CountDown(c) => CountDownLowers(s, c, s.cores[c].irq.job);
      case Complete(c) => CompleteLowers(s, c, s.cores[c].irq.job);
    }
  }

  // ---------- draining ----------

  /** A normal run of work steps only. */
  ghost predicate WorkRuns(s0: State, ts: seq<Step>, s: State)
    decreases |ts|
  {
    if ts == [] then s == s0
    else
      && Shape(s0)
      && Enabled(s0, ts[0]) && Normal(s0, ts[0]) && Work(s0, ts[0])
      && WorkRuns(Apply(s0, ts[0]), ts[1..], s)
  }

  /** Without new submissions and spurious interrupts the scheduler does at most Rank steps. */
  lemma {:induction false} WorkIsBounded(s0: State, ts: seq<Step>, s: State)
    requires Inv(s0) && WorkRuns(s0, ts, s)
    ensures Inv(s) && |ts| + Rank(s) <= Rank(s0)
    decreases |ts|
  {
    if ts != [] {
      WorkLowersRank(s0, ts[0]);
      WorkIsBounded(Apply(s0, ts[0]), ts[1..], s);
    }
  }

  /** A state that is not at rest offers a step of work: the hardware only has to answer. */
  lemma SomeWork(s: State) returns (t: Step)
    requires Inv(s) && !Quiescent(s)
    ensures Enabled(s, t) && Normal(s, t) && Work(s, t)
  {
    if exists c :: 0 <= c < MAX_CORES && !CoreQuiet(s.cores[c]) {
      var c :| 0 <= c < MAX_CORES && !CoreQuiet(s.cores[c]);
      var core := s.cores[c];
      if core.nextCalls > 0 {
        t := NextCall(c);
      } else {
        match core.irq {
          case Idle => t := IrqEnter(c);
          case Entered(j) =>
            HandlerPair(s, c);
            t := IrqStatus(c, core.armed.Some?);
          case Accepted(_) => t := DoneInc(c);
          case Again(_) => t := Recommit(c);
          case Last(_) => t := Release(c);
          case Freed(_) => t := CountDown(c);
          case Final(_) => t := Complete(c);
        }
      }
    } else {
      var j, c :| 0 <= j < |s.jobs| && 0 <= c < MAX_CORES && (s.jobs[j].parts[c].dec || s.jobs[j].parts[c].commit);
      t := if s.jobs[j].parts[c].dec then DecRun(j, c) else Commit(j, c);
    }
  }

  /** From every reachable state the work in progress can be driven to rest. */
  lemma {:induction false} CanDrain(s: State) returns (ts: seq<Step>, s': State)
    requires Inv(s)
    ensures WorkRuns(s, ts, s') && Inv(s') && Quiescent(s') && |ts| <= Rank(s)
    ensures s'.specs == s.specs
    decreases Rank(s)
  {
    if Quiescent(s) {
      ts, s' := [], s;
    } else {
      var t := SomeWork(s);
      WorkLowersRank(s, t);
      ApplyShape(s, t);
      ts, s' := CanDrain(Apply(s, t));
      assert ([t] + ts)[1..] == ts;
      ts := [t] + ts;
    }
  }

  lemma {:induction false} WorkRunsAreNormal(s0: State, ts: seq<Step>, s: State)
    requires WorkRuns(s0, ts, s)
    ensures NormalRuns(s0, ts, s)
    decreases |ts|
  {
    if ts == [] {
      RunNil(true, s0, s);
    } else {
      WorkRunsAreNormal(Apply(s0, ts[0]), ts[1..], s);
      RunCons(true, s0, ts, s);
    }
  }

  /** Every reachable state with runnable jobs only can be drained: at most Rank more steps of work,
      all of them offered by the state, complete every job and empty every core. */
  lemma EventuallyDrained(cfg: Config, ts: seq<Step>, s: State) returns (more: seq<Step>, s': State)
    requires ValidConfig(cfg) && NormalRuns(Init(cfg), ts, s)
    requires Shape(s) && forall j :: 0 <= j < |s.jobs| ==> Runnable(s.specs[j])
    ensures WorkRuns(s, more, s') && |more| <= Rank(s)
    ensures Shape(s') && s'.specs == s.specs && Drained(s')
    ensures forall j :: 0 <= j < |s'.jobs| ==> s'.jobs[j].done && s'.jobs[j].puts == 1 && s'.jobs[j].signals == 1
  {
    Reachable(cfg, ts, s);
    more, s' := CanDrain(s);
    AllDone(s', |s'.jobs|);
    DoneIsDrained(s');
    forall j | 0 <= j < |s'.jobs| ensures s'.jobs[j].puts == 1 && s'.jobs[j].signals == 1 {
      assert JobOk(s', j);
    }
  }

  /** Submit one job to an idle device and let it run to rest. */
  lemma SubmitToRest(cfg: Config, spec: JobSpec) returns (ts: seq<Step>, s: State)
    requires ValidConfig(cfg) && ValidSpec(cfg, spec)
    ensures NormalRuns(Init(cfg), ts, s) && Inv(s) && Quiescent(s) && s.specs == [spec]
  {
    InitInv(cfg);
    var s0 := Init(cfg);
    var t := Submit(spec);
    assert Enabled(s0, t) && Normal(s0, t);
    StepKeeps(s0, t);
    ApplyShape(s0, t);
    var s1 := Apply(s0, t);
    assert s1.specs == [spec];
    var more, s2 := CanDrain(s1);
    WorkRunsAreNormal(s1, more, s2);
    ts, s := [t] + more, s2;
    assert ts[1..] == more && ts[0] == t;
    RunCons(true, s0, ts, s);
  }

  /** The guard matters: a job rknpu_submit accepts but the commit path does not run (such as mask 5
      or 6 on an RK3588) brings a normal run to rest unfinished, with its cores occupied for ever. */
  lemma UnrunnableJobSticks(cfg: Config, spec: JobSpec) returns (ts: seq<Step>, s: State)
    requires ValidConfig(cfg) && ValidSpec(cfg, spec) && !Runnable(spec)
    ensures NormalRuns(Init(cfg), ts, s) && Shape(s) && Quiescent(s) && s.specs == [spec]
    ensures |s.jobs| == 1 && !s.jobs[0].done
    ensures forall c :: 0 <= c < MAX_CORES && HasCore(spec.mask, c) ==> s.cores[c].slot == Some(0)
  {
    ts, s := SubmitToRest(cfg, spec);
    if s.jobs[0].done { DoneIsRunnable(s, 0); }
    forall c | 0 <= c < MAX_CORES && HasCore(spec.mask, c) ensures s.cores[c].slot == Some(0) {
      StuckInSlot(s, 0, c);
    }
  }

  /** At rest, the oldest job is past the queue on each of its cores; if it is not runnable it never
      leaves the slot. */
  lemma StuckInSlot(s: State, j: JobId, c: nat)
    requires Inv(s) && Quiescent(s) && j < |s.jobs| && c < MAX_CORES && HasCore(s.specs[j].mask, c)
    requires !Runnable(s.specs[j]) && forall i :: 0 <= i < j ==> s.jobs[i].done
    ensures s.cores[c].slot == Some(j)
  {
    NotQueuedAtRest(s, j, c);
    assert Fifo.PlaceOk(s, j, c) && PairOk(s, j, c);
  }

  // ---------- the exact number of interrupts ----------

  function JobNeeds(s: State, j: JobId): nat
    requires Shape(s) && j < |s.jobs|
  {
    Bit(HasCore(s.specs[j].mask, 0)) * Need(s.cfg, s.specs, j, 0)
    + Bit(HasCore(s.specs[j].mask, 1)) * Need(s.cfg, s.specs, j, 1)
    + Bit(HasCore(s.specs[j].mask, 2)) * Need(s.cfg, s.specs, j, 2)
  }

  function Needs(s: State): (xs: seq<nat>)
    requires Shape(s)
    ensures |xs| == |s.jobs|
  {
    seq(|s.jobs|, j requires 0 <= j < |s.jobs| => JobNeeds(s, j))
  }

  lemma PartTaken(s: State, j: JobId, c: nat)
    requires Inv(s) && j < |s.jobs| && c < MAX_CORES
    ensures s.jobs[j].parts[c].submitCount + Bit(s.cores[c].irq == Accepted(j)) <=
            Bit(HasCore(s.specs[j].mask, c)) * Need(s.cfg, s.specs, j, c)
    ensures s.jobs[j].done ==>
              && s.cores[c].irq != Accepted(j)
              && s.jobs[j].parts[c].submitCount == Bit(HasCore(s.specs[j].mask, c)) * Need(s.cfg, s.specs, j, c)
  {
    assert JobOk(s, j) && PairOk(s, j, c) && Fifo.PlaceOk(s, j, c);
    assert s.cores[c].irq == Accepted(j) <==> View(s.cores[c].irq, j) == Accepted(j);
    if HasCore(s.specs[j].mask, c) && s.jobs[j].done { Coverage.FinishedEverywhere(s, j, c); }
  }

  lemma JobTakenBound(s: State, j: JobId)
    requires Inv(s) && j < |s.jobs|
    ensures Taken(s)[j] <= Needs(s)[j]
    ensures s.jobs[j].done ==> Taken(s)[j] == Needs(s)[j]
  {
    PartTaken(s, j, 0);
    PartTaken(s, j, 1);
    PartTaken(s, j, 2);
  }

  /** Interrupts the submitted jobs still need. */
  function Outstanding(s: State): int
    requires Shape(s)
  {
    Sum(Needs(s)) - s.accepted
  }

  /** The interrupt measure: in every normal run it is never negative, an accepted interrupt lowers it
      by exactly one, and no other step but a submission changes it. */
  lemma InterruptMeasure(cfg: Config, ts: seq<Step>, s: State, t: Step)
    requires ValidConfig(cfg) && NormalRuns(Init(cfg), ts, s)
    requires Shape(s) && Enabled(s, t) && Normal(s, t)
    ensures Outstanding(s) >= 0 && Shape(Apply(s, t))
    ensures t.IrqStatus? && t.matched ==> Outstanding(Apply(s, t)) == Outstanding(s) - 1
    ensures !t.Submit? && !(t.IrqStatus? && t.matched) ==> Outstanding(Apply(s, t)) == Outstanding(s)
  {
    Reachable(cfg, ts, s);
    NotOverAnswered(s);
    OutstandingStep(s, t);
  }

  lemma NotOverAnswered(s: State)
    requires Inv(s)
    ensures Outstanding(s) >= 0
  {
    forall j | 0 <= j < |s.jobs| ensures Taken(s)[j] <= Needs(s)[j] { JobTakenBound(s, j); }
    SumMonotone(Taken(s), Needs(s));
    assert AcceptOk(s);
  }

  lemma OutstandingStep(s: State, t: Step)
    requires Shape(s) && Enabled(s, t)
    ensures Shape(Apply(s, t))
    ensures !t.Submit? ==> Outstanding(Apply(s, t)) == Outstanding(s) - Bit(t.IrqStatus? && t.matched)
  {
    ApplyShape(s, t);
    AcceptedFrame(s, t);
    if !t.Submit? { SameNeeds(s, Apply(s, t)); }
  }

  lemma SameNeeds(s: State, s': State)
    requires Shape(s) && Shape(s') && s'.cfg == s.cfg && s'.specs == s.specs
    ensures Needs(s') == Needs(s)
  {
  }

  lemma AcceptedFrame(s: State, t: Step)
    requires Shape(s) && Enabled(s, t)
    ensures Apply(s, t).accepted == s.accepted + Bit(t.IrqStatus? && t.matched)
  {
  }

  /** A batch that has drained took exactly max(1, ceil(task_number / max_submit_number)) accepted
      interrupts per (job, core), summed over the batch. */
  lemma InterruptsPerBatch(cfg: Config, ts: seq<Step>, s: State)
    requires ValidConfig(cfg) && NormalRuns(Init(cfg), ts, s)
    requires Shape(s) && Quiescent(s) && forall j :: 0 <= j < |s.jobs| ==> Runnable(s.specs[j])
    ensures s.accepted == Sum(Needs(s))
  {
    Reachable(cfg, ts, s);
    AllDone(s, |s.jobs|);
    forall j | 0 <= j < |s.jobs| ensures Taken(s)[j] == Needs(s)[j] { JobTakenBound(s, j); }
    assert Taken(s) == Needs(s);
    assert AcceptOk(s);
  }
}
