/** The gang barrier: what normal runs keep on top of FIFO service.  A normal run has no abort and
    an interrupt only matches the job whose chunk is programmed; see Scheduler.Normal. */
module Gang {
  import opened Npu
  import opened Scheduler
  import opened Sums
  import Fifo

  // ---------- the log of programmed chunks ----------

  /** The first `k` chunks of job `j` on core `c`, as the hardware sees them. */
  function JobLog(cfg: Config, specs: seq<JobSpec>, j: JobId, c: nat, k: nat): seq<Prog>
    requires j < |specs| && |specs[j].subcore| == 5 && c < MAX_CORES
  {
    var r := CoreRange(cfg, specs[j], c);
    seq(k, i requires 0 <= i => Prog(j, ChunkAt(r, cfg.maxSubmit, i)))
  }

  /** The complete logs of several jobs, one after the other. */
  function Logs(cfg: Config, specs: seq<JobSpec>, c: nat, ids: seq<JobId>): seq<Prog>
    requires Fifo.Known(specs, ids) && c < MAX_CORES && cfg.maxSubmit >= 1
  {
    if ids == [] then []
    else
      var j := ids[|ids| - 1];
      Logs(cfg, specs, c, ids[..|ids| - 1]) + JobLog(cfg, specs, j, c, Need(cfg, specs, j, c))
  }

  lemma LogsAppend(cfg: Config, specs: seq<JobSpec>, c: nat, ids: seq<JobId>, j: JobId)
    requires Fifo.Known(specs, ids) && c < MAX_CORES && j < |specs| && cfg.maxSubmit >= 1
    ensures Fifo.Known(specs, ids + [j])
    ensures Logs(cfg, specs, c, ids + [j]) ==
            Logs(cfg, specs, c, ids) + JobLog(cfg, specs, j, c, Need(cfg, specs, j, c))
  {
    assert (ids + [j])[..|ids|] == ids;
  }

  lemma {:induction false} LogsExtend(cfg: Config, specs: seq<JobSpec>, spec: JobSpec, c: nat, ids: seq<JobId>)
    requires Fifo.Known(specs, ids) && c < MAX_CORES && |spec.subcore| == 5 && cfg.maxSubmit >= 1
    ensures Fifo.Known(specs + [spec], ids)
    ensures Logs(cfg, specs + [spec], c, ids) == Logs(cfg, specs, c, ids)
  {
    if ids != [] {
      LogsExtend(cfg, specs, spec, c, ids[..|ids| - 1]);
    }
  }

  // ---------- the invariant ----------

  /** The handler's position as far as job `j` is concerned. */
  function View(irq: IrqPc, j: JobId): IrqPc {
    if IrqIs(irq, j) then irq else Idle
  }

  /** One (job, core) pair: which call or device event it is waiting for, and nothing else. */
  predicate PartOk(spec: JobSpec, need: nat, run: int, p: Part, irq: IrqPc, armed: bool) {
    match p.place
    case Outside => !p.dec && !p.commit && !p.counted && p.submitCount == 0 && !armed && irq == Idle
    case Queued => !p.dec && !p.commit && !p.counted && p.submitCount == 0 && !armed && irq == Idle
    case InSlot =>
      && !p.counted
      && !irq.Freed? && !irq.Final?
      && (if irq.Accepted? || irq.Again? || irq.Last? then
            && !p.dec && !p.commit && !armed
            && run == 0 && Runnable(spec)
            && (irq.Accepted? ==> p.submitCount < need)
            && (irq.Again? ==> 1 <= p.submitCount < need)
            && (irq.Last? ==> p.submitCount == need)
          else
            && (p.dec ==> !p.commit && !armed && p.submitCount == 0)
            && (p.commit ==> !armed && run == 0 && SupportedMask(spec.mask) && p.submitCount == 0)
            && (armed ==> run == 0 && Runnable(spec) && p.submitCount < need)
            && (!p.dec && !p.commit && !armed ==> p.submitCount == 0 && (run > 0 || !Runnable(spec))))
    case Gone =>
      && !p.dec && !p.commit && !armed
      && run == 0 && Runnable(spec) && p.submitCount == need
      && (irq == Idle || irq.Freed? || irq.Final?)
      && (p.counted <==> !irq.Freed?)
  }

  predicate PairOk(s: State, j: JobId, c: nat)
    requires Shape(s) && j < |s.jobs| && c < MAX_CORES
  {
    PartOk(s.specs[j], Need(s.cfg, s.specs, j, c), s.jobs[j].runCount, s.jobs[j].parts[c],
           View(s.cores[c].irq, j), s.cores[c].armed == Some(j))
  }

  /** Cores of the job that have not popped it and decremented run_count. */
  function NotArrived(job: Job): nat
    requires |job.parts| == MAX_CORES
  {
    Bit(job.parts[0].place == Queued || job.parts[0].dec)
    + Bit(job.parts[1].place == Queued || job.parts[1].dec)
    + Bit(job.parts[2].place == Queued || job.parts[2].dec)
  }

  /** Cores of the job that have not finished and decremented interrupt_count. */
  function NotFinished(job: Job): nat
    requires |job.parts| == MAX_CORES
  {
    Bit(job.parts[0].place != Outside && !job.parts[0].counted)
    + Bit(job.parts[1].place != Outside && !job.parts[1].counted)
    + Bit(job.parts[2].place != Outside && !job.parts[2].counted)
  }

  /** Both counters are exact, and the completion block runs once, after the last core. */
  predicate CountsOk(job: Job, finals: nat)
    requires |job.parts| == MAX_CORES
  {
    && job.runCount == NotArrived(job)
    && job.interruptCount == NotFinished(job)
    && finals == Bit(job.interruptCount == 0 && !job.done)
    && (job.done ==> job.interruptCount == 0)
    && job.puts == Bit(job.done)
    && job.signals == Bit(job.done)
  }

  /** Handlers about to run the completion block of job `j`. */
  function Finals(cores: seq<Core>, j: JobId): nat
    requires |cores| == MAX_CORES
  {
    Bit(cores[0].irq == Final(j)) + Bit(cores[1].irq == Final(j)) + Bit(cores[2].irq == Final(j))
  }

  predicate JobOk(s: State, j: JobId)
    requires Shape(s) && j < |s.jobs|
  {
    CountsOk(s.jobs[j], Finals(s.cores, j))
  }

  /** An idle core with work always has somebody on the way to fetch it. */
  predicate WakeOk(core: Core) {
    core.slot.None? && core.todo != [] ==> core.nextCalls > 0 || core.irq.Freed? || core.irq.Final?
  }

  /** Chunks programmed so far for the job in the slot. */
  function Programmed(core: Core, j: JobId, p: Part): nat {
    p.submitCount + Bit(core.armed == Some(j) || core.irq == Accepted(j))
  }

  /** Everything ever programmed on the core: the finished jobs in order, then a prefix of the
      current one. */
  ghost predicate LogOk(s: State, c: nat)
    requires Shape(s) && c < MAX_CORES
  {
    var core := s.cores[c];
    assert CoreShape(core, |s.jobs|);
    && Fifo.Known(s.specs, core.released)
    && core.log == Logs(s.cfg, s.specs, c, core.released)
                   + if core.slot.None? then []
                     else JobLog(s.cfg, s.specs, core.slot.value, c,
                         Programmed(core, core.slot.value, s.jobs[core.slot.value].parts[c]))
  }

  /** Interrupts accepted for job `j`: those in its submit_counts and one a handler is about to add. */
  function JobTaken(job: Job, cores: seq<Core>, j: JobId): nat
    requires |job.parts| == MAX_CORES && |cores| == MAX_CORES
  {
    job.parts[0].submitCount + Bit(cores[0].irq == Accepted(j))
    + job.parts[1].submitCount + Bit(cores[1].irq == Accepted(j))
    + job.parts[2].submitCount + Bit(cores[2].irq == Accepted(j))
  }

  function Taken(s: State): (xs: seq<nat>)
    requires Shape(s)
    ensures |xs| == |s.jobs|
  {
    seq(|s.jobs|, j requires 0 <= j < |s.jobs| => JobTaken(s.jobs[j], s.cores, j))
  }

  /** Every accepted interrupt is accounted to exactly one job. */
  ghost predicate AcceptOk(s: State)
    requires Shape(s)
  {
    s.accepted == Sum(Taken(s))
  }

  ghost predicate Inv(s: State) {
    && Fifo.Inv(s)
    && (forall j, c :: 0 <= j < |s.jobs| && 0 <= c < MAX_CORES ==> PairOk(s, j, c))
    && (forall j :: 0 <= j < |s.jobs| ==> JobOk(s, j))
    && (forall c {:trigger WakeOk(s.cores[c])} :: 0 <= c < MAX_CORES ==> WakeOk(s.cores[c]))
    && (forall c :: 0 <= c < MAX_CORES ==> LogOk(s, c))
    && AcceptOk(s)
  }

  lemma InitInv(cfg: Config)
    requires ValidConfig(cfg)
    ensures Inv(Init(cfg))
  {
    Fifo.InitInv(cfg);
    var s := Init(cfg);
    forall c | 0 <= c < MAX_CORES ensures WakeOk(s.cores[c]) && LogOk(s, c) {
      assert s.cores[c] == EmptyCore;
    }
  }

  // ---------- steps that rewrite one core and one job ----------

  /** A new core value speaks, in `irq` and `armed`, about job `j` only, as the old one did. */
  predicate About(core: Core, core': Core, j: JobId) {
    && (core'.irq == core.irq || ((core.irq == Idle || core.irq.job == j) && (core'.irq == Idle || core'.irq.job == j)))
    && (core'.armed == core.armed || (core.armed in {None, Some(j)} && core'.armed in {None, Some(j)}))
  }

  lemma ViewsElsewhere(core: Core, core': Core, j: JobId, i: JobId)
    requires About(core, core', j) && i != j
    ensures View(core'.irq, i) == View(core.irq, i)
    ensures (core'.armed == Some(i)) <==> (core.armed == Some(i))
  {
  }

  /** A state in which only core `c` and job `j`, and of the job only part `c`, differ. */
  predicate OneStep(s: State, s': State, j: JobId, c: nat)
    requires Shape(s) && Shape(s') && j < |s.jobs| && c < MAX_CORES
  {
    && s'.cfg == s.cfg && s'.specs == s.specs
    && (forall d :: 0 <= d < MAX_CORES && d != c ==> s'.cores[d] == s.cores[d])
    && (forall i :: 0 <= i < |s.jobs| && i != j ==> s'.jobs[i] == s.jobs[i])
    && (forall d :: 0 <= d < MAX_CORES && d != c ==> s'.jobs[j].parts[d] == s.jobs[j].parts[d])
    && About(s.cores[c], s'.cores[c], j)
  }

  lemma OneStepPairs(s: State, s': State, j: JobId, c: nat, i: JobId, d: nat)
    requires Shape(s) && Shape(s') && j < |s.jobs| && c < MAX_CORES && OneStep(s, s', j, c)
    requires i < |s.jobs| && d < MAX_CORES && (i != j || d != c) && PairOk(s, i, d)
    requires s'.jobs[j].runCount == s.jobs[j].runCount
    ensures PairOk(s', i, d)
  {
    if i != j && d == c {
      ViewsElsewhere(s.cores[c], s'.cores[c], j, i);
    }
  }

  lemma OneStepFinals(s: State, s': State, j: JobId, c: nat, i: JobId)
    requires Shape(s) && Shape(s') && j < |s.jobs| && c < MAX_CORES && OneStep(s, s', j, c)
    requires i < |s.jobs| && i != j && JobOk(s, i)
    ensures JobOk(s', i)
  {
    ViewsElsewhere(s.cores[c], s'.cores[c], j, i);
    assert View(s.cores[c].irq, i) == Final(i) <==> s.cores[c].irq == Final(i);
    assert View(s'.cores[c].irq, i) == Final(i) <==> s'.cores[c].irq == Final(i);
  }

  lemma OneStepLog(s: State, s': State, j: JobId, c: nat, d: nat)
    requires Shape(s) && Shape(s') && j < |s.jobs| && c < MAX_CORES && OneStep(s, s', j, c)
    requires d < MAX_CORES && d != c && LogOk(s, d)
    ensures LogOk(s', d)
  {
    var core := s.cores[d];
    assert CoreShape(core, |s.jobs|);
    if core.slot.Some? {
      assert s'.jobs[core.slot.value].parts[d] == s.jobs[core.slot.value].parts[d];
    }
  }

  lemma OneStepTaken(s: State, s': State, j: JobId, c: nat)
    requires Shape(s) && Shape(s') && j < |s.jobs| && c < MAX_CORES && OneStep(s, s', j, c)
    ensures Sum(Taken(s')) - Sum(Taken(s)) ==
            s'.jobs[j].parts[c].submitCount - s.jobs[j].parts[c].submitCount
            + Bit(s'.cores[c].irq == Accepted(j)) - Bit(s.cores[c].irq == Accepted(j))
  {
    forall i | 0 <= i < |s.jobs| && i != j ensures Taken(s)[i] == Taken(s')[i] {
      OtherTaken(s, s', j, c, i);
    }
    OwnTaken(s, s', j, c);
    SumUpdate(Taken(s), Taken(s'), j);
  }

  lemma OtherTaken(s: State, s': State, j: JobId, c: nat, i: JobId)
    requires Shape(s) && Shape(s') && j < |s.jobs| && c < MAX_CORES && OneStep(s, s', j, c)
    requires i < |s.jobs| && i != j
    ensures JobTaken(s'.jobs[i], s'.cores, i) == JobTaken(s.jobs[i], s.cores, i)
  {
    ViewsElsewhere(s.cores[c], s'.cores[c], j, i);
    assert View(s.cores[c].irq, i) == Accepted(i) <==> s.cores[c].irq == Accepted(i);
    assert View(s'.cores[c].irq, i) == Accepted(i) <==> s'.cores[c].irq == Accepted(i);
    assert c == 0 || c == 1 || c == 2;
  }

  lemma OwnTaken(s: State, s': State, j: JobId, c: nat)
    requires Shape(s) && Shape(s') && j < |s.jobs| && c < MAX_CORES && OneStep(s, s', j, c)
    ensures JobTaken(s'.jobs[j], s'.cores, j) - JobTaken(s.jobs[j], s.cores, j) ==
            s'.jobs[j].parts[c].submitCount - s.jobs[j].parts[c].submitCount
            + Bit(s'.cores[c].irq == Accepted(j)) - Bit(s.cores[c].irq == Accepted(j))
  {
    assert c == 0 || c == 1 || c == 2;
  }

  /** To keep the invariant, such a step owes only the facts about its own pair, job and core. */
  lemma OneStepKeeps(s: State, s': State, j: JobId, c: nat)
    requires Inv(s) && Fifo.Inv(s') && j < |s.jobs| && c < MAX_CORES && OneStep(s, s', j, c)
    requires s'.jobs[j].runCount == s.jobs[j].runCount
    requires PairOk(s', j, c) && JobOk(s', j) && WakeOk(s'.cores[c]) && LogOk(s', c)
    requires s'.accepted - s.accepted ==
             s'.jobs[j].parts[c].submitCount - s.jobs[j].parts[c].submitCount
             + Bit(s'.cores[c].irq == Accepted(j)) - Bit(s.cores[c].irq == Accepted(j))
    ensures Inv(s')
  {
    forall i, d | 0 <= i < |s'.jobs| && 0 <= d < MAX_CORES ensures PairOk(s', i, d) {
      if i != j || d != c { OneStepPairs(s, s', j, c, i, d); }
    }
    forall i | 0 <= i < |s'.jobs| ensures JobOk(s', i) {
      if i != j { OneStepFinals(s, s', j, c, i); }
    }
    forall d | 0 <= d < MAX_CORES ensures WakeOk(s'.cores[d]) && LogOk(s', d) {
      assert WakeOk(s.cores[d]);
      if d != c { OneStepLog(s, s', j, c, d); }
    }
    OneStepTaken(s, s', j, c);
  }
}
