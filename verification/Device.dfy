/** The scheduler as the driver writes it: one object whose queues, slots and counters are updated in
    place, critical section by critical section.  Every method is proved to take exactly the step of
    the machine in module Scheduler, and the two call chains that the driver makes (rknpu_job_next
    and rknpu_irq_handler) are proved to be runs of it. */
module Device {
  import opened Npu
  import opened Scheduler
  import opened Calls
  import Gang
  import GangSteps
  import Coverage


  /** The hardware executed the submitted range of the job on core `d`, once and in order. */
  ghost predicate RanOn(s: State, j: JobId, d: nat)
    requires Shape(s) && j < |s.jobs| && d < MAX_CORES
  {
    var spec := s.specs[j];
    var r := if s.cfg.numIrqs == 1 then spec.whole
             else if spec.mask == 7 then spec.subcore[d + 2] else spec.subcore[d];
    Tasks(Coverage.ChunksOf(s.cores[d].log, j)) == Span(r.start, r.number)
  }

  /** Every job marked DONE has run its whole range on each of its cores. */
  ghost predicate DoneJobsRan(s: State)
    requires Shape(s)
  {
    forall j, d :: 0 <= j < |s.jobs| && 0 <= d < MAX_CORES && s.jobs[j].done && HasCore(s.specs[j].mask, d) ==>
      RanOn(s, j, d)
  }

  /** A normal run from a sound state ends in a sound one, in which DONE can be trusted. */
  lemma SoundRun(s0: State, ts: seq<Step>, s: State)
    requires NormalRuns(s0, ts, s) && Gang.Inv(s0)
    ensures Gang.Inv(s) && DoneJobsRan(s)
  {
    GangSteps.RunKeeps(s0, ts, s);
    forall j, d | 0 <= j < |s.jobs| && 0 <= d < MAX_CORES && s.jobs[j].done && HasCore(s.specs[j].mask, d)
      ensures RanOn(s, j, d)
    {
      Coverage.DoneRan(s, j, d);
    }
  }

  lemma AfterSchedule(s: State, spec: JobSpec)
    requires Shape(s) && ValidSpec(s.cfg, spec)
    ensures var s' := Scheduled(s, spec);
            && Shape(s') && s'.specs == s.specs + [spec] && |s'.jobs| == |s.jobs| + 1
            && (forall c :: 0 <= c < MAX_CORES ==> s'.cores[c].nextCalls == s.cores[c].nextCalls)
            && (forall c :: 0 <= c < MAX_CORES ==>
                  !s'.jobs[|s.jobs|].parts[c].dec && !s'.jobs[|s.jobs|].parts[c].commit)
            && (CoresIdle(s, spec.mask) ==>
                  forall c :: 0 <= c < MAX_CORES && HasCore(spec.mask, c) ==>
                    StartedOn(s.cfg, spec, s.cores[c], s'.cores[c], |s.jobs|, c))
  {
    ScheduleOwesNothing(s, spec, 0);
    ScheduleOwesNothing(s, spec, 1);
    ScheduleOwesNothing(s, spec, 2);
    if CoresIdle(s, spec.mask) {
      forall c | 0 <= c < MAX_CORES && HasCore(spec.mask, c)
        ensures StartedOn(s.cfg, spec, s.cores[c], Scheduled(s, spec).cores[c], |s.jobs|, c)
      {
        ScheduleStarts(s, spec, c);
      }
    }
  }

  /** What the calls in front of the enqueue section answer: job allocation, the incoming and outgoing
      fence (negative or non-zero on failure; zero if none was asked for), and the domain get. */
  datatype Answers = Answers(alloc: bool, fenceIn: int, fenceOut: int, domainRet: int)

  /** `k` is the lowest index at which the first `n` loads are smallest. */
  predicate LowestMin(loads: seq<int>, n: nat, k: nat)
    requires n <= |loads|
  {
    && k < n
    && (forall i :: 0 <= i < n ==> loads[k] <= loads[i])
    && (forall i :: 0 <= i < k ==> loads[k] < loads[i])
  }

  function TaskNums(s: State): (loads: seq<int>)
    requires Shape(s)
    ensures |loads| == MAX_CORES
  {
    [s.cores[0].taskNum, s.cores[1].taskNum, s.cores[2].taskNum]
  }

  /** rknpu_job_schedule on an AUTO mask: the chosen core's mask. */
  function Resolve(spec: JobSpec, k: nat): JobSpec {
    if spec.mask == 0 then spec.(mask := CoreMask(k)) else spec
  }

  /** The abort loop after its first `n` iterations. */
  ghost function AbortPrefix(s: State, j: JobId, n: nat): State
    requires Shape(s) && j < |s.jobs|
  {
    s.(cores := seq(MAX_CORES, c requires 0 <= c < MAX_CORES =>
         if c < n && AbortFrees(s, j, c) then FreeSlot(s, j, c, s.cores[c]) else s.cores[c]),
       jobs := s.jobs[j := s.jobs[j].(parts := seq(MAX_CORES, c requires 0 <= c < MAX_CORES =>
         if c < n && AbortFrees(s, j, c) then s.jobs[j].parts[c].(place := Gone) else s.jobs[j].parts[c]))])
  }

  lemma AbortPrefixEnds(s: State, j: JobId)
    requires Shape(s) && j < |s.jobs|
    ensures AbortPrefix(s, j, 0) == s
    ensures AbortPrefix(s, j, s.cfg.numIrqs) == DoAbort(s, j)
    ensures Shape(DoAbort(s, j))
  {
    var s0, s1, goal := AbortPrefix(s, j, 0), AbortPrefix(s, j, s.cfg.numIrqs), DoAbort(s, j);
    assert s0.jobs[j].parts == s.jobs[j].parts && s0.cores == s.cores;
    assert s0.jobs == s.jobs;
    forall c | 0 <= c < MAX_CORES && AbortFrees(s, j, c) ensures c < s.cfg.numIrqs {
      CoresOfMask(s.cfg, s.specs[j].mask, c);
    }
    assert s1.cores == goal.cores && s1.jobs[j].parts == goal.jobs[j].parts;
    AbortShape(s, j);
  }

  lemma AbortPrefixStep(s: State, j: JobId, n: nat)
    requires Shape(s) && j < |s.jobs| && n < MAX_CORES && Shape(AbortPrefix(s, j, n))
    ensures Shape(AbortPrefix(s, j, n + 1))
    ensures var now := AbortPrefix(s, j, n);
            && now.cores[n] == s.cores[n] && now.jobs[j].parts[n] == s.jobs[j].parts[n]
            && AbortPrefix(s, j, n + 1) ==
               if AbortFrees(s, j, n) then
                 SetPart(SetCore(now, n, FreeSlot(now, j, n, now.cores[n])), j, n, now.jobs[j].parts[n].(place := Gone))
               else now
  {
    var now, next := AbortPrefix(s, j, n), AbortPrefix(s, j, n + 1);
    assert CoreShape(now.cores[n], |now.jobs|);
    if AbortFrees(s, j, n) {
      var gone := now.jobs[j].parts[n].(place := Gone);
      var after := SetPart(SetCore(now, n, FreeSlot(now, j, n, now.cores[n])), j, n, gone);
      assert next.cores == after.cores && next.jobs[j].parts == after.jobs[j].parts;
      assert next.jobs == after.jobs;
      UpdateShape(now, n, FreeSlot(now, j, n, now.cores[n]), j, after.jobs[j]);
    } else {
      assert next.cores == now.cores && next.jobs[j].parts == now.jobs[j].parts;
    }
  }

  class RknpuDevice {
    const cfg: Config
    var specs: seq<JobSpec>
    var jobs: seq<Job>
    var cores: seq<Core>
    var accepted: nat

    ghost function Abs(): State
      reads this
    {
      State(cfg, specs, jobs, cores, accepted)
    }

    ghost predicate Valid()
      reads this
    {
      Shape(Abs())
    }

    constructor (cfg: Config)
      requires ValidConfig(cfg)
      ensures Valid() && Abs() == Init(cfg)
    {
      this.cfg := cfg;
      specs, jobs, accepted := [], [], 0;
      cores := [EmptyCore, EmptyCore, EmptyCore];
    }

    /** rknpu_schedule_core_index. */
    method ScheduleCoreIndex() returns (k: nat)
      requires Valid()
      ensures LowestMin(TaskNums(Abs()), cfg.numIrqs, k)
      ensures k < cfg.numIrqs && forall d :: 0 <= d < cfg.numIrqs ==> cores[k].taskNum <= cores[d].taskNum
      ensures forall d :: 0 <= d < k ==> cores[k].taskNum < cores[d].taskNum
    {
      k := 0;
      var least := cores[0].taskNum;
      var i := 1;
      while i < cfg.numIrqs
        invariant 1 <= i <= cfg.numIrqs
        invariant k < i && least == cores[k].taskNum
        invariant forall d :: 0 <= d < i ==> least <= cores[d].taskNum
        invariant forall d :: 0 <= d < k ==> least < cores[d].taskNum
      {
        if least > cores[i].taskNum {
          k := i;
          least := cores[i].taskNum;
        }
        i := i + 1;
      }
      assert forall d :: 0 <= d < MAX_CORES ==> TaskNums(Abs())[d] == cores[d].taskNum;
    }

    /** The first half of rknpu_job_schedule: an AUTO mask (zero) becomes the mask of one core.  What
        other threads do before the second half is up to them; see module Balance. */
    method ResolveMask(spec: JobSpec) returns (resolved: JobSpec)
      requires Valid()
      ensures spec.mask != 0 ==> resolved == spec
      ensures spec.mask == 0 ==>
                exists k :: LowestMin(TaskNums(Abs()), cfg.numIrqs, k) && resolved == spec.(mask := CoreMask(k))
      ensures spec.mask == 0 ==> resolved.mask in {1, 2, 4}
    {
      var k := ScheduleCoreIndex();
      resolved := Resolve(spec, k);
    }

    /** The second half of rknpu_job_schedule: a failed domain get leaves everything alone; otherwise the
        job is enqueued and every one of its cores gets its rknpu_job_next call, all in a normal run.  On
        return nothing is owed, and a job whose cores were idle has been started on all of them. */
    method Schedule(spec: JobSpec, domainRet: int) returns (ret: int, ghost ts: seq<Step>)
      requires Valid() && ValidSpec(cfg, spec)
      modifies this
      ensures Valid() && NormalRuns(old(Abs()), ts, Abs())
      ensures ret == 0 <==> domainRet == 0
      ensures ret != 0 ==> ret == -EINVAL && Abs() == old(Abs())
      ensures ret == 0 ==> ts != [] && ts[0] == Submit(spec) && Abs() == Scheduled(old(Abs()), spec)
      ensures ret == 0 ==> specs == old(specs) + [spec] && |jobs| == old(|jobs|) + 1
      ensures forall c :: 0 <= c < MAX_CORES ==> cores[c].nextCalls == old(cores)[c].nextCalls
      ensures ret == 0 ==>
                forall c :: 0 <= c < MAX_CORES ==> !jobs[old(|jobs|)].parts[c].dec && !jobs[old(|jobs|)].parts[c].commit
      ensures ret == 0 && CoresIdle(old(Abs()), spec.mask) ==>
                forall c :: 0 <= c < MAX_CORES && HasCore(spec.mask, c) ==>
                  StartedOn(cfg, spec, old(cores)[c], cores[c], old(|jobs|), c)
      ensures Gang.Inv(old(Abs())) ==> Gang.Inv(Abs())
    {
      ghost var was := Abs();
      if domainRet != 0 {
        RunNil(true, was, was);
        return -EINVAL, [];
      }
      RunOne(true, was, Submit(spec));
      ts := [Submit(spec)];
      Enqueue(spec);
      ghost var more := CallCores(spec.mask, was, spec);
      RunsConcat(true, was, ts, DoSubmit(was, spec), more, Abs());
      ts := ts + more;
      ret := 0;
      AfterSchedule(was, spec);
      if Gang.Inv(was) { SoundRun(was, ts, Abs()); }
    }

    /** The loop at the end of rknpu_job_schedule. */
    method CallCores(mask: nat, ghost was: State, ghost spec: JobSpec) returns (ghost ts: seq<Step>)
      requires Valid() && Shape(was) && ValidSpec(was.cfg, spec) && was.cfg == cfg && mask == spec.mask
      requires Abs() == DoSubmit(was, spec)
      modifies this
      ensures Valid() && NormalRuns(old(Abs()), ts, Abs()) && Abs() == Scheduled(was, spec)
    {
      SubmitOwes(was, spec);
      ghost var s0, has := Abs(), CoresOf(mask);
      RunNil(true, s0, s0);
      ts := [];
      var i := 0;
      while i < cfg.numIrqs
        invariant 0 <= i <= cfg.numIrqs
        invariant Valid() && Abs() == Nexts(s0, has, i) && NormalRuns(s0, ts, Abs())
      {
        if HasCore(mask, i) {
          CallPaid(Abs(), has, i);
          ghost var mid := Abs();
          ghost var more := JobNext(i);
          RunsConcat(true, s0, ts, mid, more, Abs());
          ts := ts + more;
        }
        i := i + 1;
      }
    }

    /** rknpu_submit of a non-blocking request: it is refused, with nothing changed, exactly if it has no
        tasks or a mask beyond the SoC's, or if an allocation, a fence or the domain get fails; otherwise
        it is scheduled with its AUTO mask resolved. */
    method SubmitJob(spec: JobSpec, a: Answers) returns (code: int, ghost ts: seq<Step>)
      requires Valid() && |spec.subcore| == 5
      modifies this
      ensures Valid() && NormalRuns(old(Abs()), ts, Abs())
      ensures code == 0 <==>
              && spec.whole.number != 0 && spec.mask <= cfg.coreMask
              && a.alloc && a.fenceIn >= 0 && a.fenceOut == 0 && a.domainRet == 0
      ensures code != 0 ==> Abs() == old(Abs())
      ensures spec.whole.number == 0 || spec.mask > cfg.coreMask ==> code == -EINVAL
      ensures spec.whole.number != 0 && spec.mask <= cfg.coreMask ==>
                && (!a.alloc ==> code == -ENOMEM)
                && (a.alloc && a.fenceIn < 0 ==> code == a.fenceIn)
                && (a.alloc && a.fenceIn >= 0 && a.fenceOut != 0 ==> code == a.fenceOut)
                && (a.alloc && a.fenceIn >= 0 && a.fenceOut == 0 && a.domainRet != 0 ==> code == -EINVAL)
      ensures forall c :: 0 <= c < MAX_CORES ==> cores[c].nextCalls == old(cores)[c].nextCalls
      ensures code == 0 ==> |specs| == old(|specs|) + 1 && |jobs| == old(|jobs|) + 1 && old(specs) < specs
      ensures code == 0 && spec.mask != 0 ==> specs[old(|specs|)] == spec
      ensures code == 0 && spec.mask == 0 ==>
                exists k :: LowestMin(TaskNums(old(Abs())), cfg.numIrqs, k) &&
                            specs[old(|specs|)] == spec.(mask := CoreMask(k))
      ensures code == 0 && CoresIdle(old(Abs()), specs[old(|specs|)].mask) ==>
                forall c :: 0 <= c < MAX_CORES && HasCore(specs[old(|specs|)].mask, c) ==>
                  StartedOn(cfg, specs[old(|specs|)], old(cores)[c], cores[c], old(|jobs|), c)
      ensures Gang.Inv(old(Abs())) ==> Gang.Inv(Abs())
    {
      RunNil(true, Abs(), Abs());
      ts := [];
      if spec.whole.number == 0 { return -EINVAL, []; }
      if spec.mask > cfg.coreMask { return -EINVAL, []; }
      if !a.alloc { return -ENOMEM, []; }
      if a.fenceIn < 0 { return a.fenceIn, []; }
      if a.fenceOut != 0 { return a.fenceOut, []; }
      var resolved := ResolveMask(spec);
      code, ts := Schedule(resolved, a.domainRet);
    }

    /** The enqueue critical section of rknpu_job_schedule. */
    method Enqueue(spec: JobSpec)
      requires Valid() && ValidSpec(cfg, spec)
      modifies this
      ensures Valid() && Abs() == DoSubmit(old(Abs()), spec)
    {
      ghost var was := Abs();
      var j := |jobs|;
      specs, jobs := specs + [spec], jobs + [NewJob(spec)];
      var i := 0;
      while i < cfg.numIrqs
        invariant 0 <= i <= cfg.numIrqs
        invariant |cores| == MAX_CORES && j == |was.jobs|
        invariant specs == was.specs + [spec] && jobs == was.jobs + [NewJob(spec)] && accepted == was.accepted
        invariant forall d :: 0 <= d < i ==> cores[d] == EnqueueOn(cfg, spec, j, d, was.cores[d])
        invariant forall d :: i <= d < MAX_CORES ==> cores[d] == was.cores[d]
      {
        if HasCore(spec.mask, i) {
          cores := cores[i := cores[i].(todo := cores[i].todo + [j])];
          cores := cores[i := cores[i].(taskNum := cores[i].taskNum + CoreRange(cfg, spec, i).number)];
          cores := cores[i := cores[i].(nextCalls := cores[i].nextCalls + 1)];
        }
        i := i + 1;
      }
      forall d | 0 <= d < MAX_CORES ensures cores[d] == EnqueueOn(cfg, spec, j, d, was.cores[d]) {
        if HasCore(spec.mask, d) { CoresOfMask(cfg, spec.mask, d); }
      }
      assert Abs() == DoSubmit(was, spec);
      SubmitShape(was, spec);
    }

    /** The critical section of rknpu_job_next. */
    method Pop(c: nat) returns (popped: Option<JobId>)
      requires Valid() && Enabled(Abs(), NextCall(c))
      modifies this
      ensures Valid() && Abs() == Apply(old(Abs()), NextCall(c))
      ensures popped == if old(cores[c].slot.Some? || cores[c].todo == []) then None else Some(old(cores[c].todo[0]))
      ensures popped.Some? ==> popped.value < |jobs| && jobs[popped.value].parts[c].dec
    {
      NextShape(Abs(), c);
      assert CoreShape(cores[c], |jobs|);
      cores := cores[c := cores[c].(nextCalls := cores[c].nextCalls - 1)];
      if cores[c].slot.Some? || cores[c].todo == [] {
        return None;
      }
      var j := cores[c].todo[0];
      cores := cores[c := cores[c].(todo := cores[c].todo[1..])];
      cores := cores[c := cores[c].(slot := Some(j))];
      SetPartAt(j, c, jobs[j].parts[c].(place := InSlot, dec := true));
      popped := Some(j);
    }

    method SetPartAt(j: JobId, c: nat, p: Part)
      requires j < |jobs| && c < |jobs[j].parts|
      modifies this`jobs
      ensures jobs == old(jobs)[j := old(jobs[j]).(parts := old(jobs[j]).parts[c := p])]
    {
      jobs := jobs[j := jobs[j].(parts := jobs[j].parts[c := p])];
    }

    /** atomic_dec_and_test of run_count; raises the commit calls when it reports zero. */
    method DecRun(j: JobId, c: nat) returns (last: bool)
      requires Valid() && Enabled(Abs(), Step.DecRun(j, c))
      modifies this
      ensures Valid() && Abs() == Apply(old(Abs()), Step.DecRun(j, c))
      ensures last <==> jobs[j].runCount == 0
      ensures last ==> forall d :: 0 <= d < MAX_CORES && Commits(specs[j].mask, d) ==> jobs[j].parts[d].commit
    {
      ghost var was := Abs();
      DecRunShape(was, j, c);
      SetPartAt(j, c, jobs[j].parts[c].(dec := false));
      jobs := jobs[j := jobs[j].(runCount := jobs[j].runCount - 1)];
      last := jobs[j].runCount == 0;
      if last {
        ghost var mid := jobs[j].parts;
        var d := 0;
        while d < MAX_CORES
          invariant 0 <= d <= MAX_CORES
          invariant specs == was.specs && cores == was.cores && accepted == was.accepted
          invariant |jobs| == |was.jobs| && jobs == was.jobs[j := jobs[j]]
          invariant |mid| == MAX_CORES && mid == was.jobs[j].parts[c := was.jobs[j].parts[c].(dec := false)]
          invariant |jobs[j].parts| == MAX_CORES
          invariant jobs[j] == was.jobs[j].(runCount := was.jobs[j].runCount - 1, parts := jobs[j].parts)
          invariant forall e :: 0 <= e < d ==> jobs[j].parts[e] == Launch(specs[j].mask, mid)[e]
          invariant forall e :: d <= e < MAX_CORES ==> jobs[j].parts[e] == mid[e]
        {
          if Commits(specs[j].mask, d) {
            SetPartAt(j, d, jobs[j].parts[d].(commit := true));
          }
          d := d + 1;
        }
        assert jobs[j].parts == Launch(specs[j].mask, mid);
      }
    }

    /** rknpu_job_subcore_commit on behalf of rknpu_job_commit. */
    method Commit(j: JobId, c: nat)
      requires Valid() && Enabled(Abs(), Step.Commit(j, c))
      modifies this
      ensures Valid() && Abs() == Apply(old(Abs()), Step.Commit(j, c))
    {
      ApplyShape(Abs(), Step.Commit(j, c));
      ProgramCore(j, c);
      SetPartAt(j, c, jobs[j].parts[c].(commit := false));
    }

    method ProgramCore(j: JobId, c: nat)
      requires Valid() && j < |jobs| && c < MAX_CORES
      modifies this`cores
      ensures cores == old(cores)[c := Program(old(Abs()), j, c, old(cores[c]))]
    {
      if specs[j].pc && specs[j].taskObj {
        var chunk := ChunkAt(CoreRange(cfg, specs[j], c), cfg.maxSubmit, jobs[j].parts[c].submitCount);
        cores := cores[c := cores[c].(log := cores[c].log + [Prog(j, chunk)])];
        cores := cores[c := cores[c].(armed := Some(j))];
      }
    }

    /** rknpu_job_next without interference: pop, decrement, and when the gang is complete the commit
        calls in core order.  On return no decrement, commit or next call of its own is owed. */
    method JobNext(c: nat) returns (ghost ts: seq<Step>)
      requires Valid() && Enabled(Abs(), NextCall(c))
      modifies this
      ensures Valid() && NormalRuns(old(Abs()), ts, Abs()) && ts != [] && ts[0] == NextCall(c)
      ensures Abs() == NextCalled(old(Abs()), c) && OwesNoMore(old(Abs()), Abs())
      ensures old(cores[c].slot.None? && cores[c].todo != []) ==> cores[c].slot == Some(old(cores[c].todo[0]))
      ensures forall e :: 0 <= e < MAX_CORES ==> CallsMade(old(cores)[e], cores[e], e == c)
    {
      ghost var was := Abs();
      ts := NextRuns(was, c);
      var popped := Pop(c);
      if popped.Some? {
        var j := popped.value;
        var last := DecRun(j, c);
        if last {
          CommitAll(j);
        }
      }
      assert Abs() == NextCalled(was, c);
      NextCalledOwes(was, c);
      NextCalledCore(was, c, c);
      forall e | 0 <= e < MAX_CORES ensures CallsMade(was.cores[e], cores[e], e == c) {
        CallMade(was, c, e);
      }
    }

    /** rknpu_job_commit: the commit calls of a complete gang, in core order. */
    method CommitAll(j: JobId)
      requires Valid() && j < |jobs|
      requires forall e :: 0 <= e < MAX_CORES && Commits(specs[j].mask, e) ==> jobs[j].parts[e].commit
      modifies this
      ensures Valid() && Abs() == Launched(old(Abs()), j, MAX_CORES)
    {
      ghost var s0 := Abs();
      LaunchedNone(s0, j);
      var d := 0;
      while d < MAX_CORES
        invariant 0 <= d <= MAX_CORES
        invariant Valid() && j < |jobs| && Abs() == Launched(s0, j, d)
      {
        LaunchedStep(s0, j, d);
        if Commits(specs[j].mask, d) {
          Commit(j, d);
        }
        d := d + 1;
      }
    }

    // ---------- interrupts ----------

    /** The first critical section of rknpu_irq_handler. */
    method IrqEntry(c: nat) returns (job: Option<JobId>)
      requires Valid() && Enabled(Abs(), IrqEnter(c))
      modifies this
      ensures Valid() && Abs() == Apply(old(Abs()), IrqEnter(c)) && job == old(cores[c].slot)
    {
      IrqEnterShape(Abs(), c);
      assert CoreShape(cores[c], |jobs|);
      job := cores[c].slot;
      if job.None? {
        cores := cores[c := cores[c].(nextCalls := cores[c].nextCalls + 1)];
      } else {
        cores := cores[c := cores[c].(irq := Entered(job.value))];
        SetPartAt(job.value, c, jobs[job.value].parts[c].(irqEntry := true));
      }
    }

    method CompareStatus(c: nat, matched: bool)
      requires Valid() && Enabled(Abs(), IrqStatus(c, matched))
      modifies this
      ensures Valid() && Abs() == Apply(old(Abs()), IrqStatus(c, matched))
    {
      ApplyShape(Abs(), IrqStatus(c, matched));
      if matched {
        cores := cores[c := cores[c].(irq := Accepted(cores[c].irq.job), armed := None)];
        accepted := accepted + 1;
      } else {
        cores := cores[c := cores[c].(irq := Idle)];
      }
    }

    /** The submit_count test at the head of rknpu_job_done. */
    method CountSubmit(c: nat) returns (more: bool)
      requires Valid() && Enabled(Abs(), DoneInc(c))
      modifies this
      ensures Valid() && Abs() == Apply(old(Abs()), DoneInc(c))
      ensures if more then cores[c].irq.Again? else cores[c].irq.Last?
    {
      HandlerShape(Abs(), DoneInc(c));
      assert CoreShape(cores[c], |jobs|);
      var j := cores[c].irq.job;
      SetPartAt(j, c, jobs[j].parts[c].(submitCount := jobs[j].parts[c].submitCount + 1));
      more := jobs[j].parts[c].submitCount < CeilDiv(CoreRange(cfg, specs[j], c).number, cfg.maxSubmit);
      cores := cores[c := cores[c].(irq := if more then Again(j) else Last(j))];
    }

    method NextChunk(c: nat)
      requires Valid() && Enabled(Abs(), Recommit(c))
      modifies this
      ensures Valid() && Abs() == Apply(old(Abs()), Recommit(c))
    {
      ApplyShape(Abs(), Recommit(c));
      assert CoreShape(cores[c], |jobs|);
      ProgramCore(cores[c].irq.job, c);
      cores := cores[c := cores[c].(irq := Idle)];
    }

    /** The release section of rknpu_job_done. */
    method ReleaseCore(c: nat)
      requires Valid() && Enabled(Abs(), Release(c))
      modifies this
      ensures Valid() && Abs() == Apply(old(Abs()), Release(c))
    {
      HandlerShape(Abs(), Release(c));
      assert CoreShape(cores[c], |jobs|);
      var j := cores[c].irq.job;
      GiveUp(j, c);
      cores := cores[c := cores[c].(irq := Freed(j))];
    }

    method GiveUp(j: JobId, c: nat)
      requires Valid() && j < |jobs| && c < MAX_CORES
      modifies this
      ensures cores == old(cores)[c := FreeSlot(old(Abs()), j, c, old(cores[c]))]
      ensures var job := old(jobs[j]);
              jobs == old(jobs)[j := job.(parts := job.parts[c := job.parts[c].(place := Gone)])]
      ensures specs == old(specs) && accepted == old(accepted)
    {
      cores := cores[c := cores[c].(slot := None)];
      cores := cores[c := cores[c].(taskNum := cores[c].taskNum - CoreRange(cfg, specs[j], c).number)];
      cores := cores[c := cores[c].(released := cores[c].released + [j])];
      SetPartAt(j, c, jobs[j].parts[c].(place := Gone));
    }

    /** atomic_dec_and_test of interrupt_count. */
    method CountInterrupt(c: nat) returns (last: bool)
      requires Valid() && Enabled(Abs(), CountDown(c))
      modifies this
      ensures Valid() && Abs() == Apply(old(Abs()), CountDown(c))
      ensures if last then cores[c].irq.Final? else cores[c].irq == Idle && cores[c].nextCalls > 0
    {
      HandlerShape(Abs(), CountDown(c));
      assert CoreShape(cores[c], |jobs|);
      var j := cores[c].irq.job;
      SetPartAt(j, c, jobs[j].parts[c].(counted := true));
      jobs := jobs[j := jobs[j].(interruptCount := jobs[j].interruptCount - 1)];
      last := jobs[j].interruptCount == 0;
      if last {
        cores := cores[c := cores[c].(irq := Final(j))];
      } else {
        cores := cores[c := cores[c].(irq := Idle, nextCalls := cores[c].nextCalls + 1)];
      }
    }

    /** The completion block of rknpu_job_done. */
    method CompleteJob(c: nat)
      requires Valid() && Enabled(Abs(), Complete(c))
      modifies this
      ensures Valid() && Abs() == Apply(old(Abs()), Complete(c)) && cores[c].nextCalls > 0
    {
      HandlerShape(Abs(), Complete(c));
      assert CoreShape(cores[c], |jobs|);
      var j := cores[c].irq.job;
      jobs := jobs[j := jobs[j].(puts := jobs[j].puts + 1)];
      jobs := jobs[j := jobs[j].(done := true)];
      jobs := jobs[j := jobs[j].(signals := jobs[j].signals + 1)];
      cores := cores[c := cores[c].(irq := Idle, nextCalls := cores[c].nextCalls + 1)];
    }

    /** rknpu_job_done without interference: it programs the next chunk, or releases the core, completes
        the job if this was the last core, and fetches the next job.  On return the handler is idle and
        nothing is owed. */
    method JobDone(c: nat) returns (ghost ts: seq<Step>)
      requires Valid() && Enabled(Abs(), DoneInc(c))
      modifies this
      ensures Valid() && NormalRuns(old(Abs()), ts, Abs()) && |ts| >= 2 && ts[0] == DoneInc(c)
      ensures ts == [DoneInc(c), Recommit(c)] || (ts[1] == Release(c) && NextCall(c) in ts)
      ensures Abs() == DoneCalled(old(Abs()), c) && NothingOwed(old(Abs()), Abs(), c)
    {
      ghost var was := Abs();
      DoneCalledOwes(was, c);
      ts := DoneRuns(was, c);
      var more := CountSubmit(c);
      ghost var s1 := DoDoneInc(was, c);
      assert Abs() == s1;
      if more {
        NextChunk(c);
        assert Abs() == DoRecommit(s1, c);
      } else {
        FinishCore(c);
        ghost var _ := JobNext(c);
        assert Abs() == NextCalled(CoreFinished(s1, c), c);
      }
    }

    /** The tail of rknpu_job_done after the last chunk; it leaves one rknpu_job_next call to make. */
    method FinishCore(c: nat)
      requires Valid() && Enabled(Abs(), Release(c))
      modifies this
      ensures Valid() && Abs() == CoreFinished(old(Abs()), c) && OneCallOwed(old(Abs()), Abs(), c)
    {
      ghost var was := Abs();
      CoreFinishedOwes(was, c);
      ReleaseCore(c);
      var last := CountInterrupt(c);
      assert Abs() == DoCountDown(DoRelease(was, c), c);
      if last {
        CompleteJob(c);
      }
    }

    /** rknpu_irq_handler without interference, for any status.  On return the handler is idle and nothing
        is owed.  If the status matches only a job whose chunk is programmed, the whole call is a normal
        run: it keeps the gang invariant, and every job marked DONE afterwards has run its whole range. */
    method IrqHandler(c: nat, matched: bool) returns (ghost ts: seq<Step>)
      requires Valid() && Enabled(Abs(), IrqEnter(c))
      modifies this
      ensures Valid() && Runs(old(Abs()), ts, Abs()) && |ts| >= 2 && ts[0] == IrqEnter(c)
      ensures old(cores[c].slot.None?) ==> ts[1] == NextCall(c)
      ensures old(cores[c].slot.Some?) ==> ts[1] == IrqStatus(c, matched)
      ensures old(cores[c].slot.Some?) && matched ==> |ts| > 2 && ts[2] == DoneInc(c)
      ensures NothingOwed(old(Abs()), Abs(), c)
      ensures old(matched ==> cores[c].armed == cores[c].slot) ==> NormalRuns(old(Abs()), ts, Abs())
      ensures old((matched ==> cores[c].armed == cores[c].slot) && Gang.Inv(Abs())) ==>
                Gang.Inv(Abs()) && DoneJobsRan(Abs())
    {
      ghost var was := Abs();
      ghost var normal := matched ==> cores[c].armed == cores[c].slot;
      RunOne(normal, was, IrqEnter(c));
      ts := [IrqEnter(c)];
      var job := IrqEntry(c);
      ghost var mid, more := Abs(), [];
      if job.None? {
        more := JobNext(c);
        NormalIsRun(normal, mid, more, Abs());
        EmptyEnterOwes(was, c);
      } else {
        more := AnswerStatus(c, matched, normal);
        JobEnterOwes(was, c, Abs());
      }
      RunsConcat(normal, was, ts, mid, more, Abs());
      ts := ts + more;
      if normal {
        NormalIsRun(false, was, ts, Abs());
        if Gang.Inv(was) { SoundRun(was, ts, Abs()); }
      }
    }

    /** The handler after its first critical section, with a job in the slot. */
    method AnswerStatus(c: nat, matched: bool, ghost normal: bool) returns (ghost ts: seq<Step>)
      requires Valid() && Enabled(Abs(), IrqStatus(c, matched)) && (normal ==> Normal(Abs(), IrqStatus(c, matched)))
      modifies this
      ensures Valid() && RunsAs(normal, old(Abs()), ts, Abs())
      ensures ts != [] && ts[0] == IrqStatus(c, matched) && (matched ==> |ts| > 1 && ts[1] == DoneInc(c))
      ensures NothingOwed(old(Abs()), Abs(), c)
    {
      ghost var was := Abs();
      HandlerLeaves(was, IrqStatus(c, matched));
      RunOne(normal, was, IrqStatus(c, matched));
      ts := [IrqStatus(c, matched)];
      CompareStatus(c, matched);
      if matched {
        ghost var mid := Abs();
        ghost var tail := JobDone(c);
        NormalIsRun(normal, mid, tail, Abs());
        RunsConcat(normal, was, ts, mid, tail, Abs());
        OwedTrans(was, mid, Abs(), c);
        ts := ts + tail;
      }
    }

    // ---------- abort ----------

    /** The critical section of rknpu_job_abort. */
    method AbortJob(j: JobId)
      requires Valid() && j < |jobs|
      modifies this
      ensures Valid() && Abs() == Apply(old(Abs()), Abort(j))
    {
      ghost var was := Abs();
      AbortPrefixEnds(was, j);
      var i := 0;
      while i < cfg.numIrqs
        invariant 0 <= i <= cfg.numIrqs
        invariant Shape(was) && j < |was.jobs| && Shape(AbortPrefix(was, j, i)) && Abs() == AbortPrefix(was, j, i)
      {
        AbortPrefixStep(was, j, i);
        if HasCore(specs[j].mask, i) && cores[i].slot == Some(j) && !jobs[j].parts[i].irqEntry {
          GiveUp(j, i);
        }
        i := i + 1;
      }
    }
  }
}
