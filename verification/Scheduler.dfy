/** The gang scheduler as a step machine.  A state holds the driver's own fields (queues, slots,
    load counters, per-job counters), the calls still outstanding, and what the hardware was
    told.  Each step is one critical section or one atomic operation of the source, so a run
    is an arbitrary interleaving of submitters, interrupt handlers and aborts. */
module Scheduler {
  import opened Npu

  type JobId = nat

  /** Where the interrupt handler of a core stands. */
  datatype IrqPc =
    | Idle
    | Entered(job: JobId)    // slot read, irq_entry set, status not yet compared
    | Accepted(job: JobId)   // status matched, submit_count not yet incremented
    | Again(job: JobId)      // more chunks: about to program the next one
    | Last(job: JobId)       // last chunk: about to take irq_lock and release the core
    | Freed(job: JobId)      // core released, interrupt_count not yet decremented
    | Final(job: JobId)      // interrupt_count reached zero: about to complete the job

  /** One programming of a core's PC unit. */
  datatype Prog = Prog(job: JobId, chunk: Chunk)

  /** struct rknpu_subcore_data, the core's handler, its hardware and two histories. */
  datatype Core = Core(
    todo: seq<JobId>,
    slot: Option<JobId>,
    taskNum: int,
    irq: IrqPc,
    armed: Option<JobId>,    // job whose chunk is programmed and has not been answered
    nextCalls: nat,          // rknpu_job_next calls outstanding for this core
    released: seq<JobId>,    // history: jobs that left the slot, in order
    log: seq<Prog>)          // history: everything programmed on this core

  /** Where a job is with respect to one core. */
  datatype Place = Outside | Queued | InSlot | Gone

  /** One core's share of a job. */
  datatype Part = Part(
    submitCount: nat,
    irqEntry: bool,
    place: Place,
    dec: bool,               // popped, decrement of run_count outstanding
    commit: bool,            // rknpu_job_subcore_commit call outstanding
    counted: bool)           // interrupt_count decremented on behalf of this core

  datatype Job = Job(
    runCount: int,
    interruptCount: int,
    parts: seq<Part>,
    done: bool,              // RKNPU_JOB_DONE
    puts: nat,               // rknpu_iommu_domain_put calls of the completion block
    signals: nat)            // dma_fence_signal calls of the completion block

  datatype State = State(
    cfg: Config,
    specs: seq<JobSpec>,     // in the order of their enqueue critical sections
    jobs: seq<Job>,
    cores: seq<Core>,
    accepted: nat)           // history: interrupts accepted so far

  datatype Step =
    | Submit(spec: JobSpec)
    | NextCall(c: nat)
    | DecRun(j: JobId, c: nat)
    | Commit(j: JobId, c: nat)
    | IrqEnter(c: nat)
    | IrqStatus(c: nat, matched: bool)
    | DoneInc(c: nat)
    | Recommit(c: nat)
    | Release(c: nat)
    | CountDown(c: nat)
    | Complete(c: nat)
    | Abort(j: JobId)

  // ---------- shape ----------

  predicate IrqIs(irq: IrqPc, j: JobId) { irq != Idle && irq.job == j }

  predicate CoreShape(core: Core, n: nat) {
    && (forall i :: 0 <= i < |core.todo| ==> core.todo[i] < n)
    && (core.slot.Some? ==> core.slot.value < n)
    && (core.irq != Idle ==> core.irq.job < n)
    && (core.armed.Some? ==> core.armed.value < n)
  }

  /** Sizes and job numbers are in range; every step keeps this, whatever the hardware does. */
  predicate Shape(s: State) {
    && ValidConfig(s.cfg)
    && |s.cores| == MAX_CORES
    && |s.jobs| == |s.specs|
    && (forall j :: 0 <= j < |s.specs| ==> ValidSpec(s.cfg, s.specs[j]))
    && (forall j :: 0 <= j < |s.jobs| ==> |s.jobs[j].parts| == MAX_CORES)
    && (forall c :: 0 <= c < MAX_CORES ==> CoreShape(s.cores[c], |s.jobs|))
  }

  // ---------- updates ----------

  function SetCore(s: State, c: nat, core: Core): State
    requires c < |s.cores|
  {
    s.(cores := s.cores[c := core])
  }

  function SetJob(s: State, j: JobId, job: Job): State
    requires j < |s.jobs|
  {
    s.(jobs := s.jobs[j := job])
  }

  function SetPart(s: State, j: JobId, c: nat, p: Part): State
    requires j < |s.jobs| && c < |s.jobs[j].parts|
  {
    SetJob(s, j, s.jobs[j].(parts := s.jobs[j].parts[c := p]))
  }

  /** rknpu_get_task_number of an enqueued job on one of the cores. */
  function Weight(cfg: Config, specs: seq<JobSpec>, j: JobId, c: nat): nat
    requires j < |specs| && |specs[j].subcore| == 5 && c < MAX_CORES
  {
    CoreRange(cfg, specs[j], c).number
  }

  /** Interrupts job `j` needs on core `c`. */
  function Need(cfg: Config, specs: seq<JobSpec>, j: JobId, c: nat): nat
    requires j < |specs| && |specs[j].subcore| == 5 && c < MAX_CORES && cfg.maxSubmit >= 1
  {
    NumChunks(Weight(cfg, specs, j, c), cfg.maxSubmit)
  }

  // ---------- one function per step ----------

  const EmptyCore := Core([], None, 0, Idle, None, 0, [], [])

  function Init(cfg: Config): State {
    State(cfg, [], [], [EmptyCore, EmptyCore, EmptyCore], 0)
  }

  /** rknpu_job_alloc: fresh counters for a job that is about to be queued. */
  function NewJob(spec: JobSpec): Job {
    Job(UseCoreNum(spec.mask), UseCoreNum(spec.mask),
        seq(MAX_CORES, c requires 0 <= c =>
          Part(0, false, if HasCore(spec.mask, c) then Queued else Outside, false, false, false)),
        false, 0, 0)
  }

  /** One iteration of the enqueue loop. */
  function EnqueueOn(cfg: Config, spec: JobSpec, j: JobId, c: nat, core: Core): Core
    requires |spec.subcore| == 5 && c < MAX_CORES
  {
    if HasCore(spec.mask, c) then
      core.(todo := core.todo + [j],
            taskNum := core.taskNum + CoreRange(cfg, spec, c).number,
            nextCalls := core.nextCalls + 1)
    else core
  }

  /** The enqueue critical section of rknpu_job_schedule; the loop that follows it leaves one
      rknpu_job_next call outstanding per core of the job. */
  function DoSubmit(s: State, spec: JobSpec): State
    requires Shape(s) && ValidSpec(s.cfg, spec)
  {
    s.(specs := s.specs + [spec],
       jobs := s.jobs + [NewJob(spec)],
       cores := seq(MAX_CORES, c requires 0 <= c < MAX_CORES =>
         EnqueueOn(s.cfg, spec, |s.jobs|, c, s.cores[c])))
  }

  /** The critical section of rknpu_job_next. */
  function DoNext(s: State, c: nat): State
    requires Shape(s) && c < MAX_CORES && s.cores[c].nextCalls > 0
  {
    var core := s.cores[c].(nextCalls := s.cores[c].nextCalls - 1);
    if core.slot.Some? || core.todo == [] then SetCore(s, c, core)
    else
      var j := core.todo[0];
      SetPart(SetCore(s, c, core.(todo := core.todo[1..], slot := Some(j))),
              j, c, s.jobs[j].parts[c].(place := InSlot, dec := true))
  }

  /** Raise the commit calls the switch of rknpu_job_commit makes. */
  function Launch(mask: nat, parts: seq<Part>): seq<Part> {
    seq(|parts|, c requires 0 <= c < |parts| =>
      if Commits(mask, c) then parts[c].(commit := true) else parts[c])
  }

  /** atomic_dec_and_test(&job->run_count) after a pop. */
  function DoDecRun(s: State, j: JobId, c: nat): State
    requires Shape(s) && j < |s.jobs| && c < MAX_CORES
  {
    var job := s.jobs[j];
    var parts := job.parts[c := job.parts[c].(dec := false)];
    var count := job.runCount - 1;
    SetJob(s, j, job.(runCount := count, parts := if count == 0 then Launch(s.specs[j].mask, parts) else parts))
  }

  /** rknpu_job_subcore_commit: program the chunk submit_count selects, unless the job is not a
      PC job or has no task object. */
  function Program(s: State, j: JobId, c: nat, core: Core): Core
    requires Shape(s) && j < |s.jobs| && c < MAX_CORES
  {
    if !s.specs[j].pc || !s.specs[j].taskObj then core
    else
      var chunk := ChunkAt(CoreRange(s.cfg, s.specs[j], c), s.cfg.maxSubmit, s.jobs[j].parts[c].submitCount);
      core.(armed := Some(j), log := core.log + [Prog(j, chunk)])
  }

  function DoCommit(s: State, j: JobId, c: nat): State
    requires Shape(s) && j < |s.jobs| && c < MAX_CORES
  {
    SetPart(SetCore(s, c, Program(s, j, c, s.cores[c])), j, c, s.jobs[j].parts[c].(commit := false))
  }

  /** The first critical section of rknpu_irq_handler. */
  function DoIrqEnter(s: State, c: nat): State
    requires Shape(s) && c < MAX_CORES
  {
    var core := s.cores[c];
    if core.slot.None? then SetCore(s, c, core.(nextCalls := core.nextCalls + 1))
    else
      var j := core.slot.value;
      SetPart(SetCore(s, c, core.(irq := Entered(j))), j, c, s.jobs[j].parts[c].(irqEntry := true))
  }

  /** The status comparison of rknpu_irq_handler; a mismatch ends the handler. */
  function DoIrqStatus(s: State, c: nat, matched: bool): State
    requires Shape(s) && c < MAX_CORES && s.cores[c].irq.Entered?
  {
    var core := s.cores[c];
    if matched then
      SetCore(s, c, core.(irq := Accepted(core.irq.job), armed := None)).(accepted := s.accepted + 1)
    else SetCore(s, c, core.(irq := Idle))
  }

  /** atomic_inc_return(&job->submit_count[c]) and the comparison that follows it. */
  function DoDoneInc(s: State, c: nat): State
    requires Shape(s) && c < MAX_CORES && s.cores[c].irq.Accepted?
  {
    var core := s.cores[c];
    var j := core.irq.job;
    var p := s.jobs[j].parts[c];
    var count := p.submitCount + 1;
    var more := count < CeilDiv(Weight(s.cfg, s.specs, j, c), s.cfg.maxSubmit);
    SetPart(SetCore(s, c, core.(irq := if more then Again(j) else Last(j))), j, c, p.(submitCount := count))
  }

  function DoRecommit(s: State, c: nat): State
    requires Shape(s) && c < MAX_CORES && s.cores[c].irq.Again?
  {
    SetCore(s, c, Program(s, s.cores[c].irq.job, c, s.cores[c]).(irq := Idle))
  }

  /** A core gives up the job in its slot: what the release sections of rknpu_job_done and
      rknpu_job_abort share. */
  function FreeSlot(s: State, j: JobId, c: nat, core: Core): Core
    requires Shape(s) && j < |s.jobs| && c < MAX_CORES
  {
    core.(slot := None, taskNum := core.taskNum - Weight(s.cfg, s.specs, j, c), released := core.released + [j])
  }

  /** The critical section of rknpu_job_done. */
  function DoRelease(s: State, c: nat): State
    requires Shape(s) && c < MAX_CORES && s.cores[c].irq.Last?
  {
    var core := s.cores[c];
    var j := core.irq.job;
    SetPart(SetCore(s, c, FreeSlot(s, j, c, core).(irq := Freed(j))), j, c, s.jobs[j].parts[c].(place := Gone))
  }

  /** atomic_dec_and_test(&job->interrupt_count); unless it reaches zero the handler goes on
      with rknpu_job_next. */
  function DoCountDown(s: State, c: nat): State
    requires Shape(s) && c < MAX_CORES && s.cores[c].irq.Freed?
  {
    var core := s.cores[c];
    var j := core.irq.job;
    var job := s.jobs[j];
    var count := job.interruptCount - 1;
    var core' := if count == 0 then core.(irq := Final(j)) else core.(irq := Idle, nextCalls := core.nextCalls + 1);
    SetJob(SetCore(s, c, core'), j,
           job.(interruptCount := count, parts := job.parts[c := job.parts[c].(counted := true)]))
  }

  /** The completion block of rknpu_job_done: domain put, DONE, fence signal. */
  function DoComplete(s: State, c: nat): State
    requires Shape(s) && c < MAX_CORES && s.cores[c].irq.Final?
  {
    var core := s.cores[c];
    var j := core.irq.job;
    var job := s.jobs[j];
    SetJob(SetCore(s, c, core.(irq := Idle, nextCalls := core.nextCalls + 1)), j,
           job.(done := true, puts := job.puts + 1, signals := job.signals + 1))
  }

  /** The condition of the abort loop on core `c`. */
  predicate AbortFrees(s: State, j: JobId, c: nat)
    requires Shape(s) && j < |s.jobs| && c < MAX_CORES
  {
    HasCore(s.specs[j].mask, c) && s.cores[c].slot == Some(j) && !s.jobs[j].parts[c].irqEntry
  }

  /** The critical section of rknpu_job_abort. */
  function DoAbort(s: State, j: JobId): State
    requires Shape(s) && j < |s.jobs|
  {
    s.(cores := seq(MAX_CORES, c requires 0 <= c < MAX_CORES =>
         if AbortFrees(s, j, c) then FreeSlot(s, j, c, s.cores[c]) else s.cores[c]),
       jobs := s.jobs[j := s.jobs[j].(parts := seq(MAX_CORES, c requires 0 <= c < MAX_CORES =>
         if AbortFrees(s, j, c) then s.jobs[j].parts[c].(place := Gone) else s.jobs[j].parts[c]))])
  }

  // ---------- runs ----------

  /** A step may be taken; the hardware and the aborting threads are not restricted. */
  predicate Enabled(s: State, t: Step)
    requires Shape(s)
  {
    match t
    case Submit(spec) => ValidSpec(s.cfg, spec)
    case NextCall(c) => c < MAX_CORES && s.cores[c].nextCalls > 0
    case DecRun(j, c) => j < |s.jobs| && c < MAX_CORES && s.jobs[j].parts[c].dec
    case Commit(j, c) => j < |s.jobs| && c < MAX_CORES && s.jobs[j].parts[c].commit
    case IrqEnter(c) => c < MAX_CORES && s.cores[c].irq == Idle
    case IrqStatus(c, _) => c < MAX_CORES && s.cores[c].irq.Entered?
    case DoneInc(c) => c < MAX_CORES && s.cores[c].irq.Accepted?
    case Recommit(c) => c < MAX_CORES && s.cores[c].irq.Again?
    case Release(c) => c < MAX_CORES && s.cores[c].irq.Last?
    case CountDown(c) => c < MAX_CORES && s.cores[c].irq.Freed?
    case Complete(c) => c < MAX_CORES && s.cores[c].irq.Final?
    case Abort(j) => j < |s.jobs|
  }

  function Apply(s: State, t: Step): State
    requires Shape(s) && Enabled(s, t)
  {
    match t
    case Submit(spec) => DoSubmit(s, spec)
    case NextCall(c) => DoNext(s, c)
    case DecRun(j, c) => DoDecRun(s, j, c)
    case Commit(j, c) => DoCommit(s, j, c)
    case IrqEnter(c) => DoIrqEnter(s, c)
    case IrqStatus(c, matched) => DoIrqStatus(s, c, matched)
    case DoneInc(c) => DoDoneInc(s, c)
    case Recommit(c) => DoRecommit(s, c)
    case Release(c) => DoRelease(s, c)
    case CountDown(c) => DoCountDown(s, c)
    case Complete(c) => DoComplete(s, c)
    case Abort(j) => DoAbort(s, j)
  }

  /** The environment assumption of a normal run: nothing aborts, and an interrupt's status
      matches a job's mask only while a chunk of that very job is programmed on the core.
      Interrupts that match nothing may still arrive at any time. */
  predicate Normal(s: State, t: Step)
    requires Shape(s)
  {
    && !t.Abort?
    && (t.IrqStatus? && t.matched ==>
          t.c < MAX_CORES && s.cores[t.c].irq.Entered? && s.cores[t.c].armed == Some(s.cores[t.c].irq.job))
  }

  /** A step other than Submit and Abort rewrites one core, or one core and one job. */
  lemma CoreUpdateShape(s: State, c: nat, core: Core)
    requires Shape(s) && c < MAX_CORES && CoreShape(core, |s.jobs|)
    ensures Shape(SetCore(s, c, core))
  {
  }

  lemma UpdateShape(s: State, c: nat, core: Core, j: JobId, job: Job)
    requires Shape(s) && c < MAX_CORES && CoreShape(core, |s.jobs|)
    requires j < |s.jobs| && |job.parts| == MAX_CORES
    ensures Shape(SetJob(SetCore(s, c, core), j, job))
  {
  }

  lemma NextShape(s: State, c: nat)
    requires Shape(s) && Enabled(s, NextCall(c))
    ensures Shape(DoNext(s, c))
  {
    var core := s.cores[c];
    assert CoreShape(core, |s.jobs|);
    var core' := DoNext(s, c).cores[c];
    assert core'.todo == core.todo || (core.todo != [] && core'.todo == core.todo[1..]);
    if core.slot.Some? || core.todo == [] {
      CoreUpdateShape(s, c, core');
    } else {
      UpdateShape(s, c, core', core.todo[0], DoNext(s, c).jobs[core.todo[0]]);
    }
  }

  lemma DecRunShape(s: State, j: JobId, c: nat)
    requires Shape(s) && Enabled(s, DecRun(j, c))
    ensures Shape(DoDecRun(s, j, c))
  {
    UpdateShape(s, c, s.cores[c], j, DoDecRun(s, j, c).jobs[j]);
    assert s.cores[c := s.cores[c]] == s.cores;
  }

  lemma IrqEnterShape(s: State, c: nat)
    requires Shape(s) && Enabled(s, IrqEnter(c))
    ensures Shape(DoIrqEnter(s, c))
  {
    assert CoreShape(s.cores[c], |s.jobs|);
    if s.cores[c].slot.None? {
      CoreUpdateShape(s, c, DoIrqEnter(s, c).cores[c]);
    } else {
      UpdateShape(s, c, DoIrqEnter(s, c).cores[c], s.cores[c].slot.value, DoIrqEnter(s, c).jobs[s.cores[c].slot.value]);
    }
  }

  /** The steps of rknpu_job_done rewrite the handler's core and the handler's job. */
  lemma HandlerShape(s: State, t: Step)
    requires Shape(s) && Enabled(s, t)
    requires t.DoneInc? || t.Release? || t.CountDown? || t.Complete?
    ensures Shape(Apply(s, t))
  {
    assert CoreShape(s.cores[t.c], |s.jobs|);
    var j := s.cores[t.c].irq.job;
    UpdateShape(s, t.c, Apply(s, t).cores[t.c], j, Apply(s, t).jobs[j]);
  }

  lemma SubmitShape(s: State, spec: JobSpec)
    requires Shape(s) && ValidSpec(s.cfg, spec)
    ensures Shape(DoSubmit(s, spec))
  {
    var s' := DoSubmit(s, spec);
    forall c | 0 <= c < MAX_CORES ensures CoreShape(s'.cores[c], |s'.jobs|) {
      assert CoreShape(s.cores[c], |s.jobs|);
    }
  }

  lemma AbortShape(s: State, j: JobId)
    requires Shape(s) && j < |s.jobs|
    ensures Shape(DoAbort(s, j))
  {
    var s' := DoAbort(s, j);
    forall c | 0 <= c < MAX_CORES ensures CoreShape(s'.cores[c], |s'.jobs|) {
      assert CoreShape(s.cores[c], |s.jobs|);
    }
  }

  /** Every step keeps the shape, so runs never get stuck on an index; submitted jobs are
      only ever added. */
  lemma ApplyShape(s: State, t: Step)
    requires Shape(s) && Enabled(s, t)
    ensures Shape(Apply(s, t))
    ensures Apply(s, t).cfg == s.cfg
    ensures Apply(s, t).specs == if t.Submit? then s.specs + [t.spec] else s.specs
  {
    match t {
      case Submit(spec) => SubmitShape(s, spec);
      case NextCall(c) => NextShape(s, c);
      case DecRun(j, c) => DecRunShape(s, j, c);
      case Commit(j, c) =>
        assert CoreShape(s.cores[c], |s.jobs|);
        UpdateShape(s, c, Apply(s, t).cores[c], j, Apply(s, t).jobs[j]);
      case IrqEnter(c) => IrqEnterShape(s, c);
      case IrqStatus(c, _) =>
        assert CoreShape(s.cores[c], |s.jobs|);
        CoreUpdateShape(s, c, Apply(s, t).cores[c]);
      case Recommit(c) =>
        assert CoreShape(s.cores[c], |s.jobs|);
        CoreUpdateShape(s, c, Apply(s, t).cores[c]);
      case Abort(j) => AbortShape(s, j);
      case _ => HandlerShape(s, t);
    }
  }

  /** Step `i` leads from state `i` to state `i + 1`; in a normal run it is a normal step. */
  ghost predicate Link(normal: bool, states: seq<State>, ts: seq<Step>, i: nat)
    requires i < |ts| && |states| == |ts| + 1
  {
    && Shape(states[i])
    && Enabled(states[i], ts[i])
    && (normal ==> Normal(states[i], ts[i]))
    && states[i + 1] == Apply(states[i], ts[i])
  }

  ghost predicate Trace(normal: bool, states: seq<State>, ts: seq<Step>) {
    && |states| == |ts| + 1
    && (forall i {:trigger Link(normal, states, ts, i)} :: 0 <= i < |ts| ==> Link(normal, states, ts, i))
  }

  ghost predicate RunsAs(normal: bool, s0: State, ts: seq<Step>, s: State) {
    exists states :: Trace(normal, states, ts) && states[0] == s0 && states[|ts|] == s
  }

  /** `s` is reached from `s0` by the given steps. */
  ghost predicate Runs(s0: State, ts: seq<Step>, s: State) { RunsAs(false, s0, ts, s) }

  /** A run all of whose steps are normal. */
  ghost predicate NormalRuns(s0: State, ts: seq<Step>, s: State) { RunsAs(true, s0, ts, s) }

  lemma RunNil(normal: bool, s0: State, s: State)
    ensures RunsAs(normal, s0, [], s) <==> s == s0
  {
    if s == s0 {
      assert Trace(normal, [s], []);
    }
  }

  /** A non-empty run takes its first step and goes on from there. */
  lemma RunHead(normal: bool, s0: State, ts: seq<Step>, s: State)
    requires RunsAs(normal, s0, ts, s) && ts != []
    ensures Shape(s0) && Enabled(s0, ts[0]) && (normal ==> Normal(s0, ts[0]))
    ensures RunsAs(normal, Apply(s0, ts[0]), ts[1..], s)
  {
    var states :| Trace(normal, states, ts) && states[0] == s0 && states[|ts|] == s;
    assert Link(normal, states, ts, 0);
    var rest := states[1..];
    forall i | 0 <= i < |ts[1..]| ensures Link(normal, rest, ts[1..], i) {
      assert Link(normal, states, ts, i + 1);
    }
    assert Trace(normal, rest, ts[1..]);
  }

  lemma RunCons(normal: bool, s0: State, ts: seq<Step>, s: State)
    requires ts != [] && Shape(s0) && Enabled(s0, ts[0]) && (normal ==> Normal(s0, ts[0]))
    requires RunsAs(normal, Apply(s0, ts[0]), ts[1..], s)
    ensures RunsAs(normal, s0, ts, s)
  {
    var rest :| Trace(normal, rest, ts[1..]) && rest[0] == Apply(s0, ts[0]) && rest[|ts[1..]|] == s;
    var states := [s0] + rest;
    forall i | 0 <= i < |ts| ensures Link(normal, states, ts, i) {
      if i > 0 { assert Link(normal, rest, ts[1..], i - 1); }
    }
    assert Trace(normal, states, ts);
  }

  lemma {:induction false} RunsConcat(
    normal: bool, s0: State, ts: seq<Step>, s1: State, more: seq<Step>, s: State)
    requires RunsAs(normal, s0, ts, s1) && RunsAs(normal, s1, more, s)
    ensures RunsAs(normal, s0, ts + more, s)
    decreases |ts|
  {
    if ts == [] {
      RunNil(normal, s0, s1);
      assert ts + more == more;
    } else {
      RunHead(normal, s0, ts, s1);
      RunsConcat(normal, Apply(s0, ts[0]), ts[1..], s1, more, s);
      var all := ts + more;
      assert all[1..] == ts[1..] + more && all[0] == ts[0];
      RunCons(normal, s0, all, s);
    }
  }

  lemma RunOne(normal: bool, s: State, t: Step)
    requires Shape(s) && Enabled(s, t) && (normal ==> Normal(s, t))
    ensures RunsAs(normal, s, [t], Apply(s, t))
  {
    RunNil(normal, Apply(s, t), Apply(s, t));
    RunCons(normal, s, [t], Apply(s, t));
  }

  lemma RunsAppend(normal: bool, s0: State, ts: seq<Step>, s: State, t: Step)
    requires RunsAs(normal, s0, ts, s) && Shape(s) && Enabled(s, t) && (normal ==> Normal(s, t))
    ensures RunsAs(normal, s0, ts + [t], Apply(s, t))
  {
    RunOne(normal, s, t);
    RunsConcat(normal, s0, ts, s, [t], Apply(s, t));
  }

  /** A normal run is a run. */
  lemma NormalIsRun(normal: bool, s0: State, ts: seq<Step>, s: State)
    requires NormalRuns(s0, ts, s)
    ensures RunsAs(normal, s0, ts, s)
  {
    var states :| Trace(true, states, ts) && states[0] == s0 && states[|ts|] == s;
    forall i | 0 <= i < |ts| ensures Link(normal, states, ts, i) {
      assert Link(true, states, ts, i);
    }
    assert Trace(normal, states, ts);
  }
}
