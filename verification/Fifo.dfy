/** What every run keeps, whatever the hardware reports and whoever aborts: each core serves its
    jobs in the one enqueue order, a slot is given up at most once per job, and the load counter
    is the work still queued or running. */
module Fifo {
  import opened Npu
  import opened Scheduler

  // ---------- the enqueue order seen by one core ----------

  /** The jobs submitted to core `c`, oldest first. */
  function OnCore(specs: seq<JobSpec>, c: nat): seq<JobId>
    decreases |specs|
  {
    if specs == [] then []
    else
      var n := |specs| - 1;
      OnCore(specs[..n], c) + (if HasCore(specs[n].mask, c) then [n] else [])
  }

  predicate Ascending(ids: seq<JobId>) {
    forall i, k :: 0 <= i < k < |ids| ==> ids[i] < ids[k]
  }

  lemma {:induction false} OnCoreBounds(specs: seq<JobSpec>, c: nat)
    ensures forall i :: 0 <= i < |OnCore(specs, c)| ==> OnCore(specs, c)[i] < |specs|
    ensures Ascending(OnCore(specs, c))
    decreases |specs|
  {
    if specs != [] {
      OnCoreBounds(specs[..|specs| - 1], c);
    }
  }

  /** OnCore lists exactly the jobs that ask for the core. */
  lemma {:induction false} OnCoreMembers(specs: seq<JobSpec>, c: nat, j: nat)
    ensures j in OnCore(specs, c) <==> j < |specs| && HasCore(specs[j].mask, c)
    decreases |specs|
  {
    if specs != [] {
      var n := |specs| - 1;
      OnCoreMembers(specs[..n], c, j);
      var tail: seq<JobId> := if HasCore(specs[n].mask, c) then [n] else [];
      assert j in OnCore(specs, c) <==> j in OnCore(specs[..n], c) || j in tail;
    }
  }

  lemma OnCoreAppend(specs: seq<JobSpec>, spec: JobSpec, c: nat)
    ensures OnCore(specs + [spec], c) == OnCore(specs, c) + (if HasCore(spec.mask, c) then [|specs|] else [])
  {
    assert (specs + [spec])[..|specs|] == specs;
  }

  function SlotSeq(slot: Option<JobId>): seq<JobId> {
    if slot.Some? then [slot.value] else []
  }

  // ---------- load ----------

  predicate Known(specs: seq<JobSpec>, ids: seq<JobId>) {
    && (forall j :: 0 <= j < |specs| ==> |specs[j].subcore| == 5)
    && (forall i :: 0 <= i < |ids| ==> ids[i] < |specs|)
  }

  /** Sum of rknpu_get_task_number over a list of jobs. */
  function Load(cfg: Config, specs: seq<JobSpec>, c: nat, ids: seq<JobId>): nat
    requires Known(specs, ids) && c < MAX_CORES
  {
    if ids == [] then 0 else Weight(cfg, specs, ids[0], c) + Load(cfg, specs, c, ids[1..])
  }

  lemma {:induction false} LoadConcat(cfg: Config, specs: seq<JobSpec>, c: nat, a: seq<JobId>, b: seq<JobId>)
    requires Known(specs, a) && Known(specs, b) && c < MAX_CORES
    ensures Known(specs, a + b)
    ensures Load(cfg, specs, c, a + b) == Load(cfg, specs, c, a) + Load(cfg, specs, c, b)
  {
    if a == [] {
      assert a + b == b;
    } else {
      LoadConcat(cfg, specs, c, a[1..], b);
      assert (a + b)[1..] == a[1..] + b;
    }
  }

  lemma LoadSingle(cfg: Config, specs: seq<JobSpec>, c: nat, j: JobId)
    requires Known(specs, []) && j < |specs| && c < MAX_CORES
    ensures Known(specs, [j]) && Load(cfg, specs, c, [j]) == Weight(cfg, specs, j, c)
  {
    assert [j][1..] == [];
  }

  lemma {:induction false} LoadExtend(cfg: Config, specs: seq<JobSpec>, spec: JobSpec, c: nat, ids: seq<JobId>)
    requires Known(specs, ids) && c < MAX_CORES && |spec.subcore| == 5
    ensures Known(specs + [spec], ids)
    ensures Load(cfg, specs + [spec], c, ids) == Load(cfg, specs, c, ids)
  {
    if ids != [] {
      LoadExtend(cfg, specs, spec, c, ids[1..]);
    }
  }

  // ---------- the invariant ----------

  /** The three lists of a core split the enqueue order, and task_num is the load of the last two. */
  ghost predicate ListOk(cfg: Config, specs: seq<JobSpec>, c: nat, core: Core)
    requires c < MAX_CORES
  {
    && Known(specs, SlotSeq(core.slot) + core.todo)
    && core.released + (SlotSeq(core.slot) + core.todo) == OnCore(specs, c)
    && core.taskNum == Load(cfg, specs, c, SlotSeq(core.slot) + core.todo)
  }

  /** Between its two critical sections the handler's job stays in the slot, marked irq_entry. */
  predicate HandlerOk(s: State, c: nat)
    requires Shape(s) && c < MAX_CORES
  {
    var irq := s.cores[c].irq;
    assert CoreShape(s.cores[c], |s.jobs|);
    irq.Entered? || irq.Accepted? || irq.Again? || irq.Last? ==>
      s.cores[c].slot == Some(irq.job) && s.jobs[irq.job].parts[c].irqEntry
  }

  predicate PlaceOk(s: State, j: JobId, c: nat)
    requires Shape(s) && j < |s.jobs| && c < MAX_CORES
  {
    var place := s.jobs[j].parts[c].place;
    && (place == Outside <==> !HasCore(s.specs[j].mask, c))
    && (place == Queued <==> j in s.cores[c].todo)
    && (place == InSlot <==> s.cores[c].slot == Some(j))
    && (place == Gone <==> j in s.cores[c].released)
  }

  ghost predicate Inv(s: State) {
    && Shape(s)
    && (forall c {:trigger ListOk(s.cfg, s.specs, c, s.cores[c])} :: 0 <= c < MAX_CORES ==>
       ListOk(s.cfg, s.specs, c, s.cores[c]))
    && (forall c :: 0 <= c < MAX_CORES ==> HandlerOk(s, c))
    && (forall j, c :: 0 <= j < |s.jobs| && 0 <= c < MAX_CORES ==> PlaceOk(s, j, c))
  }

  lemma InitInv(cfg: Config)
    requires ValidConfig(cfg)
    ensures Inv(Init(cfg))
  {
    var s := Init(cfg);
    forall c | 0 <= c < MAX_CORES ensures ListOk(s.cfg, s.specs, c, s.cores[c]) && HandlerOk(s, c) {
      assert s.cores[c] == EmptyCore;
    }
  }

  // ---------- the list part, one core at a time ----------

  lemma EnqueueKeepsList(cfg: Config, specs: seq<JobSpec>, spec: JobSpec, c: nat, core: Core)
    requires c < MAX_CORES && |spec.subcore| == 5 && ListOk(cfg, specs, c, core)
    ensures ListOk(cfg, specs + [spec], c, EnqueueOn(cfg, spec, |specs|, c, core))
  {
    var held := SlotSeq(core.slot) + core.todo;
    OnCoreAppend(specs, spec, c);
    LoadExtend(cfg, specs, spec, c, held);
    if HasCore(spec.mask, c) {
      var specs' := specs + [spec];
      assert specs'[|specs|] == spec;
      assert core.released + held + [|specs|] == OnCore(specs', c);
      AppendKeepsList(cfg, specs', c, core, held, |specs|);
    }
  }

  lemma AppendKeepsList(cfg: Config, specs: seq<JobSpec>, c: nat, core: Core, held: seq<JobId>, j: JobId)
    requires c < MAX_CORES && j < |specs| && held == SlotSeq(core.slot) + core.todo
    requires Known(specs, held)
    requires core.released + held + [j] == OnCore(specs, c)
    requires core.taskNum == Load(cfg, specs, c, held)
    ensures ListOk(cfg, specs, c,
                   core.(todo := core.todo + [j],
                         taskNum := core.taskNum + Weight(cfg, specs, j, c),
                         nextCalls := core.nextCalls + 1))
  {
    LoadSingle(cfg, specs, c, j);
    LoadConcat(cfg, specs, c, held, [j]);
    assert held + [j] == SlotSeq(core.slot) + (core.todo + [j]);
    assert core.released + (held + [j]) == core.released + held + [j];
  }

  lemma PopKeepsList(cfg: Config, specs: seq<JobSpec>, c: nat, core: Core)
    requires c < MAX_CORES && ListOk(cfg, specs, c, core)
    requires core.slot.None? && core.todo != []
    ensures ListOk(cfg, specs, c, core.(todo := core.todo[1..], slot := Some(core.todo[0])))
  {
    assert SlotSeq(None) + core.todo == core.todo;
    assert [core.todo[0]] + core.todo[1..] == core.todo;
  }

  lemma FreeKeepsList(s: State, j: JobId, c: nat)
    requires Shape(s) && j < |s.jobs| && c < MAX_CORES
    requires ListOk(s.cfg, s.specs, c, s.cores[c]) && s.cores[c].slot == Some(j)
    ensures ListOk(s.cfg, s.specs, c, FreeSlot(s, j, c, s.cores[c]))
  {
    var core := s.cores[c];
    assert ([j] + core.todo)[1..] == core.todo;
    assert SlotSeq(None) + core.todo == core.todo;
    assert core.released + [j] + core.todo == core.released + ([j] + core.todo);
  }

  /** The three lists of a core are disjoint and repetition-free. */
  lemma ListsDisjoint(cfg: Config, specs: seq<JobSpec>, c: nat, core: Core, j: JobId)
    requires c < MAX_CORES && ListOk(cfg, specs, c, core)
    ensures j in core.todo ==> core.slot != Some(j) && j !in core.released
    ensures core.slot == Some(j) ==> j !in core.released
    ensures core.todo != [] && j == core.todo[0] ==> j !in core.todo[1..]
    ensures j in core.released || j in core.todo || core.slot == Some(j) ==> j < |specs|
  {
    OnCoreBounds(specs, c);
    var all := OnCore(specs, c);
    var r := |core.released|;
    var k := |SlotSeq(core.slot)|;
    forall i | 0 <= i < |core.released| ensures all[i] == core.released[i] { }
    forall i | 0 <= i < |core.todo| ensures all[r + k + i] == core.todo[i] { }
    if core.slot.Some? {
      assert all[r] == core.slot.value;
    }
  }

  // ---------- steps that move no job between lists ----------

  /** Between its critical sections a handler keeps its job. */
  predicate Holds(irq: IrqPc, j: JobId) {
    irq == Entered(j) || irq == Accepted(j) || irq == Again(j) || irq == Last(j)
  }

  predicate CoreStill(core: Core, core': Core) {
    && core'.todo == core.todo && core'.slot == core.slot
    && core'.taskNum == core.taskNum && core'.released == core.released
    && (core'.irq == core.irq || core'.irq == Idle || Holds(core.irq, core'.irq.job) ||
       !Holds(core'.irq, core'.irq.job))
  }

  predicate PartStill(p: Part, p': Part) {
    p'.place == p.place && (p.irqEntry ==> p'.irqEntry)
  }

  ghost predicate Still(s: State, s': State)
    requires Shape(s) && Shape(s')
  {
    && s'.cfg == s.cfg && s'.specs == s.specs
    && (forall d :: 0 <= d < MAX_CORES ==> CoreStill(s.cores[d], s'.cores[d]))
    && (forall j, d :: 0 <= j < |s.jobs| && 0 <= d < MAX_CORES ==> PartStill(s.jobs[j].parts[d], s'.jobs[j].parts[d]))
  }

  lemma StillKeeps(s: State, s': State)
    requires Inv(s) && Shape(s') && Still(s, s')
    ensures Inv(s')
  {
    forall d | 0 <= d < MAX_CORES ensures ListOk(s'.cfg, s'.specs, d, s'.cores[d]) && HandlerOk(s', d) {
      assert ListOk(s.cfg, s.specs, d, s.cores[d]);
      assert CoreStill(s.cores[d], s'.cores[d]) && HandlerOk(s, d);
      if s.cores[d].irq != Idle {
        assert CoreShape(s.cores[d], |s.jobs|);
        assert PartStill(s.jobs[s.cores[d].irq.job].parts[d], s'.jobs[s.cores[d].irq.job].parts[d]);
      }
    }
    forall j, d | 0 <= j < |s'.jobs| && 0 <= d < MAX_CORES ensures PlaceOk(s', j, d) {
      assert PlaceOk(s, j, d) && PartStill(s.jobs[j].parts[d], s'.jobs[j].parts[d]);
      assert CoreStill(s.cores[d], s'.cores[d]);
    }
  }

  lemma UpdateStill(s: State, c: nat, core: Core, j: JobId, job: Job)
    requires Shape(s) && c < MAX_CORES && CoreStill(s.cores[c], core)
    requires j < |s.jobs| && |job.parts| == MAX_CORES
    requires forall d :: 0 <= d < MAX_CORES ==> PartStill(s.jobs[j].parts[d], job.parts[d])
    requires Shape(SetJob(SetCore(s, c, core), j, job))
    ensures Still(s, SetJob(SetCore(s, c, core), j, job))
  {
  }

  lemma CoreUpdateStill(s: State, c: nat, core: Core)
    requires Shape(s) && c < MAX_CORES && CoreStill(s.cores[c], core)
    requires Shape(SetCore(s, c, core))
    ensures Still(s, SetCore(s, c, core))
  {
  }

  lemma StillBarrier(s: State, t: Step)
    requires Inv(s) && Enabled(s, t) && (t.DecRun? || t.Commit?)
    ensures Inv(Apply(s, t))
  {
    ApplyShape(s, t);
    if t.DecRun? {
      assert s.cores[t.c := s.cores[t.c]] == s.cores;
    }
    UpdateStill(s, t.c, Apply(s, t).cores[t.c], t.j, Apply(s, t).jobs[t.j]);
    StillKeeps(s, Apply(s, t));
  }

  lemma StillCore(s: State, t: Step)
    requires Inv(s) && Enabled(s, t) && (t.IrqStatus? || t.Recommit?)
    ensures Inv(Apply(s, t))
  {
    ApplyShape(s, t);
    assert Shape(SetCore(s, t.c, Apply(s, t).cores[t.c]));
    CoreUpdateStill(s, t.c, Apply(s, t).cores[t.c]);
    assert Still(s, Apply(s, t));
    StillKeeps(s, Apply(s, t));
  }

  lemma StillHandler(s: State, t: Step)
    requires Inv(s) && Enabled(s, t)
    requires t.DoneInc? || t.CountDown? || t.Complete?
    ensures Inv(Apply(s, t))
  {
    HandlerShape(s, t);
    assert CoreShape(s.cores[t.c], |s.jobs|);
    var j := s.cores[t.c].irq.job;
    UpdateStill(s, t.c, Apply(s, t).cores[t.c], j, Apply(s, t).jobs[j]);
    StillKeeps(s, Apply(s, t));
  }

  // ---------- steps that move a job ----------

  lemma SubmitKeeps(s: State, spec: JobSpec)
    requires Inv(s) && ValidSpec(s.cfg, spec)
    ensures Inv(DoSubmit(s, spec))
  {
    var s' := DoSubmit(s, spec);
    SubmitShape(s, spec);
    forall c | 0 <= c < MAX_CORES ensures ListOk(s'.cfg, s'.specs, c, s'.cores[c]) && HandlerOk(s', c) {
      EnqueueKeepsList(s.cfg, s.specs, spec, c, s.cores[c]);
      assert HandlerOk(s, c) && CoreShape(s.cores[c], |s.jobs|);
    }
    forall j, c | 0 <= j < |s'.jobs| && 0 <= c < MAX_CORES ensures PlaceOk(s', j, c) {
      SubmitPlace(s, spec, j, c);
    }
  }

  lemma SubmitPlace(s: State, spec: JobSpec, j: JobId, c: nat)
    requires Shape(s) && ValidSpec(s.cfg, spec) && Shape(DoSubmit(s, spec))
    requires j <= |s.jobs| && c < MAX_CORES && ListOk(s.cfg, s.specs, c, s.cores[c])
    requires j < |s.jobs| ==> PlaceOk(s, j, c)
    ensures PlaceOk(DoSubmit(s, spec), j, c)
  {
    ListsDisjoint(s.cfg, s.specs, c, s.cores[c], j);
  }

  lemma NextKeeps(s: State, c: nat)
    requires Inv(s) && Enabled(s, NextCall(c))
    ensures Inv(DoNext(s, c))
  {
    var s' := DoNext(s, c);
    NextShape(s, c);
    if s.cores[c].slot.Some? || s.cores[c].todo == [] {
      CoreUpdateStill(s, c, s'.cores[c]);
      StillKeeps(s, s');
    } else {
      PopKeeps(s, c);
    }
  }

  lemma PopKeeps(s: State, c: nat)
    requires Inv(s) && Enabled(s, NextCall(c)) && s.cores[c].slot.None? && s.cores[c].todo != []
    requires Shape(DoNext(s, c))
    ensures Inv(DoNext(s, c))
  {
    var s' := DoNext(s, c);
    forall d | 0 <= d < MAX_CORES ensures ListOk(s'.cfg, s'.specs, d, s'.cores[d]) && HandlerOk(s', d) {
      assert ListOk(s.cfg, s.specs, d, s.cores[d]) && HandlerOk(s, d);
      if d == c {
        PopKeepsList(s.cfg, s.specs, c, s.cores[c].(nextCalls := s.cores[c].nextCalls - 1));
      }
    }
    forall j, d | 0 <= j < |s'.jobs| && 0 <= d < MAX_CORES ensures PlaceOk(s', j, d) {
      PopPlace(s, c, j, d);
    }
  }

  lemma PopPlace(s: State, c: nat, j: JobId, d: nat)
    requires Shape(s) && Enabled(s, NextCall(c)) && s.cores[c].slot.None? && s.cores[c].todo != []
    requires Shape(DoNext(s, c)) && j < |s.jobs| && d < MAX_CORES
    requires ListOk(s.cfg, s.specs, d, s.cores[d]) && PlaceOk(s, j, d)
    ensures PlaceOk(DoNext(s, c), j, d)
  {
    var s' := DoNext(s, c);
    if d == c {
      PopLists(s.cfg, s.specs, c, s.cores[c], j);
      assert s'.cores[c].todo == s.cores[c].todo[1..] && s'.cores[c].slot == Some(s.cores[c].todo[0]);
      assert s'.cores[c].released == s.cores[c].released;
    } else {
      assert s'.cores[d] == s.cores[d] && s'.jobs[j].parts[d] == s.jobs[j].parts[d];
    }
  }

  /** A pop moves the head of the queue, and nothing else. */
  lemma PopLists(cfg: Config, specs: seq<JobSpec>, c: nat, core: Core, j: JobId)
    requires c < MAX_CORES && ListOk(cfg, specs, c, core) && core.todo != []
    ensures j == core.todo[0] ==> j !in core.todo[1..] && j !in core.released
    ensures j != core.todo[0] ==> (j in core.todo[1..] <==> j in core.todo)
  {
    ListsDisjoint(cfg, specs, c, core, j);
    assert core.todo == [core.todo[0]] + core.todo[1..];
  }

  lemma IrqEnterKeeps(s: State, c: nat)
    requires Inv(s) && Enabled(s, IrqEnter(c))
    ensures Inv(DoIrqEnter(s, c))
  {
    var s' := DoIrqEnter(s, c);
    IrqEnterShape(s, c);
    forall d | 0 <= d < MAX_CORES ensures ListOk(s'.cfg, s'.specs, d, s'.cores[d]) && HandlerOk(s', d) {
      assert ListOk(s.cfg, s.specs, d, s.cores[d]);
      IrqEnterHandler(s, c, d);
    }
    forall j, d | 0 <= j < |s'.jobs| && 0 <= d < MAX_CORES ensures PlaceOk(s', j, d) {
      IrqEnterPlace(s, c, j, d);
    }
  }

  lemma IrqEnterHandler(s: State, c: nat, d: nat)
    requires Shape(s) && Enabled(s, IrqEnter(c)) && d < MAX_CORES && HandlerOk(s, d) && Shape(DoIrqEnter(s, c))
    ensures HandlerOk(DoIrqEnter(s, c), d)
    ensures DoIrqEnter(s, c).cores[d].todo == s.cores[d].todo && DoIrqEnter(s, c).cores[d].slot == s.cores[d].slot
    ensures DoIrqEnter(s, c).cores[d].taskNum == s.cores[d].taskNum &&
            DoIrqEnter(s, c).cores[d].released == s.cores[d].released
  {
    assert CoreShape(s.cores[d], |s.jobs|);
  }

  lemma IrqEnterPlace(s: State, c: nat, j: JobId, d: nat)
    requires Shape(s) && Enabled(s, IrqEnter(c)) && j < |s.jobs| && d < MAX_CORES && PlaceOk(s, j, d)
    requires Shape(DoIrqEnter(s, c))
    ensures PlaceOk(DoIrqEnter(s, c), j, d)
  {
  }

  lemma ReleaseKeeps(s: State, c: nat)
    requires Inv(s) && Enabled(s, Release(c))
    ensures Inv(DoRelease(s, c))
  {
    var s' := DoRelease(s, c);
    HandlerShape(s, Release(c));
    assert HandlerOk(s, c);
    forall d | 0 <= d < MAX_CORES ensures ListOk(s'.cfg, s'.specs, d, s'.cores[d]) && HandlerOk(s', d) {
      assert ListOk(s.cfg, s.specs, d, s.cores[d]) && HandlerOk(s, d);
      ReleaseHandler(s, c, d);
      if d == c { FreeKeepsList(s, s.cores[c].irq.job, c); }
    }
    forall j, d | 0 <= j < |s'.jobs| && 0 <= d < MAX_CORES ensures PlaceOk(s', j, d) {
      ReleasePlace(s, c, j, d);
    }
  }

  lemma ReleaseHandler(s: State, c: nat, d: nat)
    requires Shape(s) && Enabled(s, Release(c)) && d < MAX_CORES && HandlerOk(s, d) && Shape(DoRelease(s, c))
    ensures HandlerOk(DoRelease(s, c), d)
  {
    assert CoreShape(s.cores[d], |s.jobs|);
  }

  lemma ReleasePlace(s: State, c: nat, j: JobId, d: nat)
    requires Shape(s) && Enabled(s, Release(c)) && j < |s.jobs| && d < MAX_CORES && Shape(DoRelease(s, c))
    requires ListOk(s.cfg, s.specs, d, s.cores[d]) && HandlerOk(s, c) && PlaceOk(s, j, d)
    ensures PlaceOk(DoRelease(s, c), j, d)
  {
    ListsDisjoint(s.cfg, s.specs, d, s.cores[d], j);
  }

  lemma AbortKeeps(s: State, j0: JobId)
    requires Inv(s) && j0 < |s.jobs|
    ensures Inv(DoAbort(s, j0))
  {
    var s' := DoAbort(s, j0);
    AbortShape(s, j0);
    forall d | 0 <= d < MAX_CORES ensures ListOk(s'.cfg, s'.specs, d, s'.cores[d]) && HandlerOk(s', d) {
      assert ListOk(s.cfg, s.specs, d, s.cores[d]);
      AbortHandler(s, j0, d);
      if AbortFrees(s, j0, d) { FreeKeepsList(s, j0, d); }
    }
    forall j, d | 0 <= j < |s'.jobs| && 0 <= d < MAX_CORES ensures PlaceOk(s', j, d) {
      AbortPlace(s, j0, j, d);
    }
  }

  lemma AbortHandler(s: State, j0: JobId, d: nat)
    requires Shape(s) && j0 < |s.jobs| && d < MAX_CORES && HandlerOk(s, d) && Shape(DoAbort(s, j0))
    ensures HandlerOk(DoAbort(s, j0), d)
  {
    assert CoreShape(s.cores[d], |s.jobs|);
  }

  lemma AbortPlace(s: State, j0: JobId, j: JobId, d: nat)
    requires Shape(s) && j0 < |s.jobs| && j < |s.jobs| && d < MAX_CORES && Shape(DoAbort(s, j0))
    requires ListOk(s.cfg, s.specs, d, s.cores[d]) && PlaceOk(s, j, d)
    ensures PlaceOk(DoAbort(s, j0), j, d)
  {
    ListsDisjoint(s.cfg, s.specs, d, s.cores[d], j);
  }

  lemma StepKeeps(s: State, t: Step)
    requires Inv(s) && Enabled(s, t)
    ensures Inv(Apply(s, t))
  {
    match t {
      case Submit(spec) => SubmitKeeps(s, spec);
      case NextCall(c) => NextKeeps(s, c);
      case IrqEnter(c) => IrqEnterKeeps(s, c);
      case Release(c) => ReleaseKeeps(s, c);
      case Abort(j) => AbortKeeps(s, j);
      case DoneInc(_) => StillHandler(s, t);
      case CountDown(_) => StillHandler(s, t);
      case Complete(_) => StillHandler(s, t);
      case DecRun(_, _) => StillBarrier(s, t);
      case Commit(_, _) => StillBarrier(s, t);
      case _ => StillCore(s, t);
    }
  }

  lemma {:induction false} RunKeeps(s0: State, ts: seq<Step>, s: State)
    requires Inv(s0) && Runs(s0, ts, s)
    ensures Inv(s)
    decreases |ts|
  {
    if ts == [] {
      RunNil(false, s0, s);
    } else {
      RunHead(false, s0, ts, s);
      StepKeeps(s0, ts[0]);
      RunKeeps(Apply(s0, ts[0]), ts[1..], s);
    }
  }

  // ---------- what that means ----------

  lemma Reached(cfg: Config, ts: seq<Step>, s: State)
    requires ValidConfig(cfg) && Runs(Init(cfg), ts, s)
    ensures Inv(s)
  {
    InitInv(cfg);
    RunKeeps(Init(cfg), ts, s);
  }

  lemma ListParts(cfg: Config, specs: seq<JobSpec>, c: nat, core: Core)
    requires c < MAX_CORES && ListOk(cfg, specs, c, core)
    ensures core.released + SlotSeq(core.slot) + core.todo == OnCore(specs, c)
  {
    assert core.released + SlotSeq(core.slot) + core.todo == core.released + (SlotSeq(core.slot) + core.todo);
  }

  /** In every run, aborts and spurious interrupts included, a core's history, slot and queue are
      the enqueue order cut in three. */
  lemma FifoService(cfg: Config, ts: seq<Step>, s: State, c: nat)
    requires ValidConfig(cfg) && Runs(Init(cfg), ts, s) && c < MAX_CORES
    ensures Shape(s)
    ensures s.cores[c].released + SlotSeq(s.cores[c].slot) + s.cores[c].todo == OnCore(s.specs, c)
  {
    Reached(cfg, ts, s);
    ListParts(s.cfg, s.specs, c, s.cores[c]);
  }

  /** Load conservation: task_num is the weight of the jobs queued on or occupying the core; it is
      also everything ever enqueued minus every release, each counted once. */
  lemma LoadConservation(cfg: Config, ts: seq<Step>, s: State, c: nat)
    requires ValidConfig(cfg) && Runs(Init(cfg), ts, s) && c < MAX_CORES
    ensures Shape(s)
    ensures Known(s.specs, SlotSeq(s.cores[c].slot) + s.cores[c].todo)
    ensures Known(s.specs, s.cores[c].released) && Known(s.specs, OnCore(s.specs, c))
    ensures s.cores[c].taskNum == Load(s.cfg, s.specs, c, SlotSeq(s.cores[c].slot) + s.cores[c].todo)
    ensures s.cores[c].taskNum ==
            Load(s.cfg, s.specs, c, OnCore(s.specs, c)) - Load(s.cfg, s.specs, c, s.cores[c].released)
    ensures forall j :: 0 <= j < |s.specs| ==>
              Weight(s.cfg, s.specs, j, c) ==
              if s.cfg.numIrqs == 1 then s.specs[j].whole.number
              else if s.specs[j].mask == 7 then s.specs[j].subcore[c + 2].number
              else s.specs[j].subcore[c].number
    ensures s.cores[c].taskNum >= 0
    ensures s.cores[c].slot.None? && s.cores[c].todo == [] ==> s.cores[c].taskNum == 0
  {
    Reached(cfg, ts, s);
    var core := s.cores[c];
    assert ListOk(s.cfg, s.specs, c, core);
    var held := SlotSeq(core.slot) + core.todo;
    assert OnCore(s.specs, c)[..|core.released|] == core.released;
    OnCoreBounds(s.specs, c);
    LoadConcat(s.cfg, s.specs, c, core.released, held);
    WeightsExact(s, c);
  }

  lemma WeightsExact(s: State, c: nat)
    requires Shape(s) && c < MAX_CORES
    ensures forall j :: 0 <= j < |s.specs| ==>
              Weight(s.cfg, s.specs, j, c) ==
              if s.cfg.numIrqs == 1 then s.specs[j].whole.number
              else if s.specs[j].mask == 7 then s.specs[j].subcore[c + 2].number
              else s.specs[j].subcore[c].number
  {
    forall j | 0 <= j < |s.specs|
      ensures Weight(s.cfg, s.specs, j, c) ==
              if s.cfg.numIrqs == 1 then s.specs[j].whole.number
              else if s.specs[j].mask == 7 then s.specs[j].subcore[c + 2].number
              else s.specs[j].subcore[c].number
    {
      CoreRangeExact(s.cfg, s.specs[j], c);
    }
  }

  /** What an enqueue adds to task_num: the task number of the core's own range, on the cores of the
      mask and nowhere else; and it appends the job there. */
  lemma EnqueueWeighs(s: State, spec: JobSpec, c: nat)
    requires Shape(s) && ValidSpec(s.cfg, spec) && c < MAX_CORES
    ensures var core' := DoSubmit(s, spec).cores[c];
            && core'.taskNum - s.cores[c].taskNum ==
               (if !HasCore(spec.mask, c) then 0
                else if s.cfg.numIrqs == 1 then spec.whole.number
                else if spec.mask == 7 then spec.subcore[c + 2].number
                else spec.subcore[c].number)
            && core'.todo == s.cores[c].todo + (if HasCore(spec.mask, c) then [|s.jobs|] else [])
            && core'.nextCalls == s.cores[c].nextCalls + Bit(HasCore(spec.mask, c))
  {
    CoreRangeExact(s.cfg, spec, c);
  }

  /** Abort against interrupt: whatever the interleaving, a (job, core) pair leaves the slot at
      most once, so its weight is subtracted at most once. */
  lemma ReleasedAtMostOnce(cfg: Config, ts: seq<Step>, s: State, c: nat, i: nat, k: nat)
    requires ValidConfig(cfg) && Runs(Init(cfg), ts, s) && c < MAX_CORES
    requires Shape(s) && i < |s.cores[c].released| && k < |s.cores[c].released|
    ensures s.cores[c].released[i] == s.cores[c].released[k] ==> i == k
  {
    FifoService(cfg, ts, s, c);
    OnCoreBounds(s.specs, c);
    var core := s.cores[c];
    var all := OnCore(s.specs, c);
    assert all[i] == core.released[i] && all[k] == core.released[k];
  }

  /** A release section only ever frees the job it was entered for, and that job is still there:
      neither path can take the slot away from the other. */
  lemma ReleaseFindsItsJob(cfg: Config, ts: seq<Step>, s: State, t: Step)
    requires ValidConfig(cfg) && Runs(Init(cfg), ts, s)
    requires Shape(s) && Enabled(s, t)
    ensures t.Release? ==>
            s.cores[t.c].slot == Some(s.cores[t.c].irq.job) && s.cores[t.c].irq.job !in s.cores[t.c].released
    ensures t.Abort? ==> forall c :: 0 <= c < MAX_CORES && s.cores[c].irq.Last? ==>
              Apply(s, t).cores[c] == s.cores[c]
  {
    Reached(cfg, ts, s);
    if t.Release? {
      assert HandlerOk(s, t.c);
      ListsDisjoint(s.cfg, s.specs, t.c, s.cores[t.c], s.cores[t.c].irq.job);
    }
    if t.Abort? {
      forall c | 0 <= c < MAX_CORES && s.cores[c].irq.Last? ensures Apply(s, t).cores[c] == s.cores[c] {
        assert HandlerOk(s, c);
      }
    }
  }

  // ---------- what abort does not do ----------

  /** irq_entry is never cleared. */
  lemma EntryStays(s: State, t: Step, j: JobId, c: nat)
    requires Shape(s) && Enabled(s, t) && j < |s.jobs| && c < MAX_CORES && s.jobs[j].parts[c].irqEntry
    ensures j < |Apply(s, t).jobs| && c < |Apply(s, t).jobs[j].parts| && Apply(s, t).jobs[j].parts[c].irqEntry
  {
  }

  lemma {:induction false} EntryStaysForever(s0: State, ts: seq<Step>, s: State, j: JobId, c: nat)
    requires Shape(s0) && Runs(s0, ts, s) && j < |s0.jobs| && c < MAX_CORES && s0.jobs[j].parts[c].irqEntry
    ensures Shape(s) && j < |s.jobs| && s.jobs[j].parts[c].irqEntry
    decreases |ts|
  {
    if ts == [] {
      RunNil(false, s0, s);
    } else {
      RunHead(false, s0, ts, s);
      ApplyShape(s0, ts[0]);
      EntryStays(s0, ts[0], j, c);
      EntryStaysForever(Apply(s0, ts[0]), ts[1..], s, j, c);
    }
  }

  /** Exactly when abort frees a core: the job is in its slot and has never seen an interrupt there.
      After a single interrupt, even one that matched nothing, no abort in any continuation of the run
      takes the job out of that slot. */
  lemma AbortExact(cfg: Config, ts: seq<Step>, s: State, j: JobId, c: nat, later: seq<Step>, s': State)
    requires ValidConfig(cfg) && Runs(Init(cfg), ts, s) && c < MAX_CORES
    requires Shape(s) && j < |s.jobs| && Runs(s, later, s') && Shape(s') && j < |s'.jobs|
    ensures s.cores[c].slot == Some(j) ==>
              (DoAbort(s, j).cores[c].slot.None? <==> !s.jobs[j].parts[c].irqEntry)
    ensures s.cores[c].slot != Some(j) ==> DoAbort(s, j).cores[c] == s.cores[c]
    ensures s.cores[c].slot == Some(j) && s.cores[c].irq == Idle && later != [] && later[0] == IrqEnter(c) ==>
              DoAbort(s', j).cores[c] == s'.cores[c]
  {
    Reached(cfg, ts, s);
    assert PlaceOk(s, j, c);
    if s.cores[c].slot == Some(j) && s.cores[c].irq == Idle && later != [] && later[0] == IrqEnter(c) {
      IrqEnterShape(s, c);
      RunHead(false, s, later, s');
      EntryStaysForever(DoIrqEnter(s, c), later[1..], s', j, c);
    }
  }

  /** Something on core `c` still refers to job `j`: its queue, slot or handler, or a decrement or commit
      call that is outstanding. */
  predicate RefersOn(s: State, j: JobId, c: nat)
    requires Shape(s) && j < |s.jobs| && c < MAX_CORES
  {
    || j in s.cores[c].todo
    || s.cores[c].slot == Some(j)
    || IrqIs(s.cores[c].irq, j)
    || s.jobs[j].parts[c].dec
    || s.jobs[j].parts[c].commit
  }

  /** What abort does not undo on core `c`. */
  predicate Survives(s: State, j: JobId, c: nat)
    requires Shape(s) && j < |s.jobs| && c < MAX_CORES
  {
    var p := s.jobs[j].parts[c];
    || p.place == Queued
    || (p.place == InSlot && p.irqEntry)
    || p.dec || p.commit
    || s.cores[c].irq == Freed(j) || s.cores[c].irq == Final(j)
  }

  /** Which references an abort leaves behind, core by core: the job is freed right after it, and that is
      safe exactly if no core has it queued, has it in the slot after an interrupt, or has one of its
      calls outstanding. */
  lemma AbortLeaves(cfg: Config, ts: seq<Step>, s: State, j: JobId)
    requires ValidConfig(cfg) && Runs(Init(cfg), ts, s) && Shape(s) && j < |s.jobs|
    ensures Shape(DoAbort(s, j))
    ensures forall c: nat :: c < MAX_CORES ==> (RefersOn(DoAbort(s, j), j, c) <==> Survives(s, j, c))
    ensures (exists c: nat :: c < MAX_CORES && RefersOn(DoAbort(s, j), j, c)) <==>
            (exists c: nat :: c < MAX_CORES && Survives(s, j, c))
  {
    Reached(cfg, ts, s);
    AbortShape(s, j);
    forall c: nat | c < MAX_CORES ensures RefersOn(DoAbort(s, j), j, c) <==> Survives(s, j, c) {
      assert PlaceOk(s, j, c) && HandlerOk(s, c);
      AbortRefers(s, j, c);
    }
  }

  lemma AbortRefers(s: State, j: JobId, c: nat)
    requires Shape(s) && j < |s.jobs| && c < MAX_CORES && PlaceOk(s, j, c) && HandlerOk(s, c) && Shape(DoAbort(s, j))
    ensures RefersOn(DoAbort(s, j), j, c) <==> Survives(s, j, c)
  {
    assert CoreShape(s.cores[c], |s.jobs|);
  }
}
