/** The scheduler and the IOMMU domain protocol together: a job is enqueued with the reference its
    submitter took, and the completion block gives that reference back. */
module World {
  import opened Npu
  import opened Scheduler
  import Gang
  import GangSteps
  import Fifo
  import Iommu

  /** `owner[j]` is the reference job `j` carries. */
  datatype World = World(s: State, p: Iommu.Proto, owner: seq<Iommu.Tid>)

  datatype Event =
    | Domain(t: Iommu.Tid, m: Iommu.Move)        // any thread inside get, or a put outside the scheduler
    | Enqueue(t: Iommu.Tid, spec: JobSpec)       // rknpu_job_schedule after a successful get
    | Sched(step: Step)                          // any other scheduler step
    | Finish(c: nat)                             // completion block, including the domain put

  predicate Sized(w: World) {
    Shape(w.s) && |w.owner| == |w.s.jobs| && Iommu.DomainsOk(w.p.dom)
  }

  /** The reference is on loan to an unfinished job. */
  predicate OnLoan(w: World, t: Iommu.Tid)
    requires Sized(w)
  {
    exists j :: 0 <= j < |w.owner| && w.owner[j] == t && !w.s.jobs[j].done
  }

  predicate Can(w: World, e: Event)
    requires Sized(w)
  {
    match e
    case Domain(t, m) => Iommu.CanMove(w.p, t, m) && (m.Release? ==> !OnLoan(w, t))
    case Enqueue(t, spec) =>
      Enabled(w.s, Submit(spec)) && Iommu.At(w.p, t) == Iommu.Holding(spec.domain) && !OnLoan(w, t)
    case Sched(step) => Enabled(w.s, step) && Normal(w.s, step) && !step.Submit? && !step.Complete?
    case Finish(c) =>
      && Enabled(w.s, Complete(c))
      && w.s.cores[c].irq.job < |w.owner|
      && Iommu.CanMove(w.p, w.owner[w.s.cores[c].irq.job], Iommu.Release)
  }

  function After(w: World, e: Event): World
    requires Sized(w) && Can(w, e)
  {
    match e
    case Domain(t, m) => w.(p := Iommu.Moved(w.p, t, m))
    case Enqueue(t, spec) => w.(s := Apply(w.s, Submit(spec)), owner := w.owner + [t])
    case Sched(step) => w.(s := Apply(w.s, step))
    case Finish(c) =>
      w.(s := Apply(w.s, Complete(c)), p := Iommu.Moved(w.p, w.owner[w.s.cores[c].irq.job], Iommu.Release))
  }

  /** Every unfinished job holds its own reference to its own domain. */
  predicate LoanOk(w: World, j: JobId)
    requires Sized(w) && j < |w.s.jobs|
  {
    !w.s.jobs[j].done ==>
      && Iommu.At(w.p, w.owner[j]) == Iommu.Holding(w.s.specs[j].domain)
      && (forall i :: 0 <= i < |w.owner| && i != j && w.owner[i] == w.owner[j] ==> w.s.jobs[i].done)
  }

  ghost predicate Inv(w: World) {
    && Sized(w)
    && Gang.Inv(w.s)
    && Iommu.ProtoOk(w.p)
    && (forall j :: 0 <= j < |w.s.jobs| ==> LoanOk(w, j))
  }

  function Start(cfg: Config, d: Iommu.Domains): World { World(Init(cfg), Iommu.ProtoInit(d), []) }

  /** Only the completion block sets DONE. */
  lemma DoneFrame(s: State, t: Step, j: JobId)
    requires Shape(s) && Enabled(s, t) && !t.Submit? && !t.Complete? && j < |s.jobs|
    ensures |Apply(s, t).jobs| == |s.jobs| && Apply(s, t).jobs[j].done == s.jobs[j].done
  {
  }

  lemma DomainKeeps(w: World, t: Iommu.Tid, m: Iommu.Move)
    requires Inv(w) && Can(w, Domain(t, m))
    ensures Inv(After(w, Domain(t, m)))
    ensures Iommu.Synced(w.p.dom) ==> Iommu.Synced(After(w, Domain(t, m)).p.dom)
  {
    var w' := After(w, Domain(t, m));
    Iommu.MoveKeeps(w.p, t, m);
    forall j | 0 <= j < |w'.s.jobs| ensures LoanOk(w', j) {
      assert LoanOk(w, j);
    }
  }

  lemma EnqueueKeeps(w: World, t: Iommu.Tid, spec: JobSpec)
    requires Inv(w) && Can(w, Enqueue(t, spec))
    ensures Inv(After(w, Enqueue(t, spec)))
  {
    var w' := After(w, Enqueue(t, spec));
    GangSteps.StepKeeps(w.s, Submit(spec));
    ApplyShape(w.s, Submit(spec));
    forall j | 0 <= j < |w'.s.jobs| ensures LoanOk(w', j) {
      if j < |w.s.jobs| { assert LoanOk(w, j); }
    }
  }

  lemma SchedKeeps(w: World, step: Step)
    requires Inv(w) && Can(w, Sched(step))
    ensures Inv(After(w, Sched(step)))
  {
    var w' := After(w, Sched(step));
    GangSteps.StepKeeps(w.s, step);
    ApplyShape(w.s, step);
    forall j | 0 <= j < |w.s.jobs| ensures |w'.s.jobs| == |w.s.jobs| && w'.s.jobs[j].done == w.s.jobs[j].done {
      DoneFrame(w.s, step, j);
    }
    if w.s.jobs == [] { assert |w'.s.jobs| == |w'.s.specs|; }
    SameLoans(w, w');
  }

  lemma SameLoans(w: World, w': World)
    requires Sized(w) && Sized(w') && w'.p == w.p && w'.owner == w.owner && w'.s.specs == w.s.specs
    requires forall j :: 0 <= j < |w.s.jobs| ==> w'.s.jobs[j].done == w.s.jobs[j].done
    requires forall j :: 0 <= j < |w.s.jobs| ==> LoanOk(w, j)
    ensures forall j :: 0 <= j < |w'.s.jobs| ==> LoanOk(w', j)
  {
    forall j | 0 <= j < |w'.s.jobs| ensures LoanOk(w', j) {
      assert LoanOk(w, j);
    }
  }

  lemma FinishKeeps(w: World, c: nat)
    requires Inv(w) && Can(w, Finish(c))
    ensures Inv(After(w, Finish(c)))
    ensures Iommu.Synced(w.p.dom) ==> Iommu.Synced(After(w, Finish(c)).p.dom)
  {
    var w' := After(w, Finish(c));
    GangSteps.StepKeeps(w.s, Complete(c));
    ApplyShape(w.s, Complete(c));
    var j0 := w.s.cores[c].irq.job;
    Iommu.MoveKeeps(w.p, w.owner[j0], Iommu.Release);
    FinalNotDone(w.s, c);
    FinishLoans(w, c, j0);
  }

  lemma FinalNotDone(s: State, c: nat)
    requires Gang.Inv(s) && c < MAX_CORES && s.cores[c].irq.Final?
    ensures s.cores[c].irq.job < |s.jobs| && !s.jobs[s.cores[c].irq.job].done
  {
    GangSteps.HandlerPair(s, c);
    assert c == 0 || c == 1 || c == 2;
  }

  lemma FinishLoans(w: World, c: nat, j0: JobId)
    requires Sized(w) && Can(w, Finish(c)) && Sized(After(w, Finish(c)))
    requires j0 == w.s.cores[c].irq.job && j0 < |w.s.jobs| && !w.s.jobs[j0].done
    requires forall j :: 0 <= j < |w.s.jobs| ==> LoanOk(w, j)
    ensures forall j :: 0 <= j < |After(w, Finish(c)).s.jobs| ==> LoanOk(After(w, Finish(c)), j)
  {
    var w' := After(w, Finish(c));
    forall j | 0 <= j < |w'.s.jobs| ensures LoanOk(w', j) {
      assert LoanOk(w, j) && LoanOk(w, j0);
    }
  }

  lemma EventKeeps(w: World, e: Event)
    requires Inv(w) && Can(w, e)
    ensures Inv(After(w, e))
    ensures Iommu.Synced(w.p.dom) ==> Iommu.Synced(After(w, e).p.dom)
  {
    match e {
      case Domain(t, m) => DomainKeeps(w, t, m);
      case Enqueue(t, spec) => EnqueueKeeps(w, t, spec);
      case Sched(step) => SchedKeeps(w, step);
      case Finish(c) => FinishKeeps(w, c);
    }
  }

  ghost predicate WorldRuns(w0: World, es: seq<Event>, w: World)
    decreases |es|
  {
    if es == [] then w == w0
    else Sized(w0) && Can(w0, es[0]) && WorldRuns(After(w0, es[0]), es[1..], w)
  }

  lemma {:induction false} WorldKeeps(w0: World, es: seq<Event>, w: World)
    requires Inv(w0) && WorldRuns(w0, es, w)
    ensures Inv(w) && (Iommu.Synced(w0.p.dom) ==> Iommu.Synced(w.p.dom))
    decreases |es|
  {
    if es != [] {
      EventKeeps(w0, es[0]);
      WorldKeeps(After(w0, es[0]), es[1..], w);
    }
  }

  lemma StartInv(cfg: Config, d: Iommu.Domains)
    requires ValidConfig(cfg) && Iommu.DomainsOk(d)
    ensures Inv(Start(cfg, d))
  {
    Gang.InitInv(cfg);
  }

  lemma WorldReachable(cfg: Config, d: Iommu.Domains, es: seq<Event>, w: World)
    requires ValidConfig(cfg) && Iommu.DomainsOk(d) && WorldRuns(Start(cfg, d), es, w)
    ensures Inv(w) && (Iommu.Synced(d) ==> Iommu.Synced(w.p.dom))
  {
    StartInv(cfg, d);
    WorldKeeps(Start(cfg, d), es, w);
  }

  /** The completion block never finds its reference gone, so the composition blocks nothing: whenever
      the scheduler may complete a job, the domain put it makes is enabled too. */
  lemma FinishNeverBlocked(cfg: Config, d: Iommu.Domains, es: seq<Event>, w: World, c: nat)
    requires ValidConfig(cfg) && Iommu.DomainsOk(d) && WorldRuns(Start(cfg, d), es, w)
    requires Sized(w) && Enabled(w.s, Complete(c))
    ensures Can(w, Finish(c))
  {
    WorldReachable(cfg, d, es, w);
    FinishReady(w, c);
  }

  lemma FinishReady(w: World, c: nat)
    requires Inv(w) && c < MAX_CORES && w.s.cores[c].irq.Final?
    ensures Can(w, Finish(c))
  {
    FinalNotDone(w.s, c);
    var j := w.s.cores[c].irq.job;
    assert LoanOk(w, j);
    assert Iommu.CanMove(w.p, w.owner[j], Iommu.Release);
  }

  /** The completion block gives back exactly the reference its job was enqueued with, once: the job
      becomes done, its thread stops holding and every other thread stays where it is. */
  lemma FinishReleases(cfg: Config, d: Iommu.Domains, es: seq<Event>, w: World, c: nat)
    requires ValidConfig(cfg) && Iommu.DomainsOk(d) && WorldRuns(Start(cfg, d), es, w)
    requires Sized(w) && Can(w, Finish(c))
    ensures var j, w' := w.s.cores[c].irq.job, After(w, Finish(c));
            && j < |w.s.jobs| && j < |w'.s.jobs| && !w.s.jobs[j].done && w'.s.jobs[j].done
            && Iommu.At(w.p, w.owner[j]) == Iommu.Holding(w.s.specs[j].domain)
            && Iommu.At(w'.p, w.owner[j]) == Iommu.Out
            && w'.p.refs == w.p.refs - 1 && w'.owner == w.owner
            && (forall t: Iommu.Tid :: t != w.owner[j] ==> Iommu.At(w'.p, t) == Iommu.At(w.p, t))
  {
    WorldReachable(cfg, d, es, w);
    FinalNotDone(w.s, c);
    assert LoanOk(w, w.s.cores[c].irq.job);
    FinishMoves(w.p, w.owner[w.s.cores[c].irq.job]);
    FinishCompletes(w.s, c);
  }

  lemma FinishMoves(p: Iommu.Proto, t: Iommu.Tid)
    requires Iommu.DomainsOk(p.dom) && Iommu.CanMove(p, t, Iommu.Release)
    ensures var p' := Iommu.Moved(p, t, Iommu.Release);
            && Iommu.At(p', t) == Iommu.Out && p'.refs == p.refs - 1
            && (forall u: Iommu.Tid :: u != t ==> Iommu.At(p', u) == Iommu.At(p, u))
  {
  }

  lemma FinishCompletes(s: State, c: nat)
    requires Shape(s) && Enabled(s, Complete(c))
    ensures var j, s' := s.cores[c].irq.job, Apply(s, Complete(c));
            j < |s.jobs| && |s'.jobs| == |s.jobs| && s'.jobs[j].done
  {
    assert CoreShape(s.cores[c], |s.jobs|);
  }

  /** An enqueue takes no reference of its own: it hands the submitter's over to the job. */
  lemma EnqueueLends(w: World, t: Iommu.Tid, spec: JobSpec)
    requires Inv(w) && Can(w, Enqueue(t, spec))
    ensures var w' := After(w, Enqueue(t, spec));
            && Sized(w') && w'.p == w.p && |w'.s.jobs| == |w.s.jobs| + 1
            && w'.s.specs[|w.s.jobs|] == spec && w'.owner[|w.s.jobs|] == t && !w'.s.jobs[|w.s.jobs|].done
            && OnLoan(w', t)
  {
    ApplyShape(w.s, Submit(spec));
    var w', j := After(w, Enqueue(t, spec)), |w.s.jobs|;
    assert w'.s.jobs[j] == NewJob(spec) && w'.owner[j] == t;
  }

  /** In every run, all jobs queued or running at the same time have one domain, the device's current
      one, and each of them keeps the count above zero. */
  lemma OneDomainAtATime(cfg: Config, d: Iommu.Domains, es: seq<Event>, w: World, j: JobId, c: nat)
    requires ValidConfig(cfg) && Iommu.DomainsOk(d) && WorldRuns(Start(cfg, d), es, w)
    requires Sized(w) && j < |w.s.jobs| && c < MAX_CORES
    requires j in w.s.cores[c].todo || w.s.cores[c].slot == Some(j)
    ensures w.s.specs[j].domain == w.p.dom.current && w.p.refs > 0
  {
    WorldReachable(cfg, d, es, w);
    ActiveNotDone(w.s, j, c);
    LiveHoldsDomain(w, j);
  }

  lemma ActiveNotDone(s: State, j: JobId, c: nat)
    requires Gang.Inv(s) && j < |s.jobs| && c < MAX_CORES
    requires j in s.cores[c].todo || s.cores[c].slot == Some(j)
    ensures !s.jobs[j].done
  {
    assert Gang.JobOk(s, j) && Gang.PairOk(s, j, c) && Fifo.PlaceOk(s, j, c);
    assert c == 0 || c == 1 || c == 2;
  }

  lemma LiveHoldsDomain(w: World, j: JobId)
    requires Inv(w) && j < |w.s.jobs| && !w.s.jobs[j].done
    ensures w.s.specs[j].domain == w.p.dom.current && w.p.refs > 0
  {
    assert LoanOk(w, j);
    var t := w.owner[j];
    assert Iommu.ThreadOk(w.p, t);
    assert t in Iommu.Holders(w.p);
  }

  /** No chunk is ever programmed under another job's domain: the driver's current domain is the job's,
      and a device that started in step is attached to it. */
  lemma ChunksUnderOwnDomain(cfg: Config, d: Iommu.Domains, es: seq<Event>, w: World, step: Step)
    requires ValidConfig(cfg) && Iommu.DomainsOk(d) && WorldRuns(Start(cfg, d), es, w)
    requires Sized(w) && Enabled(w.s, step) && (step.Commit? || step.Recommit?)
    ensures var j := if step.Commit? then step.j else w.s.cores[step.c].irq.job;
            && j < |w.s.specs| && w.s.specs[j].domain == w.p.dom.current
            && (Iommu.Synced(d) ==> w.p.dom.attached == w.p.dom.table[w.s.specs[j].domain])
  {
    WorldReachable(cfg, d, es, w);
    if step.Recommit? { GangSteps.HandlerPair(w.s, step.c); }
    var j := if step.Commit? then step.j else w.s.cores[step.c].irq.job;
    assert Gang.PairOk(w.s, j, step.c) && Fifo.PlaceOk(w.s, j, step.c);
    ActiveNotDone(w.s, j, step.c);
    LiveHoldsDomain(w, j);
  }

  /** While a job is unfinished the device does not change domain. */
  lemma DomainPinned(cfg: Config, d: Iommu.Domains, es: seq<Event>, w: World, e: Event, j: JobId)
    requires ValidConfig(cfg) && Iommu.DomainsOk(d) && WorldRuns(Start(cfg, d), es, w)
    requires Sized(w) && Can(w, e) && j < |w.s.jobs| && !w.s.jobs[j].done
    ensures After(w, e).p.dom.current == w.p.dom.current
  {
    WorldReachable(cfg, d, es, w);
    LiveHoldsDomain(w, j);
    if e.Domain? {
      assert Iommu.ThreadOk(w.p, e.t);
      PinnedMove(w.p, e.t, e.m);
    } else if e.Finish? {
      PinnedMove(w.p, w.owner[w.s.cores[e.c].irq.job], Iommu.Release);
    }
  }

  lemma PinnedMove(p: Iommu.Proto, t: Iommu.Tid, m: Iommu.Move)
    requires Iommu.DomainsOk(p.dom) && Iommu.CanMove(p, t, m) && p.refs > 0
    requires m.DoSwitch? ==> Iommu.ThreadOk(p, t)
    ensures Iommu.Moved(p, t, m).dom.current == p.dom.current
  {
  }
}
