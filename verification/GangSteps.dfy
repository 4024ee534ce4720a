/** Every step of a normal run keeps the gang invariant. */
module GangSteps {
  import opened Npu
  import opened Scheduler
  import opened Sums
  import opened Gang
  import Fifo

  // ---------- facts about the pair at hand ----------

  /** A programmed chunk belongs to the job in the slot. */
  lemma ArmedIsSlot(s: State, c: nat)
    requires Inv(s) && c < MAX_CORES && s.cores[c].armed.Some?
    ensures s.cores[c].slot == s.cores[c].armed
  {
    assert CoreShape(s.cores[c], |s.jobs|);
    var j := s.cores[c].armed.value;
    assert PairOk(s, j, c) && Fifo.PlaceOk(s, j, c);
  }

  lemma HandlerPair(s: State, c: nat)
    requires Inv(s) && c < MAX_CORES && s.cores[c].irq != Idle
    ensures s.cores[c].irq.job < |s.jobs|
    ensures PairOk(s, s.cores[c].irq.job, c) && JobOk(s, s.cores[c].irq.job)
    ensures Fifo.HandlerOk(s, c) && Fifo.PlaceOk(s, s.cores[c].irq.job, c)
    ensures s.cores[c].armed in {None, Some(s.cores[c].irq.job)} || s.cores[c].irq.Freed? || s.cores[c].irq.Final?
  {
    assert CoreShape(s.cores[c], |s.jobs|);
    assert Fifo.HandlerOk(s, c);
    if s.cores[c].armed.Some? { ArmedIsSlot(s, c); }
  }

  // ---------- only nextCalls changes ----------

  lemma CallsKeep(s: State, c: nat, calls: nat)
    requires Inv(s) && c < MAX_CORES
    requires s.cores[c].slot.None? && s.cores[c].todo != [] ==> calls > 0
    requires Fifo.Inv(SetCore(s, c, s.cores[c].(nextCalls := calls)))
    ensures Inv(SetCore(s, c, s.cores[c].(nextCalls := calls)))
  {
    var s' := SetCore(s, c, s.cores[c].(nextCalls := calls));
    forall d | 0 <= d < MAX_CORES ensures WakeOk(s'.cores[d]) {
      assert WakeOk(s.cores[d]);
    }
    SameButCallsKeeps(s, s');
  }

  predicate SameButCalls(s: State, s': State)
    requires Shape(s) && Shape(s')
  {
    && s'.cfg == s.cfg && s'.specs == s.specs && s'.jobs == s.jobs && s'.accepted == s.accepted
    && (forall d :: 0 <= d < MAX_CORES ==> s'.cores[d] == s.cores[d].(nextCalls := s'.cores[d].nextCalls))
  }

  lemma SameButCallsKeeps(s: State, s': State)
    requires Inv(s) && Fifo.Inv(s') && SameButCalls(s, s')
    requires forall d :: 0 <= d < MAX_CORES ==> WakeOk(s'.cores[d])
    ensures Inv(s')
  {
    forall i, d | 0 <= i < |s'.jobs| && 0 <= d < MAX_CORES ensures PairOk(s', i, d) {
      CallsPair(s, s', i, d);
    }
    forall i | 0 <= i < |s'.jobs| ensures JobOk(s', i) {
      CallsJob(s, s', i);
    }
    forall d | 0 <= d < MAX_CORES ensures LogOk(s', d) {
      CallsLog(s, s', d);
    }
    CallsTaken(s, s');
  }

  lemma CallsPair(s: State, s': State, i: JobId, d: nat)
    requires Shape(s) && Shape(s') && SameButCalls(s, s') && i < |s.jobs| && d < MAX_CORES && PairOk(s, i, d)
    ensures PairOk(s', i, d)
  {
  }

  lemma CallsJob(s: State, s': State, i: JobId)
    requires Shape(s) && Shape(s') && SameButCalls(s, s') && i < |s.jobs| && JobOk(s, i)
    ensures JobOk(s', i)
  {
  }

  lemma CallsLog(s: State, s': State, d: nat)
    requires Shape(s) && Shape(s') && SameButCalls(s, s') && d < MAX_CORES && LogOk(s, d)
    ensures LogOk(s', d)
  {
  }

  lemma CallsTaken(s: State, s': State)
    requires Shape(s) && Shape(s') && SameButCalls(s, s') && AcceptOk(s)
    ensures AcceptOk(s')
  {
    assert Taken(s') == Taken(s);
  }

  // ---------- next ----------

  lemma NextKeeps(s: State, c: nat)
    requires Inv(s) && Enabled(s, NextCall(c))
    ensures Inv(DoNext(s, c))
  {
    Fifo.StepKeeps(s, NextCall(c));
    var core := s.cores[c];
    if core.slot.Some? || core.todo == [] {
      CallsKeep(s, c, core.nextCalls - 1);
    } else {
      PopKeeps(s, c);
    }
  }

  lemma PopKeeps(s: State, c: nat)
    requires Inv(s) && Enabled(s, NextCall(c)) && s.cores[c].slot.None? && s.cores[c].todo != []
    requires Fifo.Inv(DoNext(s, c))
    ensures Inv(DoNext(s, c))
  {
    var s' := DoNext(s, c);
    var j := s.cores[c].todo[0];
    assert CoreShape(s.cores[c], |s.jobs|);
    assert PairOk(s, j, c) && JobOk(s, j) && LogOk(s, c) && Fifo.PlaceOk(s, j, c);
    assert s.jobs[j].parts[c].place == Queued;
    PopPair(s, c, j);
    PopLog(s, c, j);
    OneStepKeeps(s, s', j, c);
  }

  lemma PopPair(s: State, c: nat, j: JobId)
    requires Shape(s) && Enabled(s, NextCall(c)) && s.cores[c].slot.None? && s.cores[c].todo != []
    requires j == s.cores[c].todo[0] && j < |s.jobs| && Shape(DoNext(s, c))
    requires PairOk(s, j, c) && JobOk(s, j) && s.jobs[j].parts[c].place == Queued
    ensures PairOk(DoNext(s, c), j, c) && JobOk(DoNext(s, c), j) && WakeOk(DoNext(s, c).cores[c])
    ensures OneStep(s, DoNext(s, c), j, c)
  {
  }

  lemma PopLog(s: State, c: nat, j: JobId)
    requires Shape(s) && Enabled(s, NextCall(c)) && s.cores[c].slot.None? && s.cores[c].todo != []
    requires j == s.cores[c].todo[0] && j < |s.jobs| && Shape(DoNext(s, c))
    requires PairOk(s, j, c) && LogOk(s, c) && s.jobs[j].parts[c].place == Queued
    ensures LogOk(DoNext(s, c), c)
  {
    var s' := DoNext(s, c);
    assert Programmed(s'.cores[c], j, s'.jobs[j].parts[c]) == 0;
  }

  // ---------- run_count ----------

  lemma DecRunKeeps(s: State, j: JobId, c: nat)
    requires Inv(s) && Enabled(s, DecRun(j, c))
    ensures Inv(DoDecRun(s, j, c))
  {
    Fifo.StepKeeps(s, DecRun(j, c));
    var s' := DoDecRun(s, j, c);
    forall i, d | 0 <= i < |s'.jobs| && 0 <= d < MAX_CORES ensures PairOk(s', i, d) {
      assert PairOk(s, i, d);
      if i == j { DecRunPair(s, j, c, d); }
    }
    forall i | 0 <= i < |s'.jobs| ensures JobOk(s', i) {
      assert JobOk(s, i);
      if i == j { DecRunJob(s, j, c); }
    }
    forall d | 0 <= d < MAX_CORES ensures WakeOk(s'.cores[d]) && LogOk(s', d) {
      assert WakeOk(s.cores[d]) && LogOk(s, d);
      DecRunLog(s, j, c, d);
    }
    DecRunTaken(s, j, c);
  }

  /** The barrier: when the count reaches zero every core of the job holds it and none is started. */
  lemma DecRunPair(s: State, j: JobId, c: nat, d: nat)
    requires Inv(s) && Enabled(s, DecRun(j, c)) && d < MAX_CORES && Shape(DoDecRun(s, j, c))
    ensures PairOk(DoDecRun(s, j, c), j, d)
  {
    assert JobOk(s, j) && PairOk(s, j, c) && PairOk(s, j, d) && Fifo.PlaceOk(s, j, d);
    CommitMatchesQueues(s.specs[j].mask, d);
    assert s.jobs[j].runCount >= 1 + Bit(d != c && s.jobs[j].parts[d].place == Queued);
  }

  lemma DecRunJob(s: State, j: JobId, c: nat)
    requires Shape(s) && Enabled(s, DecRun(j, c)) && JobOk(s, j) && PairOk(s, j, c) && Shape(DoDecRun(s, j, c))
    ensures JobOk(DoDecRun(s, j, c), j)
  {
    var s' := DoDecRun(s, j, c);
    forall d | 0 <= d < MAX_CORES
      ensures s'.jobs[j].parts[d].dec == (if d == c then false else s.jobs[j].parts[d].dec)
      ensures s'.jobs[j].parts[d].place == s.jobs[j].parts[d].place
      ensures s'.jobs[j].parts[d].counted == s.jobs[j].parts[d].counted
    {
    }
    assert s.jobs[j].parts[c].place == InSlot;
  }

  lemma DecRunLog(s: State, j: JobId, c: nat, d: nat)
    requires Shape(s) && Enabled(s, DecRun(j, c)) && d < MAX_CORES && Shape(DoDecRun(s, j, c)) && LogOk(s, d)
    ensures LogOk(DoDecRun(s, j, c), d)
  {
    assert CoreShape(s.cores[d], |s.jobs|);
    var s' := DoDecRun(s, j, c);
    assert forall i :: 0 <= i < |s.jobs| ==> s'.jobs[i].parts[d].submitCount == s.jobs[i].parts[d].submitCount;
  }

  lemma DecRunTaken(s: State, j: JobId, c: nat)
    requires Shape(s) && Enabled(s, DecRun(j, c)) && Shape(DoDecRun(s, j, c)) && AcceptOk(s)
    ensures AcceptOk(DoDecRun(s, j, c))
  {
    var s' := DoDecRun(s, j, c);
    assert forall d :: 0 <= d < MAX_CORES ==> s'.jobs[j].parts[d].submitCount == s.jobs[j].parts[d].submitCount;
    assert Taken(s') == Taken(s);
  }

  // ---------- commit ----------

  lemma JobLogStep(cfg: Config, specs: seq<JobSpec>, j: JobId, c: nat, k: nat)
    requires j < |specs| && |specs[j].subcore| == 5 && c < MAX_CORES
    ensures JobLog(cfg, specs, j, c, k + 1) ==
            JobLog(cfg, specs, j, c, k) + [Prog(j, ChunkAt(CoreRange(cfg, specs[j], c), cfg.maxSubmit, k))]
  {
  }

  lemma CommitKeeps(s: State, j: JobId, c: nat)
    requires Inv(s) && Enabled(s, Commit(j, c))
    ensures Inv(DoCommit(s, j, c))
  {
    Fifo.StepKeeps(s, Commit(j, c));
    assert PairOk(s, j, c) && JobOk(s, j) && LogOk(s, c) && Fifo.PlaceOk(s, j, c) && WakeOk(s.cores[c]);
    if s.cores[c].armed.Some? { ArmedIsSlot(s, c); }
    CommitPair(s, j, c);
    CommitLog(s, j, c);
    OneStepKeeps(s, DoCommit(s, j, c), j, c);
  }

  lemma CommitPair(s: State, j: JobId, c: nat)
    requires Shape(s) && Enabled(s, Commit(j, c)) && Shape(DoCommit(s, j, c))
    requires PairOk(s, j, c) && JobOk(s, j) && WakeOk(s.cores[c]) && s.cores[c].armed in {None, Some(j)}
    ensures PairOk(DoCommit(s, j, c), j, c) && JobOk(DoCommit(s, j, c), j) && WakeOk(DoCommit(s, j, c).cores[c])
    ensures OneStep(s, DoCommit(s, j, c), j, c)
  {
  }

  lemma CommitLog(s: State, j: JobId, c: nat)
    requires Shape(s) && Enabled(s, Commit(j, c)) && Shape(DoCommit(s, j, c))
    requires PairOk(s, j, c) && LogOk(s, c) && s.cores[c].slot == Some(j)
    ensures LogOk(DoCommit(s, j, c), c)
  {
    JobLogStep(s.cfg, s.specs, j, c, 0);
    assert Programmed(s.cores[c], j, s.jobs[j].parts[c]) == 0;
  }

  // ---------- the interrupt handler ----------

  lemma IrqEnterKeeps(s: State, c: nat)
    requires Inv(s) && Enabled(s, IrqEnter(c))
    ensures Inv(DoIrqEnter(s, c))
  {
    Fifo.StepKeeps(s, IrqEnter(c));
    assert CoreShape(s.cores[c], |s.jobs|);
    if s.cores[c].slot.None? {
      CallsKeep(s, c, s.cores[c].nextCalls + 1);
    } else {
      var j := s.cores[c].slot.value;
      assert PairOk(s, j, c) && JobOk(s, j) && LogOk(s, c) && Fifo.PlaceOk(s, j, c);
      IrqEnterPair(s, c, j);
      IrqEnterLog(s, c, j);
      OneStepKeeps(s, DoIrqEnter(s, c), j, c);
    }
  }

  lemma IrqEnterPair(s: State, c: nat, j: JobId)
    requires Shape(s) && Enabled(s, IrqEnter(c)) && Shape(DoIrqEnter(s, c))
    requires s.cores[c].slot == Some(j) && j < |s.jobs| && s.jobs[j].parts[c].place == InSlot
    requires PairOk(s, j, c) && JobOk(s, j)
    ensures PairOk(DoIrqEnter(s, c), j, c) && JobOk(DoIrqEnter(s, c), j) && WakeOk(DoIrqEnter(s, c).cores[c])
    ensures OneStep(s, DoIrqEnter(s, c), j, c)
  {
  }

  lemma IrqEnterLog(s: State, c: nat, j: JobId)
    requires Shape(s) && Enabled(s, IrqEnter(c)) && Shape(DoIrqEnter(s, c))
    requires s.cores[c].slot == Some(j) && j < |s.jobs| && LogOk(s, c)
    ensures LogOk(DoIrqEnter(s, c), c)
  {
  }

  lemma IrqStatusKeeps(s: State, c: nat, matched: bool)
    requires Inv(s) && Enabled(s, IrqStatus(c, matched)) && Normal(s, IrqStatus(c, matched))
    ensures Inv(DoIrqStatus(s, c, matched))
  {
    Fifo.StepKeeps(s, IrqStatus(c, matched));
    HandlerPair(s, c);
    assert LogOk(s, c);
    IrqStatusPair(s, c, matched, s.cores[c].irq.job);
    OneStepKeeps(s, DoIrqStatus(s, c, matched), s.cores[c].irq.job, c);
  }

  lemma IrqStatusPair(s: State, c: nat, matched: bool, j: JobId)
    requires Shape(s) && Enabled(s, IrqStatus(c, matched)) && Normal(s, IrqStatus(c, matched))
    requires Shape(DoIrqStatus(s, c, matched)) && j < |s.jobs| && s.cores[c].irq == Entered(j) &&
             s.cores[c].slot == Some(j)
    requires PairOk(s, j, c) && JobOk(s, j) && LogOk(s, c)
    ensures PairOk(DoIrqStatus(s, c, matched), j, c) && JobOk(DoIrqStatus(s, c, matched), j)
    ensures WakeOk(DoIrqStatus(s, c, matched).cores[c]) && LogOk(DoIrqStatus(s, c, matched), c)
    ensures OneStep(s, DoIrqStatus(s, c, matched), j, c)
  {
  }

  lemma DoneIncKeeps(s: State, c: nat)
    requires Inv(s) && Enabled(s, DoneInc(c))
    ensures Inv(DoDoneInc(s, c))
  {
    Fifo.StepKeeps(s, DoneInc(c));
    HandlerPair(s, c);
    assert LogOk(s, c);
    DoneIncPair(s, c, s.cores[c].irq.job);
    OneStepKeeps(s, DoDoneInc(s, c), s.cores[c].irq.job, c);
  }

  lemma DoneIncPair(s: State, c: nat, j: JobId)
    requires Shape(s) && Enabled(s, DoneInc(c)) && Shape(DoDoneInc(s, c))
    requires j < |s.jobs| && s.cores[c].irq == Accepted(j) && s.cores[c].slot == Some(j)
    requires PairOk(s, j, c) && JobOk(s, j) && LogOk(s, c)
    ensures PairOk(DoDoneInc(s, c), j, c) && JobOk(DoDoneInc(s, c), j)
    ensures WakeOk(DoDoneInc(s, c).cores[c]) && LogOk(DoDoneInc(s, c), c)
    ensures OneStep(s, DoDoneInc(s, c), j, c)
  {
  }

  lemma RecommitKeeps(s: State, c: nat)
    requires Inv(s) && Enabled(s, Recommit(c))
    ensures Inv(DoRecommit(s, c))
  {
    Fifo.StepKeeps(s, Recommit(c));
    HandlerPair(s, c);
    assert LogOk(s, c);
    RecommitPair(s, c, s.cores[c].irq.job);
    RecommitLog(s, c, s.cores[c].irq.job);
    OneStepKeeps(s, DoRecommit(s, c), s.cores[c].irq.job, c);
  }

  lemma RecommitPair(s: State, c: nat, j: JobId)
    requires Shape(s) && Enabled(s, Recommit(c)) && Shape(DoRecommit(s, c))
    requires j < |s.jobs| && s.cores[c].irq == Again(j) && s.cores[c].slot == Some(j) &&
             s.cores[c].armed in {None, Some(j)}
    requires PairOk(s, j, c) && JobOk(s, j)
    ensures PairOk(DoRecommit(s, c), j, c) && JobOk(DoRecommit(s, c), j) && WakeOk(DoRecommit(s, c).cores[c])
    ensures OneStep(s, DoRecommit(s, c), j, c)
  {
  }

  lemma RecommitLog(s: State, c: nat, j: JobId)
    requires Shape(s) && Enabled(s, Recommit(c)) && Shape(DoRecommit(s, c))
    requires j < |s.jobs| && s.cores[c].irq == Again(j) && s.cores[c].slot == Some(j)
    requires PairOk(s, j, c) && LogOk(s, c)
    ensures LogOk(DoRecommit(s, c), c)
  {
    JobLogStep(s.cfg, s.specs, j, c, s.jobs[j].parts[c].submitCount);
  }

  lemma ReleaseKeeps(s: State, c: nat)
    requires Inv(s) && Enabled(s, Release(c))
    ensures Inv(DoRelease(s, c))
  {
    Fifo.StepKeeps(s, Release(c));
    HandlerPair(s, c);
    assert LogOk(s, c);
    ReleasePair(s, c, s.cores[c].irq.job);
    ReleaseLog(s, c, s.cores[c].irq.job);
    OneStepKeeps(s, DoRelease(s, c), s.cores[c].irq.job, c);
  }

  lemma ReleasePair(s: State, c: nat, j: JobId)
    requires Shape(s) && Enabled(s, Release(c)) && Shape(DoRelease(s, c))
    requires j < |s.jobs| && s.cores[c].irq == Last(j) && s.cores[c].slot == Some(j) &&
             s.jobs[j].parts[c].place == InSlot
    requires PairOk(s, j, c) && JobOk(s, j)
    ensures PairOk(DoRelease(s, c), j, c) && JobOk(DoRelease(s, c), j) && WakeOk(DoRelease(s, c).cores[c])
    ensures OneStep(s, DoRelease(s, c), j, c)
  {
  }

  lemma ReleaseLog(s: State, c: nat, j: JobId)
    requires Shape(s) && Enabled(s, Release(c)) && Shape(DoRelease(s, c))
    requires j < |s.jobs| && s.cores[c].irq == Last(j) && s.cores[c].slot == Some(j) &&
             s.jobs[j].parts[c].place == InSlot
    requires PairOk(s, j, c) && LogOk(s, c)
    ensures LogOk(DoRelease(s, c), c)
  {
    LogsAppend(s.cfg, s.specs, c, s.cores[c].released, j);
  }

  lemma CountDownKeeps(s: State, c: nat)
    requires Inv(s) && Enabled(s, CountDown(c))
    ensures Inv(DoCountDown(s, c))
  {
    Fifo.StepKeeps(s, CountDown(c));
    HandlerPair(s, c);
    assert LogOk(s, c);
    CountDownPair(s, c, s.cores[c].irq.job);
    CountDownLog(s, c, s.cores[c].irq.job);
    OneStepKeeps(s, DoCountDown(s, c), s.cores[c].irq.job, c);
  }

  lemma CountDownPair(s: State, c: nat, j: JobId)
    requires Shape(s) && Enabled(s, CountDown(c)) && Shape(DoCountDown(s, c))
    requires j < |s.jobs| && s.cores[c].irq == Freed(j)
    requires PairOk(s, j, c) && JobOk(s, j)
    ensures PairOk(DoCountDown(s, c), j, c) && JobOk(DoCountDown(s, c), j) && WakeOk(DoCountDown(s, c).cores[c])
    ensures OneStep(s, DoCountDown(s, c), j, c)
  {
  }

  /** A handler that has left the slot no longer matters for the log. */
  lemma CountDownLog(s: State, c: nat, j: JobId)
    requires Shape(s) && Enabled(s, CountDown(c)) && Shape(DoCountDown(s, c))
    requires j < |s.jobs| && s.cores[c].irq == Freed(j) && LogOk(s, c)
    ensures LogOk(DoCountDown(s, c), c)
  {
    assert CoreShape(s.cores[c], |s.jobs|);
  }

  lemma CompleteKeeps(s: State, c: nat)
    requires Inv(s) && Enabled(s, Complete(c))
    ensures Inv(DoComplete(s, c))
  {
    Fifo.StepKeeps(s, Complete(c));
    HandlerPair(s, c);
    assert LogOk(s, c);
    CompletePair(s, c, s.cores[c].irq.job);
    OneStepKeeps(s, DoComplete(s, c), s.cores[c].irq.job, c);
  }

  lemma CompletePair(s: State, c: nat, j: JobId)
    requires Shape(s) && Enabled(s, Complete(c)) && Shape(DoComplete(s, c))
    requires j < |s.jobs| && s.cores[c].irq == Final(j)
    requires PairOk(s, j, c) && JobOk(s, j) && LogOk(s, c)
    ensures PairOk(DoComplete(s, c), j, c) && JobOk(DoComplete(s, c), j) && WakeOk(DoComplete(s, c).cores[c])
    ensures LogOk(DoComplete(s, c), c) && OneStep(s, DoComplete(s, c), j, c)
  {
    assert CoreShape(s.cores[c], |s.jobs|);
  }

  // ---------- submit ----------

  lemma SubmitKeeps(s: State, spec: JobSpec)
    requires Inv(s) && ValidSpec(s.cfg, spec)
    ensures Inv(DoSubmit(s, spec))
  {
    Fifo.StepKeeps(s, Submit(spec));
    var s' := DoSubmit(s, spec);
    forall i, d | 0 <= i < |s'.jobs| && 0 <= d < MAX_CORES ensures PairOk(s', i, d) {
      if i < |s.jobs| { assert PairOk(s, i, d); }
      SubmitPair(s, spec, i, d);
    }
    forall i | 0 <= i < |s'.jobs| ensures JobOk(s', i) {
      if i < |s.jobs| { SubmitOldJob(s, spec, i); } else { SubmitNewJob(s, spec); }
    }
    forall d | 0 <= d < MAX_CORES ensures WakeOk(s'.cores[d]) && LogOk(s', d) {
      assert WakeOk(s.cores[d]) && LogOk(s, d);
      SubmitLog(s, spec, d);
    }
    SubmitTaken(s, spec);
  }

  lemma SubmitPair(s: State, spec: JobSpec, i: JobId, d: nat)
    requires Shape(s) && ValidSpec(s.cfg, spec) && Shape(DoSubmit(s, spec)) && i <= |s.jobs| && d < MAX_CORES
    requires i < |s.jobs| ==> PairOk(s, i, d)
    ensures PairOk(DoSubmit(s, spec), i, d)
  {
    assert CoreShape(s.cores[d], |s.jobs|);
  }

  lemma SubmitOldJob(s: State, spec: JobSpec, i: JobId)
    requires Shape(s) && ValidSpec(s.cfg, spec) && Shape(DoSubmit(s, spec)) && i < |s.jobs| && JobOk(s, i)
    ensures JobOk(DoSubmit(s, spec), i)
  {
    var s' := DoSubmit(s, spec);
    assert s'.jobs[i] == s.jobs[i];
    assert s'.cores[0].irq == s.cores[0].irq && s'.cores[1].irq == s.cores[1].irq && s'.cores[2].irq == s.cores[2].irq;
  }

  /** A fresh job counts the cores of its mask, and no handler knows it. */
  lemma SubmitNewJob(s: State, spec: JobSpec)
    requires Shape(s) && ValidSpec(s.cfg, spec) && Shape(DoSubmit(s, spec))
    ensures JobOk(DoSubmit(s, spec), |s.jobs|)
  {
    var s', j := DoSubmit(s, spec), |s.jobs|;
    FreshCounts(spec);
    assert s'.jobs[j] == NewJob(spec);
    assert CoreShape(s.cores[0], j) && CoreShape(s.cores[1], j) && CoreShape(s.cores[2], j);
    assert Finals(s'.cores, j) == 0;
  }

  lemma FreshCounts(spec: JobSpec)
    requires 1 <= spec.mask <= 7
    ensures CountsOk(NewJob(spec), 0)
  {
    var b0, b1, b2 := HasCore(spec.mask, 0), HasCore(spec.mask, 1), HasCore(spec.mask, 2);
    var parts := NewJob(spec).parts;
    assert (parts[0].place == Queued <==> b0) && (parts[1].place == Queued <==> b1) &&
           (parts[2].place == Queued <==> b2);
    CommitMatchesQueues(spec.mask, 0);
  }

  lemma SubmitLog(s: State, spec: JobSpec, d: nat)
    requires Shape(s) && ValidSpec(s.cfg, spec) && Shape(DoSubmit(s, spec)) && d < MAX_CORES
    requires LogOk(s, d)
    ensures LogOk(DoSubmit(s, spec), d)
  {
    assert CoreShape(s.cores[d], |s.jobs|);
    LogsExtend(s.cfg, s.specs, spec, d, s.cores[d].released);
  }

  lemma SubmitTaken(s: State, spec: JobSpec)
    requires Shape(s) && ValidSpec(s.cfg, spec) && Shape(DoSubmit(s, spec)) && AcceptOk(s)
    ensures AcceptOk(DoSubmit(s, spec))
  {
    var s' := DoSubmit(s, spec);
    assert CoreShape(s.cores[0], |s.jobs|) && CoreShape(s.cores[1], |s.jobs|) && CoreShape(s.cores[2], |s.jobs|);
    assert Taken(s') == Taken(s) + [0];
    SumAppend(Taken(s), 0);
  }

  // ---------- every step, every run ----------

  lemma StepKeeps(s: State, t: Step)
    requires Inv(s) && Enabled(s, t) && Normal(s, t)
    ensures Inv(Apply(s, t))
  {
    match t {
      case Submit(spec) => SubmitKeeps(s, spec);
      case NextCall(c) => NextKeeps(s, c);
      case DecRun(j, c) => DecRunKeeps(s, j, c);
      case Commit(j, c) => CommitKeeps(s, j, c);
      case IrqEnter(c) => IrqEnterKeeps(s, c);
      case IrqStatus(c, matched) => IrqStatusKeeps(s, c, matched);
      case DoneInc(c) => DoneIncKeeps(s, c);
      case Recommit(c) => RecommitKeeps(s, c);
      case Release(c) => ReleaseKeeps(s, c);
      case CountDown(c) => CountDownKeeps(s, c);
      case Complete(c) => CompleteKeeps(s, c);
    }
  }

  lemma {:induction false} RunKeeps(s0: State, ts: seq<Step>, s: State)
    requires Inv(s0) && NormalRuns(s0, ts, s)
    ensures Inv(s)
    decreases |ts|
  {
    if ts == [] {
      RunNil(true, s0, s);
    } else {
      RunHead(true, s0, ts, s);
      StepKeeps(s0, ts[0]);
      RunKeeps(Apply(s0, ts[0]), ts[1..], s);
    }
  }

  /** Every state of every normal run from power-up satisfies the invariant. */
  lemma Reachable(cfg: Config, ts: seq<Step>, s: State)
    requires ValidConfig(cfg) && NormalRuns(Init(cfg), ts, s)
    ensures Inv(s)
  {
    InitInv(cfg);
    RunKeeps(Init(cfg), ts, s);
  }
}
