/** Blocking submits: rknpu_job_wait and what a zero return promises. */
module Wait {
  import opened Npu
  import opened Scheduler
  import GangSteps
  import Coverage


  /** What one turn of the wait loop observes: the value of wait_event_timeout (zero on timeout,
      negative never in this uninterruptible form), whether the job had been committed, and the
      time since then in microseconds. */
  datatype Turn = Turn(ret: nat, committed: bool, elapsedUs: int)

  /** The loop goes round again after this turn. */
  predicate GoesOn(w: Turn, timeoutMs: nat, waits: nat) {
    waits < 3 && w.ret == 0 && (!w.committed || w.elapsedUs < timeoutMs * 1000)
  }

  /** The return code as rknpu_job_wait computes it after the loop. */
  function ReturnCode(ret: nat, lastTask: bool, done: bool): int {
    if !lastTask then -EINVAL
    else if ret == 0 then -ETIMEDOUT
    else if !done then -EINVAL
    else 0
  }

  /** rknpu_job_wait.  `turns(i)` is what turn i observes, `lastTask` says last_task is set,
      and `done` is the DONE flag as read after the loop. */
  method JobWait(timeoutMs: nat, turns: nat -> Turn, lastTask: bool, done: bool) returns (code: int, waits: nat)
    ensures 1 <= waits <= 3
    ensures forall i :: 0 <= i < waits - 1 ==> GoesOn(turns(i), timeoutMs, i + 1)
    ensures !GoesOn(turns(waits - 1), timeoutMs, waits)
    ensures forall i :: 0 <= i < waits - 1 ==>
              turns(i).ret == 0 && (turns(i).committed ==> turns(i).elapsedUs < timeoutMs * 1000)
    ensures waits < 3 && turns(waits - 1).ret == 0 ==>
              turns(waits - 1).committed && turns(waits - 1).elapsedUs >= timeoutMs * 1000
    ensures code == ReturnCode(turns(waits - 1).ret, lastTask, done)
    ensures code == 0 <==> lastTask && done && turns(waits - 1).ret > 0
    ensures code == -ETIMEDOUT <==> lastTask && turns(waits - 1).ret == 0
    ensures code == -EINVAL <==> !lastTask || (turns(waits - 1).ret > 0 && !done)
    ensures code == 0 ==> forall i :: 0 <= i < waits - 1 ==> turns(i).ret == 0
  {
    var ret := 0;
    var goOn := true;
    waits := 0;
    while goOn
      invariant 0 <= waits <= 3
      invariant goOn ==> waits < 3
      invariant waits == 0 ==> goOn
      invariant waits > 0 ==> ret == turns(waits - 1).ret
      invariant waits > 0 ==> (goOn <==> GoesOn(turns(waits - 1), timeoutMs, waits))
      invariant forall i :: 0 <= i < waits - 1 ==> GoesOn(turns(i), timeoutMs, i + 1)
      decreases 3 - waits, goOn
    {
      var turn := turns(waits);
      ret := turn.ret;
      waits := waits + 1;
      if waits >= 3 {
        goOn := false;
      } else if ret == 0 {
        goOn := if !turn.committed then true else turn.elapsedUs < timeoutMs * 1000;
      } else {
        goOn := false;
      }
    }
    if !lastTask {
      code := -EINVAL;
    } else if ret == 0 {
      code := -ETIMEDOUT;
    } else if !done {
      code := -EINVAL;
    } else {
      code := 0;
    }
  }

  // ---------- in a run ----------

  /** last_task is set: some chunk of the job has been programmed. */
  predicate HasLastTask(s: State, j: JobId)
    requires |s.cores| == MAX_CORES
  {
    exists c :: 0 <= c < MAX_CORES && Coverage.ChunksOf(s.cores[c].log, j) != []
  }

  /** A job marked DONE has a last task. */
  lemma DoneHasLastTask(cfg: Config, ts: seq<Step>, s: State, j: JobId)
    requires ValidConfig(cfg) && NormalRuns(Init(cfg), ts, s) && j < |s.jobs| && s.jobs[j].done
    ensures |s.cores| == MAX_CORES && HasLastTask(s, j)
  {
    GangSteps.Reachable(cfg, ts, s);
    assert ValidSpec(s.cfg, s.specs[j]);
    CommitMatchesQueues(s.specs[j].mask, 0);
    var c: nat :| c < MAX_CORES && HasCore(s.specs[j].mask, c);
    Coverage.DoneHasChunks(s, j, c);
  }

  /** The wait of a blocking PC submit in a normal run: its last wait ends in state `seen`, last_task is
      read in state `read` and DONE in state `check`, each some steps later.  wait_event_timeout reports
      a positive rest exactly if it sees DONE.  Then the call returns zero exactly if DONE was seen, it
      times out exactly if DONE was not seen and a chunk has been programmed, and it fails with EINVAL
      exactly if none has. */
  lemma BlockingExact(
    cfg: Config, ts: seq<Step>, seen: State, more: seq<Step>, read: State, rest: seq<Step>, check: State,
    j: JobId, ret: nat)
    requires ValidConfig(cfg) && NormalRuns(Init(cfg), ts, seen) && j < |seen.jobs|
    requires NormalRuns(seen, more, read) && NormalRuns(read, rest, check)
    requires ret > 0 <==> seen.jobs[j].done
    ensures |read.cores| == MAX_CORES && j < |check.jobs|
    ensures var code := ReturnCode(ret, HasLastTask(read, j), check.jobs[j].done);
            && (code == 0 <==> seen.jobs[j].done)
            && (code == -ETIMEDOUT <==> !seen.jobs[j].done && HasLastTask(read, j))
            && (code == -EINVAL <==> !HasLastTask(read, j))
  {
    RunsConcat(true, Init(cfg), ts, seen, more, read);
    RunsConcat(true, seen, more, read, rest, check);
    GangSteps.Reachable(cfg, ts + more, read);
    NormalIsRun(false, seen, more, read);
    NormalIsRun(false, seen, more + rest, check);
    Coverage.JobsStay(seen, more + rest, check, j);
    if seen.jobs[j].done {
      Coverage.DoneIsStable(seen, more, read, j);
      Coverage.DoneIsStable(seen, more + rest, check, j);
      DoneHasLastTask(cfg, ts + more, read, j);
    }
  }

  /** Blocking success means done: when that call returns zero, then at the time the job is freed (any
      later state of the run) every core has executed its whole range and no slot, queue or handler
      refers to the job. */
  lemma BlockingSuccess(
    cfg: Config, ts: seq<Step>, seen: State, more: seq<Step>, read: State, rest: seq<Step>, check: State,
    j: JobId, ret: nat, later: seq<Step>, s: State, c: nat)
    requires ValidConfig(cfg) && NormalRuns(Init(cfg), ts, seen) && j < |seen.jobs|
    requires NormalRuns(seen, more, read) && NormalRuns(read, rest, check) && NormalRuns(check, later, s)
    requires ret > 0 <==> seen.jobs[j].done
    requires |read.cores| == MAX_CORES && j < |check.jobs| && c < MAX_CORES
    requires ReturnCode(ret, HasLastTask(read, j), check.jobs[j].done) == 0
    ensures Shape(s) && j < |s.jobs|
    ensures s.cores[c].slot != Some(j) && j !in s.cores[c].todo
    ensures s.cores[c].irq == Idle || s.cores[c].irq.job != j
    ensures HasCore(s.specs[j].mask, c) ==>
              var spec := s.specs[j];
              var r := if s.cfg.numIrqs == 1 then spec.whole
                       else if spec.mask == 7 then spec.subcore[c + 2] else spec.subcore[c];
              Tasks(Coverage.ChunksOf(s.cores[c].log, j)) == Span(r.start, r.number)
  {
    BlockingExact(cfg, ts, seen, more, read, rest, check, j, ret);
    RunsConcat(true, seen, more, read, rest, check);
    RunsConcat(true, seen, more + rest, check, later, s);
    NormalIsRun(false, seen, more + rest + later, s);
    Coverage.DoneIsStable(seen, more + rest + later, s, j);
    RunsConcat(true, Init(cfg), ts, seen, more + rest + later, s);
    GangSteps.Reachable(cfg, ts + (more + rest + later), s);
    Coverage.DoneRan(s, j, c);
  }
}
