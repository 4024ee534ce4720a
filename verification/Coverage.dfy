/** What normal runs do to the hardware: which chunks are programmed, in which order, after which
    barrier, and how often a job is completed. */
module Coverage {
  import opened Npu
  import opened Scheduler
  import opened Gang
  import opened GangSteps
  import Fifo

  // ---------- the hardware log ----------

  /** In every normal run the log of a core is the concatenation, in enqueue order, of the complete
      chunk sequences of the jobs that left it, followed by a prefix of the current job's. */
  lemma HardwareLog(cfg: Config, ts: seq<Step>, s: State, c: nat)
    requires ValidConfig(cfg) && NormalRuns(Init(cfg), ts, s) && c < MAX_CORES
    ensures Shape(s)
    ensures s.cores[c].slot.None? || s.cores[c].slot.value < |s.jobs|
    ensures Fifo.Known(s.specs, s.cores[c].released)
    ensures s.cores[c].released + Fifo.SlotSeq(s.cores[c].slot) <= Fifo.OnCore(s.specs, c)
    ensures s.cores[c].slot.None? ==> s.cores[c].log == Logs(s.cfg, s.specs, c, s.cores[c].released)
    ensures s.cores[c].slot.Some? ==>
              exists k: nat :: k <= Need(s.cfg, s.specs, s.cores[c].slot.value, c) &&
                s.cores[c].log ==
                    Logs(s.cfg, s.specs, c, s.cores[c].released) + JobLog(s.cfg, s.specs, s.cores[c].slot.value, c, k)
  {
    Reachable(cfg, ts, s);
    ListShape(s, c);
    LogShape(s, c);
  }

  lemma ListShape(s: State, c: nat)
    requires Fifo.Inv(s) && c < MAX_CORES
    ensures s.cores[c].slot.None? || s.cores[c].slot.value < |s.jobs|
    ensures s.cores[c].released + Fifo.SlotSeq(s.cores[c].slot) <= Fifo.OnCore(s.specs, c)
  {
    var core := s.cores[c];
    assert CoreShape(core, |s.jobs|);
    assert Fifo.ListOk(s.cfg, s.specs, c, core);
    Fifo.ListParts(s.cfg, s.specs, c, core);
  }

  lemma ProgrammedAtMostNeed(s: State, c: nat, j: JobId)
    requires Inv(s) && c < MAX_CORES && j < |s.jobs| && s.cores[c].slot == Some(j)
    ensures Programmed(s.cores[c], j, s.jobs[j].parts[c]) <= Need(s.cfg, s.specs, j, c)
  {
    assert PairOk(s, j, c) && Fifo.PlaceOk(s, j, c);
  }

  lemma LogShape(s: State, c: nat)
    requires Inv(s) && c < MAX_CORES
    ensures s.cores[c].slot.None? || s.cores[c].slot.value < |s.jobs|
    ensures Fifo.Known(s.specs, s.cores[c].released)
    ensures s.cores[c].slot.None? ==> s.cores[c].log == Logs(s.cfg, s.specs, c, s.cores[c].released)
    ensures s.cores[c].slot.Some? ==>
              var j := s.cores[c].slot.value;
              var k := Programmed(s.cores[c], j, s.jobs[j].parts[c]);
              && k <= Need(s.cfg, s.specs, j, c)
              && s.cores[c].log == Logs(s.cfg, s.specs, c, s.cores[c].released) + JobLog(s.cfg, s.specs, j, c, k)
  {
    ListShape(s, c);
    assert LogOk(s, c);
    if s.cores[c].slot.Some? { ProgrammedAtMostNeed(s, c, s.cores[c].slot.value); }
  }

  // ---------- the chunks of one job ----------

  /** The chunks programmed for job `j`, in order. */
  function ChunksOf(log: seq<Prog>, j: JobId): seq<Chunk> {
    if log == [] then []
    else
      var last := log[|log| - 1];
      ChunksOf(log[..|log| - 1], j) + if last.job == j then [last.chunk] else []
  }

  lemma {:induction false} ChunksOfConcat(a: seq<Prog>, b: seq<Prog>, j: JobId)
    ensures ChunksOf(a + b, j) == ChunksOf(a, j) + ChunksOf(b, j)
    decreases |b|
  {
    if b == [] {
      assert a + b == a;
    } else {
      ChunksOfConcat(a, b[..|b| - 1], j);
      assert (a + b)[..|a + b| - 1] == a + b[..|b| - 1];
    }
  }

  lemma {:induction false} ChunksOfJobLog(cfg: Config, specs: seq<JobSpec>, i: JobId, c: nat, k: nat, j: JobId)
    requires i < |specs| && |specs[i].subcore| == 5 && c < MAX_CORES
    ensures ChunksOf(JobLog(cfg, specs, i, c, k), j) ==
            if i == j then Chunks(CoreRange(cfg, specs[i], c), cfg.maxSubmit, k) else []
  {
    if k > 0 {
      ChunksOfJobLog(cfg, specs, i, c, k - 1, j);
      assert JobLog(cfg, specs, i, c, k)[..k - 1] == JobLog(cfg, specs, i, c, k - 1);
      assert Chunks(CoreRange(cfg, specs[i], c), cfg.maxSubmit, k) ==
             Chunks(CoreRange(cfg, specs[i], c), cfg.maxSubmit, k - 1) +
                 [ChunkAt(CoreRange(cfg, specs[i], c), cfg.maxSubmit, k - 1)];
    }
  }

  lemma ChunksOfLastLog(cfg: Config, specs: seq<JobSpec>, c: nat, ids: seq<JobId>, i: JobId, j: JobId)
    requires Fifo.Known(specs, ids + [i]) && c < MAX_CORES && cfg.maxSubmit >= 1
    ensures Fifo.Known(specs, ids) && i < |specs| && |specs[i].subcore| == 5
    ensures ChunksOf(Logs(cfg, specs, c, ids + [i]), j) ==
            ChunksOf(Logs(cfg, specs, c, ids), j) +
            ChunksIf(i == j, cfg, specs, j, c)
  {
    var all := ids + [i];
    assert all[|ids|] == i && all[..|ids|] == ids;
    assert forall k :: 0 <= k < |ids| ==> all[k] == ids[k];
    ChunksOfConcat(Logs(cfg, specs, c, ids), JobLog(cfg, specs, i, c, Need(cfg, specs, i, c)), j);
    ChunksOfJobLog(cfg, specs, i, c, Need(cfg, specs, i, c), j);
  }

  lemma FrontAndLast(specs: seq<JobSpec>, front: seq<JobId>, i: JobId)
    requires Fifo.Known(specs, front + [i]) && Fifo.Ascending(front + [i])
    ensures Fifo.Known(specs, front) && Fifo.Ascending(front) && i !in front && i < |specs|
  {
    var ids := front + [i];
    assert ids[|front|] == i && forall k :: 0 <= k < |front| ==> ids[k] == front[k];
  }

  /** The complete log of job `j` if it is among the finished ones, and nothing otherwise. */
  function ChunksIf(present: bool, cfg: Config, specs: seq<JobSpec>, j: JobId, c: nat): seq<Chunk>
    requires c < MAX_CORES && cfg.maxSubmit >= 1 && (present ==> j < |specs| && |specs[j].subcore| == 5)
  {
    if present then Chunks(CoreRange(cfg, specs[j], c), cfg.maxSubmit, Need(cfg, specs, j, c)) else []
  }

  lemma {:induction false} ChunksOfLogs(cfg: Config, specs: seq<JobSpec>, c: nat, ids: seq<JobId>, j: JobId)
    requires Fifo.Known(specs, ids) && c < MAX_CORES && cfg.maxSubmit >= 1 && Fifo.Ascending(ids)
    ensures j in ids ==> j < |specs|
    ensures ChunksOf(Logs(cfg, specs, c, ids), j) == ChunksIf(j in ids, cfg, specs, j, c)
  {
    if ids != [] {
      var i, front := ids[|ids| - 1], ids[..|ids| - 1];
      assert ids == front + [i];
      FrontAndLast(specs, front, i);
      ChunksOfLastLog(cfg, specs, c, front, i, j);
      ChunksOfLogs(cfg, specs, c, front, j);
    }
  }

  lemma ReleasedAscending(s: State, c: nat)
    requires Fifo.Inv(s) && c < MAX_CORES
    ensures Fifo.Ascending(s.cores[c].released + Fifo.SlotSeq(s.cores[c].slot) + s.cores[c].todo)
    ensures Fifo.Ascending(s.cores[c].released)
  {
    var core := s.cores[c];
    assert Fifo.ListOk(s.cfg, s.specs, c, core);
    Fifo.OnCoreBounds(s.specs, c);
    var all := core.released + Fifo.SlotSeq(core.slot) + core.todo;
    assert all == core.released + (Fifo.SlotSeq(core.slot) + core.todo);
    assert forall i :: 0 <= i < |core.released| ==> all[i] == core.released[i];
  }

  /** Chunk coverage of one (job, core) pair: nothing before it is popped, an ordered prefix while
      it runs, and the complete list once it is gone. */
  lemma PairChunks(s: State, j: JobId, c: nat)
    requires Inv(s) && j < |s.jobs| && c < MAX_CORES
    ensures s.jobs[j].parts[c].place in {Outside, Queued} ==> ChunksOf(s.cores[c].log, j) == []
    ensures s.jobs[j].parts[c].place == InSlot ==>
              ChunksOf(s.cores[c].log, j) ==
              Chunks(CoreRange(s.cfg, s.specs[j], c), s.cfg.maxSubmit, Programmed(s.cores[c], j, s.jobs[j].parts[c]))
    ensures s.jobs[j].parts[c].place == Gone ==>
              ChunksOf(s.cores[c].log, j) ==
                  Chunks(CoreRange(s.cfg, s.specs[j], c), s.cfg.maxSubmit, Need(s.cfg, s.specs, j, c))
  {
    assert Fifo.PlaceOk(s, j, c);
    Fifo.ListsDisjoint(s.cfg, s.specs, c, s.cores[c], j);
    LogChunks(s, j, c);
  }

  /** The chunks of a job in a core's log: all of them if it has left the core, and those programmed so
      far if it occupies the slot. */
  lemma LogChunks(s: State, j: JobId, c: nat)
    requires Inv(s) && j < |s.jobs| && c < MAX_CORES
    ensures ChunksOf(s.cores[c].log, j) ==
            ChunksIf(j in s.cores[c].released, s.cfg, s.specs, j, c) +
            (if s.cores[c].slot == Some(j) then
               Chunks(CoreRange(s.cfg, s.specs[j], c), s.cfg.maxSubmit, Programmed(s.cores[c], j, s.jobs[j].parts[c]))
             else [])
  {
    var core := s.cores[c];
    LogShape(s, c);
    ReleasedAscending(s, c);
    ChunksOfLogs(s.cfg, s.specs, c, core.released, j);
    if core.slot.Some? {
      var i := core.slot.value;
      var k := Programmed(core, i, s.jobs[i].parts[c]);
      ChunksOfConcat(Logs(s.cfg, s.specs, c, core.released), JobLog(s.cfg, s.specs, i, c, k), j);
      ChunksOfJobLog(s.cfg, s.specs, i, c, k, j);
    }
  }

  /** In every normal run: a core that gave a job up executed every task of the job's range on that
      core exactly once, in order, in chunks of at most max_submit_number tasks. */
  lemma ReleasedCoreRanItsRange(cfg: Config, ts: seq<Step>, s: State, j: JobId, c: nat)
    requires ValidConfig(cfg) && NormalRuns(Init(cfg), ts, s) && c < MAX_CORES
    requires Shape(s) && j in s.cores[c].released
    ensures j < |s.jobs|
    ensures var spec := s.specs[j];
            var r := if s.cfg.numIrqs == 1 then spec.whole
                     else if spec.mask == 7 then spec.subcore[c + 2] else spec.subcore[c];
            Tasks(ChunksOf(s.cores[c].log, j)) == Span(r.start, r.number)
    ensures forall k :: 0 <= k < |ChunksOf(s.cores[c].log, j)| ==>
              ChunksOf(s.cores[c].log, j)[k].number <= s.cfg.maxSubmit &&
              (CoreRange(s.cfg, s.specs[j], c).number > 0 ==> ChunksOf(s.cores[c].log, j)[k].number >= 1)
  {
    Reachable(cfg, ts, s);
    Fifo.ListsDisjoint(s.cfg, s.specs, c, s.cores[c], j);
    assert Fifo.PlaceOk(s, j, c);
    PairChunks(s, j, c);
    var r := CoreRange(s.cfg, s.specs[j], c);
    CoreRangeExact(s.cfg, s.specs[j], c);
    ChunkCoverage(r, s.cfg.maxSubmit);
    forall k | 0 <= k < |ChunksOf(s.cores[c].log, j)|
      ensures ChunksOf(s.cores[c].log, j)[k].number <= s.cfg.maxSubmit
      ensures r.number > 0 ==> ChunksOf(s.cores[c].log, j)[k].number >= 1
    {
      ChunkShape(r, s.cfg.maxSubmit, k);
    }
  }

  // ---------- barrier, exclusion and order ----------

  lemma InLogMeansStarted(s: State, j: JobId, c: nat)
    requires Inv(s) && j < |s.jobs| && c < MAX_CORES && ChunksOf(s.cores[c].log, j) != []
    ensures s.jobs[j].runCount == 0 && Runnable(s.specs[j])
    ensures s.jobs[j].parts[c].place in {InSlot, Gone}
  {
    PairChunks(s, j, c);
    assert PairOk(s, j, c);
  }

  lemma ArrivedEverywhere(s: State, j: JobId, d: nat)
    requires Inv(s) && j < |s.jobs| && d < MAX_CORES && HasCore(s.specs[j].mask, d)
    requires s.jobs[j].runCount == 0
    ensures s.cores[d].slot == Some(j) || j in s.cores[d].released
  {
    assert JobOk(s, j) && Fifo.PlaceOk(s, j, d);
    assert d == 0 || d == 1 || d == 2;
  }

  /** No chunk of the job has been programmed on any core. */
  predicate NotBegun(s: State, j: JobId)
    requires |s.cores| == MAX_CORES
  {
    forall e :: 0 <= e < MAX_CORES ==> ChunksOf(s.cores[e].log, j) == []
  }

  /** The gang barrier: a core is programmed for a job only when that job is in its slot, and by
      then every other core of the job holds it too, or has already finished it. */
  lemma ProgrammedBehindTheBarrier(cfg: Config, ts: seq<Step>, s: State, t: Step, d: nat)
    requires ValidConfig(cfg) && NormalRuns(Init(cfg), ts, s) && d < MAX_CORES
    requires Shape(s) && Enabled(s, t) && (t.Commit? || t.Recommit?)
    ensures var j := if t.Commit? then t.j else s.cores[t.c].irq.job;
            && j < |s.jobs|
            && s.cores[t.c].slot == Some(j)
            && s.jobs[j].runCount == 0
            && (HasCore(s.specs[j].mask, d) ==> s.cores[d].slot == Some(j) || j in s.cores[d].released)
            && (HasCore(s.specs[j].mask, d) && NotBegun(s, j) ==>
                  s.cores[d].slot == Some(j))
  {
    Reachable(cfg, ts, s);
    if t.Recommit? { HandlerPair(s, t.c); }
    var j := if t.Commit? then t.j else s.cores[t.c].irq.job;
    assert PairOk(s, j, t.c) && Fifo.PlaceOk(s, j, t.c);
    if HasCore(s.specs[j].mask, d) {
      ArrivedEverywhere(s, j, d);
      if j in s.cores[d].released {
        PairChunks(s, j, d);
        assert Fifo.PlaceOk(s, j, d);
        assert |ChunksOf(s.cores[d].log, j)| >= 1;
      }
    }
  }

  /** Order: once a younger job has been programmed anywhere, every older job it shares a core with
      has finished on that core. */
  lemma OlderFinishesFirst(cfg: Config, ts: seq<Step>, s: State, a: JobId, b: JobId, c: nat, d: nat)
    requires ValidConfig(cfg) && NormalRuns(Init(cfg), ts, s) && c < MAX_CORES && d < MAX_CORES
    requires Shape(s) && a < b < |s.jobs| && HasCore(s.specs[a].mask, c) && HasCore(s.specs[b].mask, c)
    requires ChunksOf(s.cores[d].log, b) != []
    ensures a in s.cores[c].released
  {
    Reachable(cfg, ts, s);
    InLogMeansStarted(s, b, d);
    ArrivedEverywhere(s, b, c);
    OlderReleased(s, a, b, c);
  }

  /** FIFO: a job that reached a core's slot has seen all older jobs of that core leave it. */
  lemma OlderReleased(s: State, a: JobId, b: JobId, c: nat)
    requires Fifo.Inv(s) && c < MAX_CORES && a < b < |s.jobs|
    requires HasCore(s.specs[a].mask, c)
    requires s.cores[c].slot == Some(b) || b in s.cores[c].released
    ensures a in s.cores[c].released
  {
    var core := s.cores[c];
    ReleasedAscending(s, c);
    assert Fifo.PlaceOk(s, a, c);
    OrderOfParts(core.released, Fifo.SlotSeq(core.slot), core.todo, a, b);
  }

  /** In an ascending list cut in three, nothing at or behind the cut before `b` is older than `b`. */
  lemma OrderOfParts(released: seq<JobId>, slot: seq<JobId>, todo: seq<JobId>, a: JobId, b: JobId)
    requires Fifo.Ascending(released + slot + todo) && a < b && |slot| <= 1
    requires b in slot || b in released
    ensures a !in todo && a !in slot
  {
    var all := released + slot + todo;
    assert b in released + slot;
    var n: nat :| n < |released + slot| && (released + slot)[n] == b;
    assert all[n] == b;
    forall i | 0 <= i < |todo| ensures todo[i] > b {
      assert all[|released| + |slot| + i] == todo[i];
    }
    if slot != [] {
      assert all[|released|] == slot[0] && slot[0] >= b;
    }
  }

  // ---------- counting and completion ----------

  /** Both counters are exact in every state: run_count counts the cores that have not arrived,
      interrupt_count those that have not finished; DONE, the fence signal and the domain put happen
      together and at most once. */
  lemma BarrierCounts(cfg: Config, ts: seq<Step>, s: State, j: JobId)
    requires ValidConfig(cfg) && NormalRuns(Init(cfg), ts, s)
    requires Shape(s) && j < |s.jobs|
    ensures s.jobs[j].runCount == NotArrived(s.jobs[j])
    ensures s.jobs[j].interruptCount == NotFinished(s.jobs[j])
    ensures s.jobs[j].puts == s.jobs[j].signals == Bit(s.jobs[j].done)
  {
    Reachable(cfg, ts, s);
    assert JobOk(s, j);
  }

  lemma FinishedEverywhere(s: State, j: JobId, d: nat)
    requires Inv(s) && j < |s.jobs| && d < MAX_CORES && HasCore(s.specs[j].mask, d)
    requires s.jobs[j].interruptCount == 0
    ensures j in s.cores[d].released && s.jobs[j].parts[d].place == Gone && s.jobs[j].parts[d].counted
  {
    assert JobOk(s, j) && Fifo.PlaceOk(s, j, d) && PairOk(s, j, d);
    assert d == 0 || d == 1 || d == 2;
  }

  /** The completion block is entered at most once per job, and only when every core of the job has
      run its whole range and let go of it. */
  lemma CompletesAfterAllCores(cfg: Config, ts: seq<Step>, s: State, c: nat, d: nat)
    requires ValidConfig(cfg) && NormalRuns(Init(cfg), ts, s) && d < MAX_CORES
    requires Shape(s) && Enabled(s, Complete(c))
    ensures var j := s.cores[c].irq.job;
            && j < |s.jobs| && !s.jobs[j].done && s.jobs[j].puts == 0
            && Apply(s, Complete(c)).jobs[j].done && Apply(s, Complete(c)).jobs[j].puts == 1
            && (HasCore(s.specs[j].mask, d) ==> j in s.cores[d].released)
            && (d != c ==> s.cores[d].irq != Final(j))
  {
    Reachable(cfg, ts, s);
    HandlerPair(s, c);
    var j := s.cores[c].irq.job;
    OneFinal(s, j, c, d);
    if HasCore(s.specs[j].mask, d) { FinishedEverywhere(s, j, d); }
  }

  lemma OneFinal(s: State, j: JobId, c: nat, d: nat)
    requires Shape(s) && j < |s.jobs| && c < MAX_CORES && d < MAX_CORES && JobOk(s, j) && s.cores[c].irq == Final(j)
    ensures s.jobs[j].interruptCount == 0 && !s.jobs[j].done && s.jobs[j].puts == 0
    ensures d != c ==> s.cores[d].irq != Final(j)
  {
    assert c == 0 || c == 1 || c == 2;
    assert d == 0 || d == 1 || d == 2;
  }

  lemma DoneRan(s: State, j: JobId, d: nat)
    requires Inv(s) && d < MAX_CORES && j < |s.jobs| && s.jobs[j].done
    ensures s.cores[d].slot != Some(j) && j !in s.cores[d].todo
    ensures s.cores[d].irq == Idle || s.cores[d].irq.job != j
    ensures HasCore(s.specs[j].mask, d) ==>
              var spec := s.specs[j];
              var r := if s.cfg.numIrqs == 1 then spec.whole
                       else if spec.mask == 7 then spec.subcore[d + 2] else spec.subcore[d];
              Tasks(ChunksOf(s.cores[d].log, j)) == Span(r.start, r.number)
  {
    assert JobOk(s, j) && PairOk(s, j, d) && Fifo.PlaceOk(s, j, d);
    if HasCore(s.specs[j].mask, d) {
      DoneHasChunks(s, j, d);
      CoreRangeExact(s.cfg, s.specs[j], d);
      ChunkCoverage(CoreRange(s.cfg, s.specs[j], d), s.cfg.maxSubmit);
    }
    assert d == 0 || d == 1 || d == 2;
  }

  lemma DoneHasChunks(s: State, j: JobId, d: nat)
    requires Inv(s) && d < MAX_CORES && j < |s.jobs| && s.jobs[j].done && HasCore(s.specs[j].mask, d)
    ensures ChunksOf(s.cores[d].log, j) ==
            Chunks(CoreRange(s.cfg, s.specs[j], d), s.cfg.maxSubmit, Need(s.cfg, s.specs, j, d))
    ensures ChunksOf(s.cores[d].log, j) != []
  {
    assert JobOk(s, j);
    FinishedEverywhere(s, j, d);
    PairChunks(s, j, d);
  }

  /** DONE means done: the whole range of every core was executed, and the job is in no slot and no
      queue, so freeing it is safe. */
  lemma DoneMeansExecuted(cfg: Config, ts: seq<Step>, s: State, j: JobId, d: nat)
    requires ValidConfig(cfg) && NormalRuns(Init(cfg), ts, s) && d < MAX_CORES
    requires Shape(s) && j < |s.jobs| && s.jobs[j].done
    ensures s.cores[d].slot != Some(j) && j !in s.cores[d].todo
    ensures s.cores[d].irq == Idle || s.cores[d].irq.job != j
    ensures HasCore(s.specs[j].mask, d) ==>
              var spec := s.specs[j];
              var r := if s.cfg.numIrqs == 1 then spec.whole
                       else if spec.mask == 7 then spec.subcore[d + 2] else spec.subcore[d];
              Tasks(ChunksOf(s.cores[d].log, j)) == Span(r.start, r.number)
  {
    Reachable(cfg, ts, s);
    DoneRan(s, j, d);
  }

  /** Jobs are only ever added. */
  lemma {:induction false} JobsStay(s0: State, ts: seq<Step>, s: State, j: JobId)
    requires Runs(s0, ts, s) && j < |s0.jobs|
    ensures j < |s.jobs|
    decreases |ts|
  {
    if ts == [] {
      RunNil(false, s0, s);
    } else {
      RunHead(false, s0, ts, s);
      ApplyShape(s0, ts[0]);
      JobsStay(Apply(s0, ts[0]), ts[1..], s, j);
    }
  }

  /** DONE is never taken back. */
  lemma {:induction false} DoneIsStable(s0: State, ts: seq<Step>, s: State, j: JobId)
    requires Runs(s0, ts, s) && j < |s0.jobs| && s0.jobs[j].done
    ensures j < |s.jobs| && s.jobs[j].done
    decreases |ts|
  {
    if ts == [] {
      RunNil(false, s0, s);
    } else {
      RunHead(false, s0, ts, s);
      DoneSurvives(s0, ts[0], j);
      DoneIsStable(Apply(s0, ts[0]), ts[1..], s, j);
    }
  }

  lemma DoneSurvives(s: State, t: Step, j: JobId)
    requires Shape(s) && Enabled(s, t) && j < |s.jobs| && s.jobs[j].done
    ensures j < |Apply(s, t).jobs| && Apply(s, t).jobs[j].done
  {
    match t {
      case Commit(i, c) => assert Apply(s, t).jobs[i].done == s.jobs[i].done;
      case _ =>
    }
  }
}
