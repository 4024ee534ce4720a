/** Whole driver calls without interference, as functions on states: what rknpu_job_next and the loop at
    the end of rknpu_job_schedule leave behind, and that they leave nothing owed. */
module Calls {
  import opened Npu
  import opened Scheduler

  // ---------- rknpu_job_commit ----------

  /** The commit calls of a complete gang, on its first `n` cores. */
  function Launched(s: State, j: JobId, n: nat): State
    requires Shape(s) && j < |s.jobs|
  {
    s.(cores := seq(MAX_CORES, c requires 0 <= c < MAX_CORES =>
         if c < n && Commits(s.specs[j].mask, c) then Program(s, j, c, s.cores[c]) else s.cores[c]),
       jobs := s.jobs[j := s.jobs[j].(parts := seq(MAX_CORES, c requires 0 <= c < MAX_CORES =>
         if c < n && Commits(s.specs[j].mask, c) then s.jobs[j].parts[c].(commit := false) else s.jobs[j].parts[c]))])
  }

  lemma LaunchedNone(s: State, j: JobId)
    requires Shape(s) && j < |s.jobs|
    ensures Launched(s, j, 0) == s
  {
    var s0 := Launched(s, j, 0);
    assert s0.cores == s.cores && s0.jobs[j].parts == s.jobs[j].parts;
    assert s0.jobs == s.jobs;
  }

  lemma LaunchedShape(s: State, j: JobId, n: nat)
    requires Shape(s) && j < |s.jobs|
    ensures Shape(Launched(s, j, n))
  {
    var s' := Launched(s, j, n);
    forall c | 0 <= c < MAX_CORES ensures CoreShape(s'.cores[c], |s'.jobs|) {
      assert CoreShape(s.cores[c], |s.jobs|);
    }
  }

  lemma LaunchedStep(s: State, j: JobId, n: nat)
    requires Shape(s) && j < |s.jobs| && n < MAX_CORES
    ensures Shape(Launched(s, j, n)) && Launched(s, j, n).jobs[j].parts[n].commit == s.jobs[j].parts[n].commit
    ensures Launched(s, j, n + 1) ==
            if Commits(s.specs[j].mask, n) then DoCommit(Launched(s, j, n), j, n) else Launched(s, j, n)
  {
    LaunchedShape(s, j, n);
    var now, next := Launched(s, j, n), Launched(s, j, n + 1);
    assert now.cores[n] == s.cores[n] && now.jobs[j].parts[n] == s.jobs[j].parts[n];
    var goal := if Commits(s.specs[j].mask, n) then DoCommit(now, j, n) else now;
    assert next.cores == goal.cores && next.jobs[j].parts == goal.jobs[j].parts;
    assert next.jobs == goal.jobs;
  }

  // ---------- rknpu_job_next ----------

  predicate Pops(s: State, c: nat)
    requires Shape(s) && c < MAX_CORES
  {
    s.cores[c].slot.None? && s.cores[c].todo != []
  }

  /** The job at the head of the queue. */
  function Head(s: State, c: nat): (j: JobId)
    requires Shape(s) && c < MAX_CORES && Pops(s, c)
    ensures j < |s.jobs|
  {
    assert CoreShape(s.cores[c], |s.jobs|);
    s.cores[c].todo[0]
  }

  /** rknpu_job_next: pop, decrement, and at zero the commit calls. */
  function NextCalled(s: State, c: nat): State
    requires Shape(s) && Enabled(s, NextCall(c))
  {
    NextShape(s, c);
    var s1 := DoNext(s, c);
    if !Pops(s, c) then s1
    else
      var j := Head(s, c);
      DecRunShape(s1, j, c);
      var s2 := DoDecRun(s1, j, c);
      if s2.jobs[j].runCount == 0 then Launched(s2, j, MAX_CORES) else s2
  }

  lemma {:induction false} LaunchRuns(s: State, j: JobId, n: nat) returns (ts: seq<Step>)
    requires Shape(s) && j < |s.jobs| && n <= MAX_CORES
    requires forall e :: 0 <= e < MAX_CORES && Commits(s.specs[j].mask, e) ==> s.jobs[j].parts[e].commit
    ensures NormalRuns(s, ts, Launched(s, j, n))
  {
    if n == 0 {
      LaunchedNone(s, j);
      RunNil(true, s, s);
      ts := [];
    } else {
      ts := LaunchRuns(s, j, n - 1);
      LaunchedStep(s, j, n - 1);
      if Commits(s.specs[j].mask, n - 1) {
        RunsAppend(true, s, ts, Launched(s, j, n - 1), Commit(j, n - 1));
        ts := ts + [Commit(j, n - 1)];
      }
    }
  }

  /** The call is a normal run that begins with its pop. */
  lemma NextRuns(s: State, c: nat) returns (ts: seq<Step>)
    requires Shape(s) && Enabled(s, NextCall(c))
    ensures NormalRuns(s, ts, NextCalled(s, c)) && ts != [] && ts[0] == NextCall(c)
  {
    NextShape(s, c);
    RunOne(true, s, NextCall(c));
    ts := [NextCall(c)];
    if Pops(s, c) {
      var j, s1 := Head(s, c), DoNext(s, c);
      PopEffect(s, c, j, c);
      RunsAppend(true, s, ts, s1, DecRun(j, c));
      ts := ts + [DecRun(j, c)];
      var s2 := DoDecRun(s1, j, c);
      DecRunShape(s1, j, c);
      if s2.jobs[j].runCount == 0 {
        forall e | 0 <= e < MAX_CORES && Commits(s2.specs[j].mask, e) ensures s2.jobs[j].parts[e].commit {
          DecEffect(s1, j, c, j, e);
        }
        var more := LaunchRuns(s2, j, MAX_CORES);
        RunsConcat(true, s, ts, s2, more, Launched(s2, j, MAX_CORES));
        ts := ts + more;
      }
    }
  }

  /** No decrement or commit call is owed that was not owed before. */
  ghost predicate OwesNoMore(s: State, s': State)
    requires Shape(s) && Shape(s')
  {
    && |s'.jobs| == |s.jobs|
    && (forall i, d :: 0 <= i < |s.jobs| && 0 <= d < MAX_CORES ==>
          && (s'.jobs[i].parts[d].dec ==> s.jobs[i].parts[d].dec)
          && (s'.jobs[i].parts[d].commit ==> s.jobs[i].parts[d].commit))
  }

  /** Two states of a core that differ at most in what was programmed and in the calls owed. */
  predicate SameQueue(core: Core, core': Core) {
    core'.todo == core.todo && core'.slot == core.slot && core'.taskNum == core.taskNum && core'.irq == core.irq
  }

  lemma PopEffect(s: State, c: nat, i: JobId, d: nat)
    requires Shape(s) && Enabled(s, NextCall(c)) && Pops(s, c) && i < |s.jobs| && d < MAX_CORES
    ensures Shape(DoNext(s, c)) && |DoNext(s, c).jobs| == |s.jobs| && DoNext(s, c).specs == s.specs
    ensures var s', p, p' := DoNext(s, c), s.jobs[i].parts[d], DoNext(s, c).jobs[i].parts[d];
            && s'.jobs[i].runCount == s.jobs[i].runCount
            && p'.submitCount == p.submitCount && p'.commit == p.commit
            && (p'.dec <==> p.dec || (i == Head(s, c) && d == c))
            && s'.cfg == s.cfg
            && s'.cores[d] == if d != c then s.cores[d]
                              else s.cores[c].(nextCalls := s.cores[c].nextCalls - 1, todo := s.cores[c].todo[1..],
                                               slot := Some(Head(s, c)))
  {
    NextShape(s, c);
  }

  lemma DecEffect(s: State, j: JobId, c: nat, i: JobId, d: nat)
    requires Shape(s) && Enabled(s, DecRun(j, c)) && i < |s.jobs| && d < MAX_CORES
    ensures Shape(DoDecRun(s, j, c)) && |DoDecRun(s, j, c).jobs| == |s.jobs|
    ensures DoDecRun(s, j, c).specs == s.specs && DoDecRun(s, j, c).cores == s.cores && DoDecRun(s, j, c).cfg == s.cfg
    ensures var s', p, p' := DoDecRun(s, j, c), s.jobs[i].parts[d], DoDecRun(s, j, c).jobs[i].parts[d];
            && s'.jobs[i].runCount == s.jobs[i].runCount - Bit(i == j)
            && p'.submitCount == p.submitCount
            && (p'.dec <==> p.dec && !(i == j && d == c))
            && (p'.commit <==> p.commit || (i == j && s'.jobs[j].runCount == 0 && Commits(s.specs[j].mask, d)))
  {
    DecRunShape(s, j, c);
  }

  lemma LaunchEffect(s: State, j: JobId, i: JobId, d: nat)
    requires Shape(s) && j < |s.jobs| && i < |s.jobs| && d < MAX_CORES
    ensures Shape(Launched(s, j, MAX_CORES)) && |Launched(s, j, MAX_CORES).jobs| == |s.jobs|
    ensures Launched(s, j, MAX_CORES).specs == s.specs && Launched(s, j, MAX_CORES).cfg == s.cfg
    ensures var s', p, p' := Launched(s, j, MAX_CORES), s.jobs[i].parts[d], Launched(s, j, MAX_CORES).jobs[i].parts[d];
            && s'.jobs[i].runCount == s.jobs[i].runCount
            && p'.submitCount == p.submitCount && p'.dec == p.dec
            && (p'.commit <==> p.commit && !(i == j && Commits(s.specs[j].mask, d)))
            && s'.cores[d] == if Commits(s.specs[j].mask, d) then Program(s, j, d, s.cores[d]) else s.cores[d]
  {
    LaunchedShape(s, j, MAX_CORES);
  }

  lemma NextCalledShape(s: State, c: nat)
    requires Shape(s) && Enabled(s, NextCall(c))
    ensures Shape(NextCalled(s, c)) && |NextCalled(s, c).jobs| == |s.jobs|
    ensures NextCalled(s, c).specs == s.specs && NextCalled(s, c).cfg == s.cfg
  {
    NextShape(s, c);
    if Pops(s, c) {
      var j := Head(s, c);
      PopEffect(s, c, j, c);
      DecEffect(DoNext(s, c), j, c, j, c);
      LaunchEffect(DoDecRun(DoNext(s, c), j, c), j, j, c);
    }
  }

  /** What a call does to one part of one job. */
  lemma NextCalledPart(s: State, c: nat, i: JobId, d: nat)
    requires Shape(s) && Enabled(s, NextCall(c)) && i < |s.jobs| && d < MAX_CORES
    ensures Shape(NextCalled(s, c)) && |NextCalled(s, c).jobs| == |s.jobs|
    ensures var s', p, p' := NextCalled(s, c), s.jobs[i].parts[d], NextCalled(s, c).jobs[i].parts[d];
            && s'.jobs[i].runCount == s.jobs[i].runCount - Bit(Pops(s, c) && i == Head(s, c))
            && p'.submitCount == p.submitCount
            && (p'.dec ==> p.dec) && (p'.commit ==> p.commit)
  {
    NextCalledShape(s, c);
    if Pops(s, c) {
      var j := Head(s, c);
      var s1 := DoNext(s, c);
      var s2 := DoDecRun(s1, j, c);
      PopEffect(s, c, j, c);
      PopEffect(s, c, i, d);
      DecEffect(s1, j, c, i, d);
      LaunchEffect(s2, j, i, d);
      if i != j {
        DecEffect(s1, j, c, j, d);
      }
    }
  }

  /** The call programs the gang: it pops the last missing core of the job. */
  predicate Starts(s: State, c: nat)
    requires Shape(s) && c < MAX_CORES
  {
    Pops(s, c) && s.jobs[Head(s, c)].runCount == 1
  }

  /** What a call does to one core. */
  lemma NextCalledCore(s: State, c: nat, d: nat)
    requires Shape(s) && Enabled(s, NextCall(c)) && d < MAX_CORES
    ensures Shape(NextCalled(s, c))
    ensures var core, core' := s.cores[d], NextCalled(s, c).cores[d];
            && core'.irq == core.irq
            && core'.nextCalls == core.nextCalls - Bit(d == c)
            && (d == c && Pops(s, c) ==> core'.slot == Some(core.todo[0]) && core'.todo == core.todo[1..])
            && (d != c || !Pops(s, c) ==> core'.slot == core.slot && core'.todo == core.todo)
            && (if Starts(s, c) && Commits(s.specs[Head(s, c)].mask, d)
                   && s.specs[Head(s, c)].pc && s.specs[Head(s, c)].taskObj then
                  var j := Head(s, c);
                  var index := s.jobs[j].parts[d].submitCount;
                  var chunk := ChunkAt(CoreRange(s.cfg, s.specs[j], d), s.cfg.maxSubmit, index);
                  core'.armed == Some(j) && core'.log == core.log + [Prog(j, chunk)]
                else
                  core'.armed == core.armed && core'.log == core.log)
  {
    NextCalledShape(s, c);
    if Pops(s, c) {
      var j := Head(s, c);
      var s1 := DoNext(s, c);
      PopEffect(s, c, j, c);
      PopEffect(s, c, j, d);
      DecEffect(s1, j, c, j, d);
      LaunchEffect(DoDecRun(s1, j, c), j, j, d);
    }
  }

  lemma NextCalledOwes(s: State, c: nat)
    requires Shape(s) && Enabled(s, NextCall(c))
    ensures Shape(NextCalled(s, c)) && OwesNoMore(s, NextCalled(s, c))
  {
    NextCalledShape(s, c);
    forall i, d | 0 <= i < |s.jobs| && 0 <= d < MAX_CORES
      ensures NextCalled(s, c).jobs[i].parts[d].dec ==> s.jobs[i].parts[d].dec
      ensures NextCalled(s, c).jobs[i].parts[d].commit ==> s.jobs[i].parts[d].commit
    {
      NextCalledPart(s, c, i, d);
    }
  }

  // ---------- rknpu_job_schedule ----------

  lemma CoresOfMask(cfg: Config, mask: nat, c: nat)
    requires ValidConfig(cfg) && mask <= cfg.coreMask && c < MAX_CORES && HasCore(mask, c)
    ensures c < cfg.numIrqs
  {
  }

  /** Every core of the mask has a call outstanding. */
  predicate CallsOwed(s: State, has: seq<bool>, n: nat)
    requires Shape(s) && |has| == MAX_CORES
  {
    forall d :: n <= d < MAX_CORES && has[d] ==> s.cores[d].nextCalls > 0
  }

  lemma CallPaid(s: State, has: seq<bool>, n: nat)
    requires Shape(s) && n < MAX_CORES && |has| == MAX_CORES && CallsOwed(s, has, n) && has[n]
    ensures Enabled(s, NextCall(n)) && Shape(NextCalled(s, n)) && CallsOwed(NextCalled(s, n), has, n + 1)
  {
    NextCalledShape(s, n);
    forall d | n + 1 <= d < MAX_CORES && has[d] ensures NextCalled(s, n).cores[d].nextCalls > 0 {
      NextCalledCore(s, n, d);
    }
  }

  /** The rknpu_job_next calls of the loop over the first `n` cores. */
  function Nexts(s: State, has: seq<bool>, n: nat): (r: State)
    requires Shape(s) && n <= MAX_CORES && |has| == MAX_CORES && CallsOwed(s, has, 0)
    ensures Shape(r) && CallsOwed(r, has, n)
  {
    if n == 0 then s
    else
      var s' := Nexts(s, has, n - 1);
      if has[n - 1] then
        CallPaid(s', has, n - 1);
        NextCalled(s', n - 1)
      else s'
  }

  lemma {:induction false} NextsKeep(s: State, has: seq<bool>, n: nat)
    requires Shape(s) && n <= MAX_CORES && |has| == MAX_CORES && CallsOwed(s, has, 0)
    ensures var r := Nexts(s, has, n);
            r.specs == s.specs && r.cfg == s.cfg && |r.jobs| == |s.jobs| && OwesNoMore(s, r)
  {
    if n > 0 {
      NextsKeep(s, has, n - 1);
      if has[n - 1] {
        CallPaid(Nexts(s, has, n - 1), has, n - 1);
        NextCalledShape(Nexts(s, has, n - 1), n - 1);
        NextCalledOwes(Nexts(s, has, n - 1), n - 1);
      }
    }
  }

  /** The first `n` cores have had their calls, and no handler has moved. */
  predicate CallsMade(core: Core, core': Core, made: bool) {
    core'.nextCalls == core.nextCalls - Bit(made) && core'.irq == core.irq
  }

  lemma CallMade(s: State, c: nat, d: nat)
    requires Shape(s) && Enabled(s, NextCall(c)) && d < MAX_CORES
    ensures |NextCalled(s, c).cores| == MAX_CORES && CallsMade(s.cores[d], NextCalled(s, c).cores[d], d == c)
  {
    NextCalledCore(s, c, d);
  }

  lemma {:induction false} NextsCore(s: State, has: seq<bool>, n: nat, d: nat)
    requires Shape(s) && n <= MAX_CORES && |has| == MAX_CORES && CallsOwed(s, has, 0) && d < MAX_CORES
    ensures CallsMade(s.cores[d], Nexts(s, has, n).cores[d], d < n && has[d])
  {
    if n > 0 {
      NextsCore(s, has, n - 1, d);
      if has[n - 1] {
        CallPaid(Nexts(s, has, n - 1), has, n - 1);
        CallMade(Nexts(s, has, n - 1), n - 1, d);
      }
    }
  }

  /** The cores of a mask, one flag per core. */
  function CoresOf(mask: nat): (has: seq<bool>)
    ensures |has| == MAX_CORES && forall d :: 0 <= d < MAX_CORES ==> has[d] == HasCore(mask, d)
  {
    [HasCore(mask, 0), HasCore(mask, 1), HasCore(mask, 2)]
  }

  lemma SubmitOwes(s: State, spec: JobSpec)
    requires Shape(s) && ValidSpec(s.cfg, spec)
    ensures Shape(DoSubmit(s, spec)) && CallsOwed(DoSubmit(s, spec), CoresOf(spec.mask), 0)
  {
    SubmitShape(s, spec);
    forall d | 0 <= d < MAX_CORES && HasCore(spec.mask, d) ensures DoSubmit(s, spec).cores[d].nextCalls > 0 {
      assert DoSubmit(s, spec).cores[d] == EnqueueOn(s.cfg, spec, |s.jobs|, d, s.cores[d]);
    }
  }

  /** rknpu_job_schedule after a successful domain get. */
  function Scheduled(s: State, spec: JobSpec): State
    requires Shape(s) && ValidSpec(s.cfg, spec)
  {
    SubmitOwes(s, spec);
    Nexts(DoSubmit(s, spec), CoresOf(spec.mask), s.cfg.numIrqs)
  }

  // ---------- a gang on idle cores ----------

  function Arrived(has: seq<bool>, n: nat): nat
    requires |has| == MAX_CORES
  {
    Bit(0 < n && has[0]) + Bit(1 < n && has[1]) + Bit(2 < n && has[2])
  }

  lemma ArrivedNext(has: seq<bool>, n: nat)
    requires n < MAX_CORES && |has| == MAX_CORES
    ensures Arrived(has, n + 1) == Arrived(has, n) + Bit(has[n])
    ensures Arrived(has, n) <= Arrived(has, MAX_CORES)
  {
    assert n == 0 || n == 1 || n == 2;
  }

  /** The chunk a commit programs on core `d` first, if it programs anything. */
  function First(cfg: Config, spec: JobSpec, d: nat): Option<Chunk>
    requires |spec.subcore| == 5 && d < MAX_CORES
  {
    if Commits(spec.mask, d) && spec.pc && spec.taskObj then
      Some(ChunkAt(CoreRange(cfg, spec, d), cfg.maxSubmit, 0))
    else None
  }

  /** A core of a gang that found all its cores idle: called already, still waiting, or not concerned; and
      programmed with its first chunk, if any, once the gang is complete. */
  predicate GangCore(before: Core, now: Core, j: JobId, called: bool, waiting: bool, begun: Option<Chunk>) {
    && (called ==> now.slot == Some(j) && now.todo == [])
    && (waiting ==> now.slot.None? && now.todo == [j])
    && (if begun.Some? then now.armed == Some(j) && now.log == before.log + [Prog(j, begun.value)]
        else now.armed == before.armed && now.log == before.log)
  }

  predicate GangCoreAt(s0: State, s: State, j: JobId, has: seq<bool>, n: nat, d: nat)
    requires Shape(s0) && Shape(s) && j < |s.jobs| && d < MAX_CORES && |has| == MAX_CORES
  {
    && s.jobs[j].parts[d].submitCount == 0
    && GangCore(s0.cores[d], s.cores[d], j, has[d] && d < n, has[d] && d >= n,
                if Arrived(has, n) == Arrived(has, MAX_CORES) then First(s.cfg, s.specs[j], d) else None)
  }

  ghost predicate GangAt(s0: State, s: State, j: JobId, has: seq<bool>, n: nat)
    requires Shape(s0) && Shape(s) && |has| == MAX_CORES
  {
    && j < |s.jobs|
    && s.jobs[j].runCount == Arrived(has, MAX_CORES) - Arrived(has, n)
    && (forall d :: 0 <= d < MAX_CORES ==> GangCoreAt(s0, s, j, has, n, d))
  }

  lemma GangCoreAdvances(s0: State, s: State, j: JobId, has: seq<bool>, n: nat, d: nat)
    requires Shape(s0) && Shape(s) && n < MAX_CORES && d < MAX_CORES && |has| == MAX_CORES && j < |s.jobs|
    requires s.jobs[j].runCount == Arrived(has, MAX_CORES) - Arrived(has, n)
    requires GangCoreAt(s0, s, j, has, n, n) && GangCoreAt(s0, s, j, has, n, d)
    requires has[n] && s.cores[n].nextCalls > 0
    ensures Shape(NextCalled(s, n)) && j < |NextCalled(s, n).jobs|
    ensures NextCalled(s, n).jobs[j].runCount == Arrived(has, MAX_CORES) - Arrived(has, n + 1)
    ensures GangCoreAt(s0, NextCalled(s, n), j, has, n + 1, d)
  {
    NextCalledShape(s, n);
    ArrivedNext(has, n);
    assert Pops(s, n) && Head(s, n) == j;
    NextCalledPart(s, n, j, d);
    NextCalledCore(s, n, d);
  }

  lemma GangAdvances(s0: State, s: State, j: JobId, has: seq<bool>, n: nat)
    requires Shape(s0) && Shape(s) && n < MAX_CORES && |has| == MAX_CORES && GangAt(s0, s, j, has, n)
    requires has[n] && s.cores[n].nextCalls > 0
    ensures Shape(NextCalled(s, n)) && GangAt(s0, NextCalled(s, n), j, has, n + 1)
  {
    var m := n + 1;
    assert GangCoreAt(s0, s, j, has, n, n);
    GangCoreAdvances(s0, s, j, has, n, n);
    forall d | 0 <= d < MAX_CORES ensures GangCoreAt(s0, NextCalled(s, n), j, has, m, d) {
      assert GangCoreAt(s0, s, j, has, n, d);
      GangCoreAdvances(s0, s, j, has, n, d);
    }
  }

  lemma GangSkips(s0: State, s: State, j: JobId, has: seq<bool>, n: nat)
    requires Shape(s0) && Shape(s) && n < MAX_CORES && |has| == MAX_CORES && GangAt(s0, s, j, has, n) && !has[n]
    ensures GangAt(s0, s, j, has, n + 1)
  {
    ArrivedNext(has, n);
    var m := n + 1;
    forall d | 0 <= d < MAX_CORES ensures GangCoreAt(s0, s, j, has, m, d) {
      assert GangCoreAt(s0, s, j, has, n, d);
    }
  }

  lemma {:induction false} GangArrives(s0: State, j: JobId, has: seq<bool>, n: nat)
    requires Shape(s0) && |has| == MAX_CORES && n <= MAX_CORES && GangAt(s0, s0, j, has, 0)
    requires CallsOwed(s0, has, 0)
    ensures GangAt(s0, Nexts(s0, has, n), j, has, n)
  {
    if n > 0 {
      GangArrives(s0, j, has, n - 1);
      if has[n - 1] {
        GangAdvances(s0, Nexts(s0, has, n - 1), j, has, n - 1);
      } else {
        GangSkips(s0, Nexts(s0, has, n - 1), j, has, n - 1);
      }
    }
  }

  /** The cores of the mask are idle. */
  predicate CoresIdle(s: State, mask: nat)
    requires Shape(s)
  {
    forall d :: 0 <= d < MAX_CORES && HasCore(mask, d) ==> s.cores[d].slot.None? && s.cores[d].todo == []
  }

  /** A freshly enqueued job whose cores were idle waits on each of them. */
  lemma GangBegins(s: State, spec: JobSpec)
    requires Shape(s) && ValidSpec(s.cfg, spec) && CoresIdle(s, spec.mask)
    ensures Shape(DoSubmit(s, spec)) && GangAt(DoSubmit(s, spec), DoSubmit(s, spec), |s.jobs|, CoresOf(spec.mask), 0)
  {
    SubmitShape(s, spec);
    CommitMatchesQueues(spec.mask, 0);
    var s0, j, has := DoSubmit(s, spec), |s.jobs|, CoresOf(spec.mask);
    assert s0.jobs[j] == NewJob(spec);
    assert Arrived(has, 0) == 0 && Arrived(has, MAX_CORES) == UseCoreNum(spec.mask);
    forall d | 0 <= d < MAX_CORES ensures GangCoreAt(s0, s0, j, has, 0, d) {
      GangCoreBegins(s, spec, has, d);
    }
  }

  lemma GangCoreBegins(s: State, spec: JobSpec, has: seq<bool>, d: nat)
    requires Shape(s) && ValidSpec(s.cfg, spec) && Shape(DoSubmit(s, spec)) && d < MAX_CORES
    requires |has| == MAX_CORES && has[d] == HasCore(spec.mask, d) && Arrived(has, 0) < Arrived(has, MAX_CORES)
    requires has[d] ==> s.cores[d].slot.None? && s.cores[d].todo == []
    ensures GangCoreAt(DoSubmit(s, spec), DoSubmit(s, spec), |s.jobs|, has, 0, d)
  {
    var s0 := DoSubmit(s, spec);
    assert s0.cores[d] == EnqueueOn(s.cfg, spec, |s.jobs|, d, s.cores[d]);
    assert s0.jobs[|s.jobs|] == NewJob(spec);
  }

  lemma AllArrived(cfg: Config, mask: nat)
    requires ValidConfig(cfg) && mask <= cfg.coreMask
    ensures Arrived(CoresOf(mask), cfg.numIrqs) == Arrived(CoresOf(mask), MAX_CORES)
  {
  }

  lemma ScheduledCore(s: State, spec: JobSpec, c: nat)
    requires Shape(s) && ValidSpec(s.cfg, spec) && c < MAX_CORES && HasCore(spec.mask, c) && CoresIdle(s, spec.mask)
    ensures |Scheduled(s, spec).cores| == MAX_CORES
    ensures GangCore(s.cores[c], Scheduled(s, spec).cores[c], |s.jobs|, true, false, First(s.cfg, spec, c))
  {
    var s0, j, has, n := DoSubmit(s, spec), |s.jobs|, CoresOf(spec.mask), s.cfg.numIrqs;
    GangBegins(s, spec);
    SubmitOwes(s, spec);
    GangArrives(s0, j, has, n);
    NextsKeep(s0, has, n);
    CoresOfMask(s.cfg, spec.mask, c);
    AllArrived(s.cfg, spec.mask);
    assert GangCoreAt(s0, Nexts(s0, has, n), j, has, n, c);
    assert s0.cores[c].log == s.cores[c].log && s0.cores[c].armed == s.cores[c].armed && s0.specs[j] == spec;
  }

  /** The first chunk of a core's own range, for the jobs the commit path runs. */
  lemma FirstExact(cfg: Config, spec: JobSpec, c: nat)
    requires ValidConfig(cfg) && ValidSpec(cfg, spec) && c < MAX_CORES && HasCore(spec.mask, c)
    ensures var r := if cfg.numIrqs == 1 then spec.whole
                     else if spec.mask == 7 then spec.subcore[c + 2] else spec.subcore[c];
            First(cfg, spec, c) ==
            if Runnable(spec) then Some(Chunk(r.start, if r.number > cfg.maxSubmit then cfg.maxSubmit else r.number))
            else None
  {
    CoreRangeExact(cfg, spec, c);
    CommitMatchesQueues(spec.mask, c);
  }

  /** Job `j` occupies core `c` and, if it is one the commit path runs, the core has been programmed once,
      with the first chunk of its own range. */
  predicate StartedOn(cfg: Config, spec: JobSpec, before: Core, now: Core, j: JobId, c: nat)
    requires |spec.subcore| == 5 && c < MAX_CORES
  {
    && now.slot == Some(j) && now.todo == []
    && (Runnable(spec) ==>
          var r := if cfg.numIrqs == 1 then spec.whole
                   else if spec.mask == 7 then spec.subcore[c + 2] else spec.subcore[c];
          var first := Chunk(r.start, if r.number > cfg.maxSubmit then cfg.maxSubmit else r.number);
          now.armed == Some(j) && now.log == before.log + [Prog(j, first)])
    && (!Runnable(spec) ==> now.armed == before.armed && now.log == before.log)
  }

  /** A schedule call on idle cores starts the job on every core of its mask. */
  lemma ScheduleStarts(s: State, spec: JobSpec, c: nat)
    requires Shape(s) && ValidSpec(s.cfg, spec) && c < MAX_CORES && HasCore(spec.mask, c) && CoresIdle(s, spec.mask)
    ensures |Scheduled(s, spec).cores| == MAX_CORES
    ensures StartedOn(s.cfg, spec, s.cores[c], Scheduled(s, spec).cores[c], |s.jobs|, c)
  {
    ScheduledCore(s, spec, c);
    FirstExact(s.cfg, spec, c);
  }

  /** A schedule call leaves nothing owed: every core has as many rknpu_job_next calls outstanding as
      before and its handler where it was, no decrement or commit is outstanding that was not before, and
      none of the new job's. */
  lemma ScheduleOwesNothing(s: State, spec: JobSpec, c: nat)
    requires Shape(s) && ValidSpec(s.cfg, spec) && c < MAX_CORES
    ensures Shape(Scheduled(s, spec)) && |Scheduled(s, spec).jobs| == |s.jobs| + 1
    ensures Scheduled(s, spec).specs == s.specs + [spec]
    ensures Scheduled(s, spec).cores[c].nextCalls == s.cores[c].nextCalls
    ensures Scheduled(s, spec).cores[c].irq == s.cores[c].irq
    ensures forall i :: 0 <= i < |s.jobs| ==>
              && (Scheduled(s, spec).jobs[i].parts[c].dec ==> s.jobs[i].parts[c].dec)
              && (Scheduled(s, spec).jobs[i].parts[c].commit ==> s.jobs[i].parts[c].commit)
    ensures !Scheduled(s, spec).jobs[|s.jobs|].parts[c].dec && !Scheduled(s, spec).jobs[|s.jobs|].parts[c].commit
  {
    SubmitOwes(s, spec);
    var s0, has := DoSubmit(s, spec), CoresOf(spec.mask);
    NextsKeep(s0, has, s.cfg.numIrqs);
    NextsCore(s0, has, s.cfg.numIrqs, c);
    assert s0.jobs[|s.jobs|] == NewJob(spec) && s0.cores[c] == EnqueueOn(s.cfg, spec, |s.jobs|, c, s.cores[c]);
    if HasCore(spec.mask, c) { CoresOfMask(s.cfg, spec.mask, c); }
  }

  // ---------- rknpu_irq_handler ----------

  lemma OwesTrans(s: State, s1: State, s2: State)
    requires Shape(s) && Shape(s1) && Shape(s2) && OwesNoMore(s, s1) && OwesNoMore(s1, s2)
    ensures OwesNoMore(s, s2)
  {
  }

  predicate HandlerStep(t: Step) {
    t.IrqEnter? || t.IrqStatus? || t.DoneInc? || t.Recommit? || t.Release? || t.CountDown? || t.Complete?
  }

  /** A step of a core's handler leaves decrements, commits and the other cores alone, and promises one
      rknpu_job_next call when it finds no job or is done with one. */
  lemma HandlerOwes(s: State, t: Step, e: nat)
    requires Shape(s) && Enabled(s, t) && HandlerStep(t) && e < MAX_CORES
    ensures Shape(Apply(s, t)) && OwesNoMore(s, Apply(s, t))
    ensures e != t.c ==> Apply(s, t).cores[e] == s.cores[e]
    ensures Apply(s, t).cores[t.c].nextCalls ==
            s.cores[t.c].nextCalls + Bit(|| t.Complete?
                                         || (t.IrqEnter? && s.cores[t.c].slot.None?)
                                         || (t.CountDown? && s.jobs[s.cores[t.c].irq.job].interruptCount != 1))
  {
    ApplyShape(s, t);
    assert CoreShape(s.cores[t.c], |s.jobs|);
    forall i, d | 0 <= i < |s.jobs| && 0 <= d < MAX_CORES
      ensures |Apply(s, t).jobs| == |s.jobs|
      ensures Apply(s, t).jobs[i].parts[d].dec == s.jobs[i].parts[d].dec
      ensures Apply(s, t).jobs[i].parts[d].commit == s.jobs[i].parts[d].commit
    {
      HandlerPart(s, t, i, d);
    }
  }

  lemma HandlerPart(s: State, t: Step, i: JobId, d: nat)
    requires Shape(s) && Enabled(s, t) && HandlerStep(t) && i < |s.jobs| && d < MAX_CORES
    ensures |Apply(s, t).jobs| == |s.jobs| && |Apply(s, t).jobs[i].parts| == MAX_CORES
    ensures Apply(s, t).jobs[i].parts[d].dec == s.jobs[i].parts[d].dec
    ensures Apply(s, t).jobs[i].parts[d].commit == s.jobs[i].parts[d].commit
  {
  }

  lemma HandlerLeaves(s: State, t: Step)
    requires Shape(s) && Enabled(s, t) && HandlerStep(t)
    ensures Shape(Apply(s, t)) && OwesNoMore(s, Apply(s, t))
    ensures forall e :: 0 <= e < MAX_CORES && e != t.c ==> Apply(s, t).cores[e] == s.cores[e]
    ensures Apply(s, t).cores[t.c].nextCalls ==
            s.cores[t.c].nextCalls + Bit(|| t.Complete?
                                         || (t.IrqEnter? && s.cores[t.c].slot.None?)
                                         || (t.CountDown? && s.jobs[s.cores[t.c].irq.job].interruptCount != 1))
  {
    HandlerOwes(s, t, t.c);
    forall e | 0 <= e < MAX_CORES && e != t.c ensures Apply(s, t).cores[e] == s.cores[e] {
      HandlerOwes(s, t, e);
    }
  }

  /** Core `c`'s handler is idle, and there is no call outstanding that was not before. */
  ghost predicate NothingOwed(s: State, s': State, c: nat)
    requires Shape(s) && Shape(s') && c < MAX_CORES
  {
    && s'.cores[c].irq == Idle
    && OwesNoMore(s, s')
    && (forall e :: 0 <= e < MAX_CORES ==> s'.cores[e].nextCalls == s.cores[e].nextCalls)
  }

  lemma OwedTrans(s: State, s1: State, s2: State, c: nat)
    requires Shape(s) && Shape(s1) && Shape(s2) && c < MAX_CORES && OwesNoMore(s, s1) && NothingOwed(s1, s2, c)
    requires forall e :: 0 <= e < MAX_CORES ==> s1.cores[e].nextCalls == s.cores[e].nextCalls
    ensures NothingOwed(s, s2, c)
  {
    OwesTrans(s, s1, s2);
  }

  /** The tail of rknpu_job_done before its rknpu_job_next call. */
  function CoreFinished(s: State, c: nat): State
    requires Shape(s) && Enabled(s, Release(c))
  {
    HandlerShape(s, Release(c));
    var s1 := DoRelease(s, c);
    HandlerShape(s1, CountDown(c));
    var s2 := DoCountDown(s1, c);
    if s2.cores[c].irq.Final? then DoComplete(s2, c) else s2
  }

  /** One call has been promised on core `c`, its handler is idle and nothing else has moved. */
  ghost predicate OneCallOwed(s: State, s': State, c: nat)
    requires Shape(s) && Shape(s') && c < MAX_CORES
  {
    && s'.cores[c].irq == Idle && s'.cores[c].nextCalls == s.cores[c].nextCalls + 1
    && OwesNoMore(s, s')
    && (forall e :: 0 <= e < MAX_CORES && e != c ==> s'.cores[e] == s.cores[e])
  }

  lemma FinishRuns(s: State, c: nat) returns (ts: seq<Step>)
    requires Shape(s) && Enabled(s, Release(c))
    ensures NormalRuns(s, ts, CoreFinished(s, c)) && ts != [] && ts[0] == Release(c)
  {
    HandlerShape(s, Release(c));
    RunOne(true, s, Release(c));
    var s1 := Apply(s, Release(c));
    HandlerShape(s1, CountDown(c));
    RunsAppend(true, s, [Release(c)], s1, CountDown(c));
    ts := [Release(c)] + [CountDown(c)];
    var s2 := Apply(s1, CountDown(c));
    if s2.cores[c].irq.Final? {
      RunsAppend(true, s, ts, s2, Complete(c));
      ts := ts + [Complete(c)];
    }
  }

  lemma CoreFinishedOwes(s: State, c: nat)
    requires Shape(s) && Enabled(s, Release(c))
    ensures Shape(CoreFinished(s, c)) && OneCallOwed(s, CoreFinished(s, c), c)
  {
    HandlerLeaves(s, Release(c));
    var s1 := DoRelease(s, c);
    HandlerLeaves(s1, CountDown(c));
    var s2 := DoCountDown(s1, c);
    OwesTrans(s, s1, s2);
    if s2.cores[c].irq.Final? {
      HandlerLeaves(s2, Complete(c));
      OwesTrans(s, s2, DoComplete(s2, c));
    }
  }

  /** After the promised call is made nothing is owed. */
  lemma CallSettles(s: State, s1: State, c: nat)
    requires Shape(s) && Shape(s1) && c < MAX_CORES && OneCallOwed(s, s1, c)
    ensures Enabled(s1, NextCall(c)) && Shape(NextCalled(s1, c)) && NothingOwed(s, NextCalled(s1, c), c)
  {
    NextCalledOwes(s1, c);
    OwesTrans(s, s1, NextCalled(s1, c));
    forall e | 0 <= e < MAX_CORES
      ensures NextCalled(s1, c).cores[e].nextCalls == s.cores[e].nextCalls
      ensures e == c ==> NextCalled(s1, c).cores[e].irq == Idle
    {
      CallMade(s1, c, e);
    }
  }

  /** rknpu_job_done: the next chunk, or the tail and the next job. */
  function DoneCalled(s: State, c: nat): State
    requires Shape(s) && Enabled(s, DoneInc(c))
  {
    HandlerShape(s, DoneInc(c));
    var s1 := DoDoneInc(s, c);
    if s1.cores[c].irq.Again? then DoRecommit(s1, c)
    else
      CoreFinishedOwes(s1, c);
      NextCalled(CoreFinished(s1, c), c)
  }

  lemma DoneRuns(s: State, c: nat) returns (ts: seq<Step>)
    requires Shape(s) && Enabled(s, DoneInc(c))
    ensures NormalRuns(s, ts, DoneCalled(s, c)) && |ts| >= 2 && ts[0] == DoneInc(c)
    ensures ts == [DoneInc(c), Recommit(c)] || (ts[1] == Release(c) && NextCall(c) in ts)
  {
    HandlerShape(s, DoneInc(c));
    RunOne(true, s, DoneInc(c));
    var s1 := DoDoneInc(s, c);
    if s1.cores[c].irq.Again? {
      RunOne(true, s1, Recommit(c));
      RunsConcat(true, s, [DoneInc(c)], s1, [Recommit(c)], DoRecommit(s1, c));
      ts := [DoneInc(c)] + [Recommit(c)];
    } else {
      var finish := FinishRuns(s1, c);
      CoreFinishedOwes(s1, c);
      var s2 := CoreFinished(s1, c);
      var next := NextRuns(s2, c);
      RunsConcat(true, s1, finish, s2, next, NextCalled(s2, c));
      RunsConcat(true, s, [DoneInc(c)], s1, finish + next, NextCalled(s2, c));
      ts := [DoneInc(c)] + (finish + next);
      assert ts[1 + |finish|] == NextCall(c);
    }
  }

  lemma DoneCalledOwes(s: State, c: nat)
    requires Shape(s) && Enabled(s, DoneInc(c))
    ensures Shape(DoneCalled(s, c)) && NothingOwed(s, DoneCalled(s, c), c)
  {
    HandlerLeaves(s, DoneInc(c));
    var s1 := DoDoneInc(s, c);
    if s1.cores[c].irq.Again? {
      HandlerLeaves(s1, Recommit(c));
    } else {
      CoreFinishedOwes(s1, c);
      CallSettles(s1, CoreFinished(s1, c), c);
    }
    OwedTrans(s, s1, DoneCalled(s, c), c);
  }

  /** An interrupt on an empty slot is over once its rknpu_job_next call has been made. */
  lemma EmptyEnterOwes(s: State, c: nat)
    requires Shape(s) && Enabled(s, IrqEnter(c)) && s.cores[c].slot.None?
    ensures Shape(DoIrqEnter(s, c)) && Enabled(DoIrqEnter(s, c), NextCall(c))
    ensures Shape(NextCalled(DoIrqEnter(s, c), c)) && NothingOwed(s, NextCalled(DoIrqEnter(s, c), c), c)
  {
    HandlerLeaves(s, IrqEnter(c));
    CallSettles(s, DoIrqEnter(s, c), c);
  }

  lemma JobEnterOwes(s: State, c: nat, s': State)
    requires Shape(s) && Enabled(s, IrqEnter(c)) && s.cores[c].slot.Some? && Shape(DoIrqEnter(s, c)) && Shape(s')
    requires NothingOwed(DoIrqEnter(s, c), s', c)
    ensures NothingOwed(s, s', c)
  {
    HandlerLeaves(s, IrqEnter(c));
    OwedTrans(s, DoIrqEnter(s, c), s', c);
  }
}
