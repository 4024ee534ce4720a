/** Busy-time accounting driven by the scheduler: every critical section that fills or clears a slot
    sets or settles the clock in the same section, while time passes and the timer ticks at will. */
module BusyRuns {
  import opened Npu
  import Scheduler
  import Fifo
  import BusyTime

  datatype Timed = Timed(s: Scheduler.State, k: BusyTime.Clock)

  datatype Event =
    | Sched(t: Scheduler.Step)
    | Pass(dt: nat)         // time goes by
    | Tick(c: nat)          // one turn of the loop of hrtimer_handler

  /** What the critical section of a scheduler step does to the accounting. */
  function Effect(s: Scheduler.State, t: Scheduler.Step): BusyTime.Event
    requires Scheduler.Shape(s) && Scheduler.Enabled(s, t)
  {
    match t
    case NextCall(c) =>
      var core := s.cores[c];
      if core.slot.Some? || core.todo == [] then BusyTime.Advance(0) else BusyTime.Pop(c, core.todo[0])
    case Release(c) => BusyTime.Release(c)
    case Abort(j) => BusyTime.Drop(set c: nat | c < MAX_CORES && Scheduler.AbortFrees(s, j, c))
    case _ => BusyTime.Advance(0)
  }

  predicate Sized(w: Timed) {
    Scheduler.Shape(w.s) && BusyTime.Shape(w.k) && |w.k.meters| == MAX_CORES
  }

  /** The scheduler, or the timer, may take this event. */
  predicate Offered(w: Timed, e: Event)
    requires Sized(w)
  {
    match e
    case Sched(t) => Scheduler.Enabled(w.s, t)
    case Pass(_) => true
    case Tick(c) => c < w.s.cfg.numIrqs
  }

  function ClockEvent(w: Timed, e: Event): BusyTime.Event
    requires Sized(w) && Offered(w, e)
  {
    match e
    case Sched(t) => Effect(w.s, t)
    case Pass(dt) => BusyTime.Advance(dt)
    case Tick(c) => BusyTime.Tick(c)
  }

  predicate Can(w: Timed, e: Event)
    requires Sized(w)
  {
    Offered(w, e) && BusyTime.Enabled(w.k, ClockEvent(w, e))
  }

  function After(w: Timed, e: Event): Timed
    requires Sized(w) && Can(w, e)
  {
    Timed(if e.Sched? then Scheduler.Apply(w.s, e.t) else w.s, BusyTime.Apply(w.k, ClockEvent(w, e)))
  }

  /** The clock's slots are the scheduler's. */
  predicate Agree(s: Scheduler.State, k: BusyTime.Clock)
    requires Scheduler.Shape(s) && |k.meters| == MAX_CORES
  {
    forall c :: 0 <= c < MAX_CORES ==> k.meters[c].slot == s.cores[c].slot
  }

  ghost predicate Inv(w: Timed) {
    Sized(w) && Fifo.Inv(w.s) && BusyTime.Inv(w.k) && Agree(w.s, w.k)
  }

  function Start(cfg: Config, now: int): Timed {
    Timed(Scheduler.Init(cfg), BusyTime.Start(MAX_CORES, now))
  }

  // ---------- one event ----------

  /** The accounting never refuses what the scheduler does. */
  lemma NeverRefused(w: Timed, e: Event)
    requires Inv(w) && Offered(w, e)
    ensures Can(w, e)
  {
    if e.Sched? && e.t.Release? {
      assert Fifo.HandlerOk(w.s, e.t.c);
    }
  }

  /** Steps other than pop, release and abort leave every slot alone. */
  lemma SlotsStay(s: Scheduler.State, t: Scheduler.Step, c: nat)
    requires Scheduler.Shape(s) && Scheduler.Enabled(s, t) && c < MAX_CORES
    requires !t.NextCall? && !t.Release? && !t.Abort?
    ensures |Scheduler.Apply(s, t).cores| == MAX_CORES
    ensures Scheduler.Apply(s, t).cores[c].slot == s.cores[c].slot
  {
  }

  lemma SlotsFollow(w: Timed, t: Scheduler.Step)
    requires Inv(w) && Can(w, Sched(t)) && Scheduler.Shape(Scheduler.Apply(w.s, t))
    ensures Agree(Scheduler.Apply(w.s, t), BusyTime.Apply(w.k, Effect(w.s, t)))
  {
    var s', k' := Scheduler.Apply(w.s, t), BusyTime.Apply(w.k, Effect(w.s, t));
    forall c | 0 <= c < MAX_CORES ensures k'.meters[c].slot == s'.cores[c].slot {
      assert w.k.meters[c].slot == w.s.cores[c].slot;
      if !t.NextCall? && !t.Release? && !t.Abort? { SlotsStay(w.s, t, c); }
    }
  }

  lemma EventKeeps(w: Timed, e: Event)
    requires Inv(w) && Can(w, e)
    ensures Inv(After(w, e))
  {
    BusyTime.EventKeeps(w.k, ClockEvent(w, e));
    if e.Sched? {
      Fifo.StepKeeps(w.s, e.t);
      SlotsFollow(w, e.t);
    }
  }

  // ---------- runs ----------

  ghost predicate Runs(w0: Timed, es: seq<Event>, w: Timed)
    decreases |es|
  {
    if es == [] then w == w0
    else Sized(w0) && Can(w0, es[0]) && Runs(After(w0, es[0]), es[1..], w)
  }

  function Steps(es: seq<Event>): seq<Scheduler.Step> {
    if es == [] then []
    else (if es[0].Sched? then [es[0].t] else []) + Steps(es[1..])
  }

  function ClockEvents(w: Timed, es: seq<Event>): seq<BusyTime.Event>
    decreases |es|
  {
    if es != [] && Sized(w) && Can(w, es[0]) then
      [ClockEvent(w, es[0])] + ClockEvents(After(w, es[0]), es[1..])
    else []
  }

  lemma {:induction false} RunSplits(w0: Timed, es: seq<Event>, w: Timed)
    requires Inv(w0) && Runs(w0, es, w)
    ensures Inv(w)
    ensures Scheduler.Runs(w0.s, Steps(es), w.s)
    ensures BusyTime.Runs(w0.k, ClockEvents(w0, es), w.k)
    decreases |es|
  {
    if es == [] {
      Scheduler.RunNil(false, w0.s, w.s);
    } else {
      var w1 := After(w0, es[0]);
      EventKeeps(w0, es[0]);
      RunSplits(w1, es[1..], w);
      var ks := ClockEvents(w0, es);
      assert ks[1..] == ClockEvents(w1, es[1..]) && ks[0] == ClockEvent(w0, es[0]);
      if es[0].Sched? {
        assert Steps(es)[1..] == Steps(es[1..]) && Steps(es)[0] == es[0].t;
        Scheduler.RunCons(false, w0.s, Steps(es), w.s);
      } else {
        assert Steps(es) == Steps(es[1..]) && w1.s == w0.s;
      }
    }
  }

  lemma StartInv(cfg: Config, now: int)
    requires ValidConfig(cfg)
    ensures Inv(Start(cfg, now))
  {
    Fifo.InitInv(cfg);
  }

  /** In every joint run, aborts and spurious interrupts included: the scheduler part is a run of the
      scheduler, the clock part a run of the accounting with the same slots, a core's credit falls
      short of its occupancy by exactly what the run lost, and nothing is lost if and only if no
      event discarded an interval that had begun. */
  lemma ScheduledAccount(cfg: Config, now: int, es: seq<Event>, w: Timed, c: nat)
    requires ValidConfig(cfg) && Runs(Start(cfg, now), es, w) && c < MAX_CORES
    ensures Sized(w) && Agree(w.s, w.k)
    ensures Scheduler.Runs(Scheduler.Init(cfg), Steps(es), w.s)
    ensures var ks := ClockEvents(Start(cfg, now), es);
            && BusyTime.Runs(BusyTime.Start(MAX_CORES, now), ks, w.k)
            && BusyTime.Deficit(w.k, c) == BusyTime.TotalLoss(BusyTime.Start(MAX_CORES, now), ks, c)
            && (BusyTime.Deficit(w.k, c) == 0 <==> BusyTime.Lossless(BusyTime.Start(MAX_CORES, now), ks, c))
  {
    StartInv(cfg, now);
    RunSplits(Start(cfg, now), es, w);
    BusyTime.BusyAccount(MAX_CORES, now, ClockEvents(Start(cfg, now), es), w.k, c);
  }

  /** The accounting restricts no scheduler run: whatever step the scheduler offers in a joint run can
      be taken jointly. */
  lemma NeverBlocked(cfg: Config, now: int, es: seq<Event>, w: Timed, e: Event)
    requires ValidConfig(cfg) && Runs(Start(cfg, now), es, w) && Sized(w) && Offered(w, e)
    ensures Can(w, e)
  {
    StartInv(cfg, now);
    RunSplits(Start(cfg, now), es, w);
    NeverRefused(w, e);
  }

  // ---------- single-core jobs ----------

  predicate SingleCore(s: Scheduler.State) {
    forall j :: 0 <= j < |s.specs| ==> UseCoreNum(s.specs[j].mask) == 1
  }

  /** Submissions of single-core jobs, and no abort. */
  predicate Plain(e: Event) {
    e.Sched? ==> !e.t.Abort? && (e.t.Submit? ==> UseCoreNum(e.t.spec.mask) == 1)
  }

  /** With single-core jobs, a job held by one core is neither held nor queued on another. */
  lemma HeldOnce(s: Scheduler.State, j: Scheduler.JobId, c: nat, d: nat)
    requires Fifo.Inv(s) && SingleCore(s) && c < MAX_CORES && d < MAX_CORES && c != d
    requires s.cores[c].slot == Some(j)
    ensures s.cores[d].slot != Some(j) && j !in s.cores[d].todo
  {
    assert Scheduler.CoreShape(s.cores[c], |s.jobs|);
    assert Fifo.PlaceOk(s, j, c) && Fifo.PlaceOk(s, j, d);
    assert UseCoreNum(s.specs[j].mask) == 1;
    OneCore(s.specs[j].mask, c, d);
  }

  lemma OneCore(mask: nat, c: nat, d: nat)
    requires UseCoreNum(mask) == 1 && c < MAX_CORES && d < MAX_CORES && c != d && HasCore(mask, c)
    ensures !HasCore(mask, d)
  {
  }

  lemma PlainLosesNothing(w: Timed, e: Event, c: nat)
    requires Inv(w) && SingleCore(w.s) && Can(w, e) && Plain(e) && c < MAX_CORES
    ensures !BusyTime.Discards(w.k, ClockEvent(w, e), c)
  {
    var k := ClockEvent(w, e);
    if BusyTime.Discards(w.k, k, c) {
      assert k.c != c && k.c < MAX_CORES;
      HeldOnce(w.s, w.k.meters[c].slot.value, c, k.c);
      assert false;
    }
  }

  lemma PlainKeeps(w: Timed, e: Event)
    requires Inv(w) && SingleCore(w.s) && Can(w, e) && Plain(e)
    ensures Inv(After(w, e)) && SingleCore(After(w, e).s)
  {
    EventKeeps(w, e);
    if e.Sched? { Scheduler.ApplyShape(w.s, e.t); }
  }

  lemma {:induction false} PlainRun(w0: Timed, es: seq<Event>, w: Timed, c: nat)
    requires Inv(w0) && SingleCore(w0.s) && Runs(w0, es, w) && c < MAX_CORES
    requires forall i :: 0 <= i < |es| ==> Plain(es[i])
    ensures Inv(w) && BusyTime.Deficit(w.k, c) == BusyTime.Deficit(w0.k, c)
    ensures BusyTime.Fresh(w0.k, c) ==> BusyTime.Fresh(w.k, c)
    decreases |es|
  {
    if es != [] {
      PlainKeeps(w0, es[0]);
      PlainLosesNothing(w0, es[0], c);
      BusyTime.LossOfStep(w0.k, ClockEvent(w0, es[0]), c);
      if BusyTime.Fresh(w0.k, c) { BusyTime.FreshKeeps(w0.k, ClockEvent(w0, es[0]), c); }
      PlainRun(After(w0, es[0]), es[1..], w, c);
    }
  }

  /** Busy-time conservation over scheduler runs: with single-core jobs and no abort, whatever the
      hardware reports and whenever the timer ticks, the snapshots, the current busy_time and the
      interval not yet credited are exactly the time the slot was occupied. */
  lemma BusyConservation(cfg: Config, now: int, es: seq<Event>, w: Timed, c: nat)
    requires ValidConfig(cfg) && Runs(Start(cfg, now), es, w) && c < MAX_CORES
    requires forall i :: 0 <= i < |es| ==> Plain(es[i])
    ensures Sized(w) && Scheduler.Runs(Scheduler.Init(cfg), Steps(es), w.s)
    ensures w.k.meters[c].slot == w.s.cores[c].slot
    ensures BusyTime.Stored(BusyTime.Start(MAX_CORES, now), ClockEvents(Start(cfg, now), es), c)
            + w.k.meters[c].busy + BusyTime.Running(w.k, c) == BusyTime.Occupancy(w.k, c)
  {
    StartInv(cfg, now);
    PlainRun(Start(cfg, now), es, w, c);
    ScheduledAccount(cfg, now, es, w, c);
    BusyTime.BusyAccount(MAX_CORES, now, ClockEvents(Start(cfg, now), es), w.k, c);
  }

  /** In such a run the timer reports a core as busy for the whole time since its last tick if the job in
      its slot was there before that tick, and otherwise from the pop on, plus what was credited before. */
  lemma BusySnapshot(cfg: Config, now: int, es: seq<Event>, w: Timed, c: nat)
    requires ValidConfig(cfg) && Runs(Start(cfg, now), es, w) && c < MAX_CORES
    requires forall i :: 0 <= i < |es| ==> Plain(es[i])
    requires Sized(w) && w.s.cores[c].slot.Some?
    ensures var m := w.k.meters[c];
            BusyTime.TickCore(w.k, c).meters[c].snapshot ==
            if m.since <= m.lastTick then w.k.now - m.lastTick else m.busy + (w.k.now - m.since)
  {
    StartInv(cfg, now);
    PlainRun(Start(cfg, now), es, w, c);
    BusyTime.FullInterval(w.k, c);
  }
}
