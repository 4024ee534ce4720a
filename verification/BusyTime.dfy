/** Busy-time accounting: the scheduler credits a core when a job leaves it, the load timer credits
    the running job at every tick and takes a snapshot.  Both use the job's one hw_recoder_time. */
module BusyTime {
  import opened Npu

  type JobId = nat

  /** One core: its slot, the timer fields, and three histories: the sum of all snapshots, the time
      of the last tick, and the total time the slot was occupied by jobs that have left. */
  datatype Meter = Meter(
    slot: Option<JobId>,
    busy: int,          // timer.busy_time
    snapshot: int,      // timer.total_busy_time
    lastTick: int,
    snapshots: int,
    since: int,         // when the slot was last filled
    occupied: int)

  datatype Clock = Clock(now: int, meters: seq<Meter>, recorder: map<JobId, int>)

  datatype Event =
    | Advance(dt: nat)
    | Pop(c: nat, j: JobId)
    | Release(c: nat)
    | Drop(cs: set<nat>)  // rknpu_job_abort: slots are cleared without credit, all in one section
    | Tick(c: nat)

  predicate Shape(k: Clock) {
    forall c :: 0 <= c < |k.meters| && k.meters[c].slot.Some? ==> k.meters[c].slot.value in k.recorder
  }

  predicate Enabled(k: Clock, e: Event)
    requires Shape(k)
  {
    match e
    case Advance(_) => true
    case Pop(c, j) => c < |k.meters| && k.meters[c].slot.None?
    case Release(c) => c < |k.meters| && k.meters[c].slot.Some?
    case Drop(cs) => forall c :: c in cs ==> c < |k.meters| && k.meters[c].slot.Some?
    case Tick(c) => c < |k.meters|
  }

  function Left(k: Clock, m: Meter): Meter {
    m.(slot := None, occupied := m.occupied + (k.now - m.since))
  }

  /** One turn of the loop of hrtimer_handler. */
  function TickCore(k: Clock, c: nat): Clock
    requires Shape(k) && c < |k.meters|
  {
    var m := k.meters[c];
    if m.slot.Some? then
      var busy := m.busy + (k.now - k.recorder[m.slot.value]);
      k.(meters := k.meters[c := m.(snapshot := busy, busy := 0, lastTick := k.now, snapshots := m.snapshots + busy)],
         recorder := k.recorder[m.slot.value := k.now])
    else
      var m' := m.(snapshot := m.busy, busy := 0, lastTick := k.now, snapshots := m.snapshots + m.busy);
      k.(meters := k.meters[c := m'])
  }

  function Apply(k: Clock, e: Event): Clock
    requires Shape(k) && Enabled(k, e)
  {
    match e
    case Advance(dt) => k.(now := k.now + dt)
    case Pop(c, j) =>
      k.(meters := k.meters[c := k.meters[c].(slot := Some(j), since := k.now)], recorder := k.recorder[j := k.now])
    case Release(c) =>
      var m := k.meters[c];
      k.(meters := k.meters[c := Left(k, m).(busy := m.busy + (k.now - k.recorder[m.slot.value]))])
    case Drop(cs) =>
      k.(meters := seq(|k.meters|, c requires 0 <= c < |k.meters| =>
           if c in cs then Left(k, k.meters[c]) else k.meters[c]))
    case Tick(c) => TickCore(k, c)
  }

  // ---------- any mix of jobs ----------

  /** Credit the running job would get if it were settled now. */
  function Running(k: Clock, c: nat): int
    requires Shape(k) && c < |k.meters|
  {
    var m := k.meters[c];
    if m.slot.Some? then k.now - k.recorder[m.slot.value] else 0
  }

  function Occupancy(k: Clock, c: nat): int
    requires c < |k.meters|
  {
    var m := k.meters[c];
    m.occupied + if m.slot.Some? then k.now - m.since else 0
  }

  function Credited(k: Clock, c: nat): int
    requires Shape(k) && c < |k.meters|
  {
    k.meters[c].snapshots + k.meters[c].busy + Running(k, c)
  }

  /** The recorder of the running job lies between the core's last tick (plus what was credited
      since) and now, and not before the job entered the slot. */
  predicate MeterOk(k: Clock, c: nat)
    requires Shape(k) && c < |k.meters|
  {
    var m := k.meters[c];
    && m.busy >= 0
    && m.lastTick + m.busy <= k.now
    && (m.slot.Some? ==>
          && m.lastTick + m.busy <= k.recorder[m.slot.value] <= k.now
          && m.since <= k.recorder[m.slot.value])
    && Credited(k, c) <= Occupancy(k, c)
  }

  ghost predicate Inv(k: Clock) {
    Shape(k) && forall c :: 0 <= c < |k.meters| ==> MeterOk(k, c)
  }

  lemma EventKeeps(k: Clock, e: Event)
    requires Inv(k) && Enabled(k, e)
    ensures Inv(Apply(k, e)) && |Apply(k, e).meters| == |k.meters|
  {
    var k' := Apply(k, e);
    forall c | 0 <= c < |k'.meters| ensures MeterOk(k', c) {
      assert MeterOk(k, c);
    }
  }

  ghost predicate Runs(k0: Clock, es: seq<Event>, k: Clock)
    decreases |es|
  {
    if es == [] then k == k0
    else Shape(k0) && Enabled(k0, es[0]) && Runs(Apply(k0, es[0]), es[1..], k)
  }

  lemma {:induction false} RunKeeps(k0: Clock, es: seq<Event>, k: Clock)
    requires Inv(k0) && Runs(k0, es, k)
    ensures Inv(k) && |k.meters| == |k0.meters|
    decreases |es|
  {
    if es != [] {
      EventKeeps(k0, es[0]);
      RunKeeps(Apply(k0, es[0]), es[1..], k);
    }
  }

  function Start(n: nat, now: int): Clock {
    Clock(now, seq(n, _ => Meter(None, 0, 0, now, 0, now, 0)), map[])
  }

  /** For any mix of jobs, gangs and aborts included: a snapshot never exceeds the time since the
      core's previous tick, and no core is ever credited more than its slot was occupied. */
  lemma SnapshotsBounded(n: nat, now: int, es: seq<Event>, k: Clock, c: nat)
    requires Runs(Start(n, now), es, k) && c < n
    ensures |k.meters| == n && Shape(k)
    ensures 0 <= TickCore(k, c).meters[c].snapshot <= k.now - k.meters[c].lastTick
    ensures Credited(k, c) <= Occupancy(k, c)
  {
    RunKeeps(Start(n, now), es, k);
    assert MeterOk(k, c);
  }

  // ---------- exactly how much is lost ----------

  /** The event ends or restarts the interval core `c` has not been credited for: an abort of its job,
      or a pop or a tick of the same job on another core. */
  predicate Discards(k: Clock, e: Event, c: nat)
    requires Shape(k) && c < |k.meters|
  {
    && k.meters[c].slot.Some?
    && match e
       case Pop(d, j) => d != c && k.meters[c].slot == Some(j)
       case Tick(d) => d != c && d < |k.meters| && k.meters[d].slot == k.meters[c].slot
       case Drop(cs) => c in cs
       case _ => false
  }

  /** Some time has gone by since the recorder was last set when the event discards the interval. */
  predicate Loses(k: Clock, e: Event, c: nat)
    requires Shape(k) && c < |k.meters|
  {
    Discards(k, e, c) && k.recorder[k.meters[c].slot.value] < k.now
  }

  function Loss(k: Clock, e: Event, c: nat): int
    requires Shape(k) && c < |k.meters|
  {
    if Discards(k, e, c) then Running(k, c) else 0
  }

  function Deficit(k: Clock, c: nat): int
    requires Shape(k) && c < |k.meters|
  {
    Occupancy(k, c) - Credited(k, c)
  }

  lemma LossOfStep(k: Clock, e: Event, c: nat)
    requires Inv(k) && Enabled(k, e) && c < |k.meters|
    ensures Shape(Apply(k, e)) && |Apply(k, e).meters| == |k.meters|
    ensures Deficit(Apply(k, e), c) == Deficit(k, c) + Loss(k, e, c)
    ensures Loss(k, e, c) >= 0 && (Loss(k, e, c) > 0 <==> Loses(k, e, c))
  {
    assert MeterOk(k, c);
  }

  /** Everything core `c` loses along a run. */
  function TotalLoss(k: Clock, es: seq<Event>, c: nat): int
    decreases |es|
  {
    if es != [] && Shape(k) && c < |k.meters| && Enabled(k, es[0]) then
      Loss(k, es[0], c) + TotalLoss(Apply(k, es[0]), es[1..], c)
    else 0
  }

  /** No event of the run loses time on core `c`. */
  predicate Lossless(k: Clock, es: seq<Event>, c: nat)
    decreases |es|
  {
    es != [] && Shape(k) && c < |k.meters| && Enabled(k, es[0]) ==>
      !Loses(k, es[0], c) && Lossless(Apply(k, es[0]), es[1..], c)
  }

  lemma {:induction false} LossOfRun(k0: Clock, es: seq<Event>, k: Clock, c: nat)
    requires Inv(k0) && Runs(k0, es, k) && c < |k0.meters|
    ensures Shape(k) && |k.meters| == |k0.meters|
    ensures Deficit(k, c) == Deficit(k0, c) + TotalLoss(k0, es, c)
    ensures TotalLoss(k0, es, c) >= 0 && (TotalLoss(k0, es, c) == 0 <==> Lossless(k0, es, c))
    decreases |es|
  {
    if es != [] {
      EventKeeps(k0, es[0]);
      LossOfStep(k0, es[0], c);
      LossOfRun(Apply(k0, es[0]), es[1..], k, c);
    }
  }

  /** What a tick stores: total_busy_time is everything credited since the last tick plus the running
      interval, busy_time starts again from zero, and the other cores are left alone. */
  lemma TickStores(k: Clock, c: nat)
    requires Shape(k) && c < |k.meters|
    ensures var k' := TickCore(k, c);
            && |k'.meters| == |k.meters| && Shape(k') && k'.now == k.now
            && k'.meters[c].snapshot == k.meters[c].busy + Running(k, c)
            && k'.meters[c].snapshots == k.meters[c].snapshots + k'.meters[c].snapshot
            && k'.meters[c].busy == 0 && Running(k', c) == 0 && k'.meters[c].lastTick == k.now
            && k'.meters[c].slot == k.meters[c].slot
            && (forall d :: 0 <= d < |k.meters| && d != c ==> k'.meters[d] == k.meters[d])
  {
  }

  /** The values of total_busy_time that the ticks of core `c` store along a run, added up. */
  function Stored(k: Clock, es: seq<Event>, c: nat): int
    decreases |es|
  {
    if es != [] && Shape(k) && c < |k.meters| && Enabled(k, es[0]) then
      (if es[0] == Tick(c) then TickCore(k, c).meters[c].snapshot else 0) + Stored(Apply(k, es[0]), es[1..], c)
    else 0
  }

  lemma {:induction false} StoredIsHistory(k0: Clock, es: seq<Event>, k: Clock, c: nat)
    requires Inv(k0) && Runs(k0, es, k) && c < |k0.meters|
    ensures |k.meters| == |k0.meters| && k.meters[c].snapshots == k0.meters[c].snapshots + Stored(k0, es, c)
    decreases |es|
  {
    if es != [] {
      EventKeeps(k0, es[0]);
      TickStores(k0, c);
      StoredIsHistory(Apply(k0, es[0]), es[1..], k, c);
    }
  }

  /** Busy-time accounting, for any mix of single-core jobs, gangs and aborts: the stored snapshots,
      busy_time, the running interval and the losses add up to the time the slot was occupied; the
      accounting is exact if and only if no event of the run discarded an interval that had already
      begun. */
  lemma BusyAccount(n: nat, now: int, es: seq<Event>, k: Clock, c: nat)
    requires Runs(Start(n, now), es, k) && c < n
    ensures |k.meters| == n && Shape(k)
    ensures Stored(Start(n, now), es, c) + k.meters[c].busy + Running(k, c) + TotalLoss(Start(n, now), es, c) ==
            Occupancy(k, c)
    ensures Deficit(k, c) == TotalLoss(Start(n, now), es, c)
    ensures Credited(k, c) == Occupancy(k, c) <==> Lossless(Start(n, now), es, c)
  {
    LossOfRun(Start(n, now), es, k, c);
    StoredIsHistory(Start(n, now), es, k, c);
  }

  /** The recorder was last set by the core itself, at its last tick or at the pop after it. */
  predicate Fresh(k: Clock, c: nat)
    requires Shape(k) && c < |k.meters|
  {
    var m := k.meters[c];
    m.slot.Some? ==>
      && k.recorder[m.slot.value] == (if m.since <= m.lastTick then m.lastTick else m.since)
      && (m.since <= m.lastTick ==> m.busy == 0)
  }

  lemma FreshKeeps(k: Clock, e: Event, c: nat)
    requires Inv(k) && Enabled(k, e) && c < |k.meters| && Fresh(k, c) && !Discards(k, e, c)
    ensures Shape(Apply(k, e)) && c < |Apply(k, e).meters| && Fresh(Apply(k, e), c)
  {
    assert MeterOk(k, c);
  }

  /** A job that has held the slot since before the last tick counts as busy for the whole interval. */
  lemma FullInterval(k: Clock, c: nat)
    requires Shape(k) && c < |k.meters| && Fresh(k, c) && k.meters[c].slot.Some?
    ensures k.meters[c].since <= k.meters[c].lastTick ==>
              TickCore(k, c).meters[c].snapshot == k.now - k.meters[c].lastTick
    ensures k.meters[c].since > k.meters[c].lastTick ==>
              TickCore(k, c).meters[c].snapshot == k.meters[c].busy + (k.now - k.meters[c].since)
  {
  }

  /** What is lost stays lost: the deficit of a core never shrinks. */
  lemma DeficitOnlyGrows(k0: Clock, es: seq<Event>, k: Clock, c: nat)
    requires Inv(k0) && Runs(k0, es, k) && c < |k0.meters|
    ensures Shape(k) && c < |k.meters| && Deficit(k0, c) <= Deficit(k, c)
  {
    LossOfRun(k0, es, k, c);
  }

  /** Gangs lose time: in whatever state core `d` pops the job that core `c` holds, core `c` is short
      of the whole time since the job's recorder was set, in every continuation of the run. */
  lemma GangLosesTime(k: Clock, c: nat, d: nat, j: JobId, es: seq<Event>, k': Clock)
    requires Inv(k) && c < |k.meters| && k.meters[c].slot == Some(j)
    requires Enabled(k, Pop(d, j)) && Runs(Apply(k, Pop(d, j)), es, k')
    ensures Shape(k') && c < |k'.meters|
    ensures Credited(k', c) <= Occupancy(k', c) - (k.now - k.recorder[j])
  {
    LossOfStep(k, Pop(d, j), c);
    assert MeterOk(k, c);
    EventKeeps(k, Pop(d, j));
    DeficitOnlyGrows(Apply(k, Pop(d, j)), es, k', c);
  }

  /** An abort loses the interval since the last tick, or since the pop. */
  lemma AbortLosesTime(k: Clock, c: nat, cs: set<nat>, es: seq<Event>, k': Clock)
    requires Inv(k) && c < |k.meters| && c in cs
    requires Enabled(k, Drop(cs)) && Runs(Apply(k, Drop(cs)), es, k')
    ensures Shape(k') && c < |k'.meters|
    ensures Credited(k', c) <= Occupancy(k', c) - (k.now - k.recorder[k.meters[c].slot.value])
  {
    LossOfStep(k, Drop(cs), c);
    assert MeterOk(k, c);
    EventKeeps(k, Drop(cs));
    DeficitOnlyGrows(Apply(k, Drop(cs)), es, k', c);
  }

  /** Such runs exist, for any amount of time: core 1 pops a job `dt` after core 0. */
  lemma GangLossExample(dt: nat) returns (es: seq<Event>, k: Clock)
    ensures Runs(Start(2, 0), es, k) && Shape(k) && |k.meters| == 2
    ensures Occupancy(k, 0) == dt && Credited(k, 0) == 0
  {
    var k0 := Start(2, 0);
    var k1 := Apply(k0, Pop(0, 7));
    var k2 := Apply(k1, Advance(dt));
    k := Apply(k2, Pop(1, 7));
    es := [Pop(0, 7), Advance(dt), Pop(1, 7)];
    assert es[1..] == [Advance(dt), Pop(1, 7)] && es[1..][1..] == [Pop(1, 7)];
    assert Runs(k, es[1..][1..][1..], k);
    assert Runs(k2, es[1..][1..], k);
    assert Runs(k1, es[1..], k);
  }

  // ---------- the timer handler ----------

  /** Ticks of cores 0 .. n-1, core `i` at time `times(i)`. */
  function TickAll(k: Clock, times: nat -> int, n: nat): (r: Clock)
    requires Shape(k) && n <= |k.meters|
    ensures Shape(r) && |r.meters| == |k.meters|
  {
    if n == 0 then k
    else
      var k' := TickAll(k, times, n - 1);
      TickCore(k'.(now := times(n - 1)), n - 1)
  }

  /** Read at ascending times, a pass of the handler is a run of Advance and Tick events. */
  lemma {:induction false} TickAllKeeps(k: Clock, times: nat -> int, n: nat)
    requires Inv(k) && n <= |k.meters|
    requires forall i: nat :: i < n ==> k.now <= times(i)
    requires forall i: nat, j: nat :: i < j < n ==> times(i) <= times(j)
    ensures Inv(TickAll(k, times, n)) && TickAll(k, times, n).now == if n == 0 then k.now else times(n - 1)
  {
    if n > 0 {
      TickAllKeeps(k, times, n - 1);
      var k' := TickAll(k, times, n - 1);
      EventKeeps(k', Advance(times(n - 1) - k'.now));
      EventKeeps(k'.(now := times(n - 1)), Tick(n - 1));
    }
  }

  /** A pass settles every core once, at its own time: core `i` stores its own credit plus the time since
      its job's recorder was set, by an earlier core of the same pass if that holds the job too. */
  lemma {:induction false} TickAllExact(k: Clock, times: nat -> int, n: nat, i: nat)
    requires Shape(k) && n <= |k.meters| && i < |k.meters|
    ensures var m := TickAll(k, times, n).meters[i];
            && (i >= n ==> m == k.meters[i])
            && (i < n ==> m.lastTick == times(i) && m.busy == 0 && m.slot == k.meters[i].slot)
            && (i < n ==> m.snapshots == k.meters[i].snapshots + m.snapshot)
            && (i < n && k.meters[i].slot.None? ==> m.snapshot == k.meters[i].busy)
            && (i < n && k.meters[i].slot.Some? ==>
                  m.snapshot == k.meters[i].busy + (times(i) - RecorderAt(k, times, i, k.meters[i].slot.value)))
  {
    if n > 0 {
      TickAllExact(k, times, n - 1, i);
      if i == n - 1 && k.meters[i].slot.Some? {
        RecorderAfter(k, times, i, k.meters[i].slot.value);
      }
    }
  }

  /** The recorder of job `j` when the pass arrives at core `n`. */
  function RecorderAt(k: Clock, times: nat -> int, n: nat, j: JobId): int
    requires Shape(k) && n <= |k.meters| && j in k.recorder
  {
    if n == 0 then k.recorder[j]
    else if k.meters[n - 1].slot == Some(j) then times(n - 1)
    else RecorderAt(k, times, n - 1, j)
  }

  lemma {:induction false} RecorderAfter(k: Clock, times: nat -> int, n: nat, j: JobId)
    requires Shape(k) && n <= |k.meters| && j in k.recorder
    ensures j in TickAll(k, times, n).recorder && TickAll(k, times, n).recorder[j] == RecorderAt(k, times, n, j)
  {
    if n > 0 {
      RecorderAfter(k, times, n - 1, j);
      TickAllExact(k, times, n - 1, n - 1);
    }
  }

  class LoadTimer {
    var clock: Clock
    const cores: nat

    ghost predicate Valid()
      reads this
    {
      Shape(clock) && cores <= |clock.meters|
    }

    constructor (cores: nat, now: int)
      ensures Valid() && clock == Start(cores, now) && this.cores == cores
    {
      this.cores := cores;
      clock := Start(cores, now);
    }

    /** hrtimer_handler: every core is settled under its own lock and at its own time. */
    method Handler(times: nat -> int)
      requires Valid()
      modifies this
      ensures Valid() && clock == TickAll(old(clock), times, cores)
      ensures forall i :: 0 <= i < cores ==> clock.meters[i].lastTick == times(i) && clock.meters[i].busy == 0
      ensures forall i :: 0 <= i < cores ==>
                clock.meters[i].snapshots == old(clock.meters[i].snapshots) + clock.meters[i].snapshot
    {
      var i := 0;
      while i < cores
        invariant 0 <= i <= cores
        invariant Valid() && clock == TickAll(old(clock), times, i)
      {
        Settle(i, times(i));
        i := i + 1;
      }
      forall d | 0 <= d < cores
        ensures clock.meters[d].lastTick == times(d) && clock.meters[d].busy == 0
        ensures clock.meters[d].snapshots == old(clock).meters[d].snapshots + clock.meters[d].snapshot
      {
        TickAllExact(old(clock), times, cores, d);
      }
    }

    method Settle(i: nat, now: int)
      requires Valid() && i < |clock.meters|
      modifies this`clock
      ensures Shape(clock) && clock == TickCore(old(clock).(now := now), i)
    {
      clock := clock.(now := now);
      var m := clock.meters[i];
      if m.slot.Some? {
        var j := m.slot.value;
        m := m.(busy := m.busy + (now - clock.recorder[j]));
        clock := clock.(recorder := clock.recorder[j := now]);
      }
      m := m.(snapshot := m.busy, snapshots := m.snapshots + m.busy, lastTick := now);
      m := m.(busy := 0);
      clock := clock.(meters := clock.meters[i := m]);
    }
  }
}
