/** Power references: get, put, put with delay, the delayed work that releases a handed-over
    reference, and the debugger's command-line holds. */
module Power {
  import opened Npu

  /** Fields of the device, and who currently owes or owns a reference.  All sections below run
      under power_lock, so a state is what is seen while the lock is free. */
  datatype State = State(
    refs: int,          // power_refcount
    cmdline: int,       // cmdline_power_refcount
    on: bool,           // hardware powered
    delay: nat,         // power_put_delay
    pending: bool,      // power_off_work queued
    fired: bool,        // power_off_work started, lock not yet taken
    retries: nat,       // a power-off failed: put_delay about to be called again
    holders: nat)       // successful gets not yet put

  /** `ok` is the result of the power_on or power_off the step may call. */
  datatype Step =
    | Get(ok: bool)
    | Put(ok: bool)
    | PutDelay(ok: bool)
    | Fire
    | Work(ok: bool)
    | Retry(ok: bool)
    | SetDelay(ms: nat)
    | CmdOn(ok: bool)
    | CmdOff(ok: bool)

  const Start := State(0, 0, false, 3000, false, false, 0, 0)

  // ---------- critical sections ----------

  /** rknpu_power_get. */
  function GetSection(p: State, ok: bool): State {
    if p.refs + 1 == 1 then
      if ok then p.(refs := p.refs + 1, on := true) else p
    else p.(refs := p.refs + 1)
  }

  predicate GetFails(p: State, ok: bool) { p.refs + 1 == 1 && !ok }

  /** rknpu_power_put: atomic_dec_if_positive, power off at zero, undo on failure. */
  function PutSection(p: State, ok: bool): State {
    if p.refs - 1 == 0 then
      if ok then p.(refs := 0, on := false) else p.(retries := p.retries + 1)
    else if p.refs - 1 > 0 then p.(refs := p.refs - 1)
    else p
  }

  /** rknpu_power_put_delay. */
  function DelaySection(p: State, ok: bool): State {
    if p.delay == 0 then PutSection(p, ok)
    else if p.refs == 1 then p.(pending := true)
    else if p.refs - 1 >= 0 then p.(refs := p.refs - 1)
    else p
  }

  /** The "on" branch of rknpu_power_set, whose power_get result is ignored. */
  function CmdOnSection(p: State, ok: bool): State {
    GetSection(p.(cmdline := p.cmdline + 1), ok)
  }

  /** The "off" branch of rknpu_power_set. */
  function CmdOffSection(p: State, ok: bool): State {
    if p.refs > 0 && p.cmdline - 1 >= 0 then
      PutSection(p.(refs := p.refs - (p.cmdline - 1), cmdline := 0), ok)
    else p
  }

  predicate Enabled(p: State, t: Step) {
    match t
    case Put(_) => p.holders > 0
    case PutDelay(_) => p.holders > 0
    case Fire => p.pending && !p.fired
    case Work(_) => p.fired
    case Retry(_) => p.retries > 0
    case CmdOn(ok) => !GetFails(p, ok)
    case _ => true
  }

  function Apply(p: State, t: Step): State
    requires Enabled(p, t)
  {
    match t
    case Get(ok) => if GetFails(p, ok) then GetSection(p, ok) else GetSection(p, ok).(holders := p.holders + 1)
    case Put(ok) => PutSection(p.(holders := p.holders - 1), ok)
    case PutDelay(ok) => DelaySection(p.(holders := p.holders - 1), ok)
    case Fire => p.(pending := false, fired := true)
    case Work(ok) => PutSection(p.(fired := false), ok)
    case Retry(ok) => DelaySection(p.(retries := p.retries - 1), ok)
    case SetDelay(ms) => p.(delay := ms)
    case CmdOn(ok) => CmdOnSection(p, ok)
    case CmdOff(ok) => CmdOffSection(p, ok)
  }

  // ---------- safety ----------

  /** References that will be released without any caller doing anything. */
  function Deferred(p: State): nat { Bit(p.pending) + Bit(p.fired) + p.retries }

  /** Every counted reference has exactly one owner, and the hardware is on exactly when there is one. */
  predicate Inv(p: State) {
    && p.cmdline >= 0
    && p.refs == p.holders + p.cmdline + Deferred(p)
    && (p.on <==> p.refs > 0)
  }

  /** A reference somebody gives up is released, or owed again if the power-off failed. */
  lemma PutKeeps(p: State, ok: bool)
    requires p.cmdline >= 0 && p.refs == p.holders + p.cmdline + Deferred(p) + 1 && p.on
    ensures Inv(PutSection(p, ok))
  {
  }

  lemma DelayKeeps(p: State, ok: bool)
    requires p.cmdline >= 0 && p.refs == p.holders + p.cmdline + Deferred(p) + 1 && p.on
    ensures Inv(DelaySection(p, ok))
  {
    PutKeeps(p, ok);
  }

  lemma CmdOffKeeps(p: State, ok: bool)
    requires Inv(p)
    ensures Inv(CmdOffSection(p, ok))
  {
    if p.refs > 0 && p.cmdline - 1 >= 0 {
      PutKeeps(p.(refs := p.refs - (p.cmdline - 1), cmdline := 0), ok);
    }
  }

  lemma StepKeeps(p: State, t: Step)
    requires Inv(p) && Enabled(p, t)
    ensures Inv(Apply(p, t))
  {
    match t {
      case Put(ok) => PutKeeps(p.(holders := p.holders - 1), ok);
      case PutDelay(ok) => DelayKeeps(p.(holders := p.holders - 1), ok);
      case Work(ok) => PutKeeps(p.(fired := false), ok);
      case Retry(ok) => DelayKeeps(p.(retries := p.retries - 1), ok);
      case CmdOff(ok) => CmdOffKeeps(p, ok);
      case _ =>
    }
  }

  ghost predicate Runs(p0: State, ts: seq<Step>, p: State)
    decreases |ts|
  {
    if ts == [] then p == p0
    else Enabled(p0, ts[0]) && Runs(Apply(p0, ts[0]), ts[1..], p)
  }

  lemma {:induction false} RunKeeps(p0: State, ts: seq<Step>, p: State)
    requires Inv(p0) && Runs(p0, ts, p)
    ensures Inv(p)
    decreases |ts|
  {
    if ts != [] {
      StepKeeps(p0, ts[0]);
      RunKeeps(Apply(p0, ts[0]), ts[1..], p);
    }
  }

  /** Power protocol: under every interleaving, with power-on and power-off failing at will, the count
      is callers' holds plus command-line holds plus deferred releases; the hardware is never off
      while held, and never on unless somebody holds it or a release is on its way. */
  lemma PowerProtocol(ts: seq<Step>, p: State)
    requires Runs(Start, ts, p)
    ensures p.refs == p.holders + p.cmdline + Bit(p.pending) + Bit(p.fired) + p.retries
    ensures p.on <==> p.refs > 0
    ensures p.holders > 0 || p.cmdline > 0 ==> p.on
    ensures p.on && p.holders == 0 && p.cmdline == 0 ==> p.pending || p.fired || p.retries > 0
  {
    RunKeeps(Start, ts, p);
  }

  /** A delayed release is queued only when it is the last reference, so it never finds the work
      already queued: no reference is lost in the hand-over. */
  lemma HandOverLosesNothing(ts: seq<Step>, p: State, ok: bool)
    requires Runs(Start, ts, p) && p.delay > 0 && p.refs == 1
    requires p.holders > 0 || p.retries > 0
    ensures !p.pending && !p.fired
    ensures p.holders > 0 ==> Apply(p, PutDelay(ok)).pending && Apply(p, PutDelay(ok)).refs == 1
    ensures p.retries > 0 ==> Apply(p, Retry(ok)).pending && Apply(p, Retry(ok)).refs == 1
  {
    RunKeeps(Start, ts, p);
  }

  /** At delay zero a delayed put is a put: the last holder switches the hardware off at once, or owes
      the release again if that fails; nothing is queued. */
  lemma ZeroDelayIsImmediate(ts: seq<Step>, p: State, ok: bool)
    requires Runs(Start, ts, p) && p.delay == 0 && p.holders > 0
    ensures var p' := Apply(p, PutDelay(ok));
            && p' == Apply(p, Put(ok))
            && p'.pending == p.pending
            && (p.refs == 1 && ok ==> p'.refs == 0 && !p'.on)
            && (p.refs == 1 && !ok ==> p'.refs == 1 && p'.on && p'.retries == p.retries + 1)
            && (p.refs > 1 ==> p'.refs == p.refs - 1 && p'.on && p'.retries == p.retries)
  {
    RunKeeps(Start, ts, p);
    ZeroDelaySection(p, ok);
  }

  lemma ZeroDelaySection(p: State, ok: bool)
    requires Inv(p) && p.delay == 0 && p.holders > 0
    ensures var p' := Apply(p, PutDelay(ok));
            && p' == Apply(p, Put(ok))
            && p'.pending == p.pending
            && (p.refs == 1 && ok ==> p'.refs == 0 && !p'.on)
            && (p.refs == 1 && !ok ==> p'.refs == 1 && p'.on && p'.retries == p.retries + 1)
            && (p.refs > 1 ==> p'.refs == p.refs - 1 && p'.on && p'.retries == p.retries)
  {
    StepKeeps(p, PutDelay(ok));
  }

  /** A get fails exactly if it is the first one and the power-on fails; otherwise the caller holds a
      reference and the hardware is on. */
  lemma GetExact(ts: seq<Step>, p: State, ok: bool)
    requires Runs(Start, ts, p)
    ensures var p' := Apply(p, Get(ok));
            && (p'.holders == p.holders + 1 <==> p.on || ok)
            && (p'.holders == p.holders + 1 ==> p'.refs == p.refs + 1 && p'.on)
            && (p'.holders != p.holders + 1 ==> p' == p)
  {
    RunKeeps(Start, ts, p);
    GetSectionExact(p, ok);
  }

  lemma GetSectionExact(p: State, ok: bool)
    requires Inv(p)
    ensures var p' := Apply(p, Get(ok));
            && (p'.holders == p.holders + 1 <==> p.on || ok)
            && (p'.holders == p.holders + 1 ==> p'.refs == p.refs + 1 && p'.on)
            && (p'.holders != p.holders + 1 ==> p' == p)
  {
    assert p.refs >= 0;
  }

  /** "off" drops exactly the outstanding command-line holds: the others are untouched. */
  lemma CmdOffDropsAll(ts: seq<Step>, p: State, ok: bool)
    requires Runs(Start, ts, p)
    ensures var p' := Apply(p, CmdOff(ok));
            && p'.cmdline == 0
            && p'.holders == p.holders
            && p'.refs - p'.retries == p.refs - p.cmdline - p.retries
  {
    RunKeeps(Start, ts, p);
  }

  /** "on" ignores the result of power_get.  The accounting survives exactly when that get did not
      fail, that is, when the device was already on or powering it on succeeds. */
  lemma CmdOnExact(p: State, ok: bool)
    requires Inv(p)
    ensures Inv(CmdOnSection(p, ok)) <==> (ok || p.refs > 0)
  {
  }

  /** What goes wrong otherwise: a failed "on", a caller's get and an "off" leave the hardware off
      under a live holder. */
  lemma FailedOnPowersOffHolder()
    ensures var p1 := CmdOnSection(Start, false);
            var p2 := Apply(p1, Get(true));
            var p3 := CmdOffSection(p2, true);
            p3.holders == 1 && !p3.on
  {
  }

  // ---------- release is eventual ----------

  function Steps(p: State): nat { 3 * p.retries + 2 * Bit(p.pending) + Bit(p.fired) }

  predicate Releasing(t: Step) { t.Fire? || t.Work? || t.Retry? }

  predicate Succeeds(t: Step) { (t.Work? ==> t.ok) && (t.Retry? ==> t.ok) }

  function Failures(ts: seq<Step>): nat {
    if ts == [] then 0 else Bit(!Succeeds(ts[0])) + Failures(ts[1..])
  }

  lemma ReleaseStep(p: State, t: Step)
    requires Inv(p) && Enabled(p, t) && Releasing(t)
    ensures Steps(Apply(p, t)) + 1 <= Steps(p) + 3 * Bit(!Succeeds(t))
  {
  }

  /** Deferred releases do not go on for ever: a run of them is bounded by the number of power-off
      failures it meets. */
  lemma {:induction false} RetriesBounded(p0: State, ts: seq<Step>, p: State)
    requires Inv(p0) && Runs(p0, ts, p) && forall i :: 0 <= i < |ts| ==> Releasing(ts[i])
    ensures |ts| + Steps(p) <= Steps(p0) + 3 * Failures(ts)
    decreases |ts|
  {
    if ts != [] {
      ReleaseStep(p0, ts[0]);
      StepKeeps(p0, ts[0]);
      RetriesBounded(Apply(p0, ts[0]), ts[1..], p);
    }
  }

  /** With no holders left, the deferred releases alone switch the hardware off. */
  lemma {:induction false} EventuallyOff(p: State) returns (ts: seq<Step>, p': State)
    requires Inv(p) && p.holders == 0 && p.cmdline == 0
    ensures Runs(p, ts, p') && !p'.on && p'.refs == 0 && |ts| <= Steps(p)
    ensures forall i :: 0 <= i < |ts| ==> Releasing(ts[i])
    decreases Steps(p)
  {
    if Deferred(p) == 0 {
      ts, p' := [], p;
    } else {
      var t := if p.fired then Work(true) else if p.retries > 0 then Retry(true) else Fire;
      ReleaseStep(p, t);
      StepKeeps(p, t);
      ts, p' := EventuallyOff(Apply(p, t));
      assert ([t] + ts)[1..] == ts;
      ts := [t] + ts;
    }
  }

  // ---------- the device object ----------

  class PowerControl {
    var refs: int
    var cmdline: int
    var on: bool
    var delay: nat
    var pending: bool
    ghost var fired: bool
    ghost var retries: nat
    ghost var holders: nat

    ghost function Abs(): State
      reads this
    {
      State(refs, cmdline, on, delay, pending, fired, retries, holders)
    }

    constructor ()
      ensures Abs() == Start
    {
      refs, cmdline, on, delay, pending := 0, 0, false, 3000, false;
      fired, retries, holders := false, 0, 0;
    }

    /** The locked section of rknpu_power_get; `ok` is what rknpu_power_on returned, if called. */
    method PowerGet(ok: bool) returns (failed: bool)
      modifies this
      ensures Abs() == GetSection(old(Abs()), ok) && failed == GetFails(old(Abs()), ok)
      ensures failed <==> old(refs) == 0 && !ok
      ensures refs == if failed then old(refs) else old(refs) + 1
      ensures on == (old(on) || (old(refs) == 0 && ok))
    {
      refs := refs + 1;
      failed := false;
      if refs == 1 {
        failed := !ok;
        if failed { refs := refs - 1; } else { on := true; }
      }
    }

    /** The locked section of rknpu_power_put and of the delayed work; a failure leaves a call of
        put_delay owed. */
    method PowerPut(ok: bool) returns (failed: bool)
      modifies this
      ensures Abs() == PutSection(old(Abs()), ok)
      ensures failed <==> old(refs) == 1 && !ok
      ensures refs == if failed || old(refs) <= 0 then old(refs) else old(refs) - 1
      ensures on == (old(on) && !(old(refs) == 1 && ok))
      ensures retries == old(retries) + Bit(failed)
    {
      var left := refs - 1;
      failed := false;
      if left >= 0 { refs := left; }
      if left == 0 {
        failed := !ok;
        if failed {
          refs := refs + 1;
          retries := retries + 1;
        } else {
          on := false;
        }
      }
    }

    /** rknpu_power_put_delay. */
    method PowerPutDelay(ok: bool)
      modifies this
      ensures Abs() == DelaySection(old(Abs()), ok)
      ensures pending == (old(pending) || (old(delay) > 0 && old(refs) == 1))
      ensures old(delay) > 0 ==> refs == if old(refs) > 1 then old(refs) - 1 else old(refs)
      ensures old(delay) > 0 ==> on == old(on) && retries == old(retries)
      ensures old(delay) == 0 ==> on == (old(on) && !(old(refs) == 1 && ok))
      ensures old(delay) == 0 ==> retries == old(retries) + Bit(old(refs) == 1 && !ok)
      ensures old(delay) == 0 ==> refs == if old(refs) <= 0 || (old(refs) == 1 && !ok) then old(refs) else old(refs) - 1
    {
      if delay == 0 {
        var _ := PowerPut(ok);
        return;
      }
      if refs == 1 {
        pending := true;
      } else if refs - 1 >= 0 {
        refs := refs - 1;
      }
    }

    /** rknpu_power_set for the strings "on" and "off". */
    method PowerSet(turnOn: bool, ok: bool)
      modifies this
      ensures Abs() == if turnOn then CmdOnSection(old(Abs()), ok) else CmdOffSection(old(Abs()), ok)
      ensures turnOn ==> cmdline == old(cmdline) + 1 && refs == old(refs) + Bit(old(refs) != 0 || ok)
      ensures !turnOn && (old(refs) <= 0 || old(cmdline) <= 0) ==> Abs() == old(Abs())
      ensures !turnOn && old(refs) > 0 && old(cmdline) > 0 ==>
                && cmdline == 0
                && (old(refs) > old(cmdline) ==> refs == old(refs) - old(cmdline) && on == old(on))
                && (old(refs) == old(cmdline) && ok ==> refs == 0 && !on)
                && (old(refs) == old(cmdline) && !ok ==> refs == 1 && on == old(on) && retries == old(retries) + 1)
    {
      if turnOn {
        cmdline := cmdline + 1;
        var _ := PowerGet(ok);
      } else if refs > 0 {
        var left := cmdline - 1;
        if left >= 0 {
          cmdline := left;
          refs := refs - cmdline;
          cmdline := 0;
          var _ := PowerPut(ok);
        }
      }
    }
  }
}
