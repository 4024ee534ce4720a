/** The resources rknpu_power_on acquires one after the other, with its rollback label, and
    rknpu_power_off. */
module PowerRails {

  /** Enable counts of the regulators, the clocks and the runtime-PM devices, and the devfreq lock. */
  datatype Rails = Rails(vdd: int, mem: int, clk: int, npu0: int, npu1: int, npu2: int, dev: int, locked: bool)

  /** Which of them the board has. */
  datatype Board = Board(vdd: bool, mem: bool, multi: bool, npu0: bool, npu1: bool, npu2: bool)

  /** Return codes of the kernel calls rknpu_power_on makes. */
  datatype Codes = Codes(vdd: int, mem: int, clk: int, npu0: int, npu1: int, npu2: int, dev: int)

  function One(b: bool): int { if b then 1 else 0 }

  /** Everything the board has, acquired once more. */
  function Powered(b: Board, r: Rails): Rails {
    r.(vdd := r.vdd + One(b.vdd), mem := r.mem + One(b.mem), clk := r.clk + 1,
       npu0 := r.npu0 + One(b.multi && b.npu0), npu1 := r.npu1 + One(b.multi && b.npu1),
       npu2 := r.npu2 + One(b.multi && b.npu2), dev := r.dev + 1)
  }

  /** Regulators and clocks report failure by any non-zero code, runtime PM by a negative one. */
  predicate AllSucceed(b: Board, k: Codes) {
    && (b.vdd ==> k.vdd == 0) && (b.mem ==> k.mem == 0) && k.clk == 0
    && (b.multi ==> (b.npu0 ==> k.npu0 >= 0) && (b.npu1 ==> k.npu1 >= 0) && (b.npu2 ==> k.npu2 >= 0))
    && k.dev >= 0
  }

  class Supply {
    const board: Board
    var rails: Rails

    constructor (board: Board)
      ensures this.board == board && rails == Rails(0, 0, 0, 0, 0, 0, 0, false)
    {
      this.board := board;
      rails := Rails(0, 0, 0, 0, 0, 0, 0, false);
    }

    /** rknpu_power_on: all of it, or nothing; zero exactly when no call failed. */
    method PowerOn(k: Codes) returns (ret: int)
      requires !rails.locked
      modifies this
      ensures ret == 0 <==> AllSucceed(board, k)
      ensures ret == 0 <==>
              && (board.vdd ==> k.vdd == 0) && (board.mem ==> k.mem == 0) && k.clk == 0
              && (board.multi && board.npu0 ==> k.npu0 >= 0) && (board.multi && board.npu1 ==> k.npu1 >= 0)
              && (board.multi && board.npu2 ==> k.npu2 >= 0) && k.dev >= 0
      ensures ret == 0 ==>
                && rails.dev == old(rails.dev) + 1 && rails.clk == old(rails.clk) + 1
                && rails.vdd == old(rails.vdd) + One(board.vdd) && rails.mem == old(rails.mem) + One(board.mem)
                && rails.npu0 == old(rails.npu0) + One(board.multi && board.npu0)
                && rails.npu1 == old(rails.npu1) + One(board.multi && board.npu1)
                && rails.npu2 == old(rails.npu2) + One(board.multi && board.npu2) && !rails.locked
      ensures rails == if ret == 0 then Powered(board, old(rails)) else old(rails)
    {
      ghost var was := rails;
      var ret1, vddOn, memOn, clkOn := EnableSupplies(k);
      ret := ret1;
      var lockHeld, got0, got1, got2 := false, false, false, false;
      var failed := ret != 0;
      if !failed {
        rails := rails.(locked := true);
        lockHeld := true;
        ret, failed, got0, got1, got2 := ResumeDomains(k);
      }
      if !failed {
        rails := rails.(dev := rails.dev + 1);                 // pm_runtime_get_sync counts even when it fails
        if k.dev < 0 {
          ret := k.dev;
          failed := true;
          rails := rails.(dev := rails.dev - 1);               // pm_runtime_put_noidle
        }
      }
      if !failed {
        rails := rails.(locked := false);
        return 0;
      }

      SuspendDomains(got0, got1, got2);
      if lockHeld { rails := rails.(locked := false); }
      DisableSupplies(vddOn, memOn, clkOn);
    }

    method SuspendDomains(got0: bool, got1: bool, got2: bool)
      modifies this
      ensures rails == old(rails).(npu0 := old(rails.npu0) - One(got0),
                                   npu1 := old(rails.npu1) - One(got1),
                                   npu2 := old(rails.npu2) - One(got2))
    {
      if got2 { rails := rails.(npu2 := rails.npu2 - 1); }
      if got1 { rails := rails.(npu1 := rails.npu1 - 1); }
      if got0 { rails := rails.(npu0 := rails.npu0 - 1); }
    }

    method DisableSupplies(vddOn: bool, memOn: bool, clkOn: bool)
      modifies this
      ensures rails == old(rails).(vdd := old(rails.vdd) - One(vddOn),
                                   mem := old(rails.mem) - One(memOn),
                                   clk := old(rails.clk) - One(clkOn))
    {
      if clkOn { rails := rails.(clk := rails.clk - 1); }
      if memOn { rails := rails.(mem := rails.mem - 1); }
      if vddOn { rails := rails.(vdd := rails.vdd - 1); }
    }

    /** Regulators, then clocks; the flags say what the rollback has to undo. */
    method EnableSupplies(k: Codes) returns (ret: int, vddOn: bool, memOn: bool, clkOn: bool)
      modifies this
      ensures rails == old(rails).(vdd := old(rails.vdd) + One(vddOn),
                                   mem := old(rails.mem) + One(memOn),
                                   clk := old(rails.clk) + One(clkOn))
      ensures ret == 0 <==> (board.vdd ==> k.vdd == 0) && (board.mem ==> k.mem == 0) && k.clk == 0
      ensures ret == 0 ==> vddOn == board.vdd && memOn == board.mem && clkOn
    {
      vddOn, memOn, clkOn := false, false, false;
      ret := 0;
      if board.vdd {
        ret := k.vdd;
        if ret != 0 { return; }
        rails := rails.(vdd := rails.vdd + 1);
        vddOn := true;
      }
      if board.mem {
        ret := k.mem;
        if ret != 0 { return; }
        rails := rails.(mem := rails.mem + 1);
        memOn := true;
      }
      ret := k.clk;
      if ret != 0 { return; }
      rails := rails.(clk := rails.clk + 1);
      clkOn := true;
    }

    /** The per-core power domains, resumed in order. */
    method ResumeDomains(k: Codes) returns (ret: int, failed: bool, got0: bool, got1: bool, got2: bool)
      modifies this
      ensures rails == old(rails).(npu0 := old(rails.npu0) + One(got0),
                                   npu1 := old(rails.npu1) + One(got1),
                                   npu2 := old(rails.npu2) + One(got2))
      ensures failed <==>
              board.multi && ((board.npu0 && k.npu0 < 0) || (board.npu1 && k.npu1 < 0) || (board.npu2 && k.npu2 < 0))
      ensures failed ==> ret < 0
      ensures !failed ==> got0 == (board.multi && board.npu0)
      ensures !failed ==> got1 == (board.multi && board.npu1) && got2 == (board.multi && board.npu2)
    {
      got0, got1, got2, failed, ret := false, false, false, false, 0;
      if !board.multi { return; }
      if board.npu0 {
        if k.npu0 < 0 { ret, failed := k.npu0, true; return; }
        rails := rails.(npu0 := rails.npu0 + 1);
        got0 := true;
      }
      if board.npu1 {
        if k.npu1 < 0 { ret, failed := k.npu1, true; return; }
        rails := rails.(npu1 := rails.npu1 + 1);
        got1 := true;
      }
      if board.npu2 {
        if k.npu2 < 0 { ret, failed := k.npu2, true; return; }
        rails := rails.(npu2 := rails.npu2 + 1);
        got2 := true;
      }
    }

    /** rknpu_power_off; `poll` is the result of waiting for the IOMMU to be disabled. */
    method PowerOff(poll: int) returns (ret: int)
      requires !rails.locked
      modifies this
      ensures ret == 0 <==> !board.multi || poll == 0
      ensures ret == 0 ==> Powered(board, rails) == old(rails)
      ensures ret == 0 ==>
                && rails.dev == old(rails.dev) - 1 && rails.clk == old(rails.clk) - 1
                && rails.vdd == old(rails.vdd) - One(board.vdd) && rails.mem == old(rails.mem) - One(board.mem)
                && rails.npu0 == old(rails.npu0) - One(board.multi && board.npu0)
                && rails.npu1 == old(rails.npu1) - One(board.multi && board.npu1)
                && rails.npu2 == old(rails.npu2) - One(board.multi && board.npu2) && !rails.locked
      ensures ret != 0 ==> rails == old(rails)
    {
      rails := rails.(locked := true);
      rails := rails.(dev := rails.dev - 1);
      if board.multi {
        if poll != 0 {
          rails := rails.(dev := rails.dev + 1);
          rails := rails.(locked := false);
          return poll;
        }
        SuspendDomains(board.npu0, board.npu1, board.npu2);
      }
      rails := rails.(locked := false);
      rails := rails.(clk := rails.clk - 1);
      if board.vdd { rails := rails.(vdd := rails.vdd - 1); }
      if board.mem { rails := rails.(mem := rails.mem - 1); }
      ret := 0;
    }

    /** A power cycle, however it ends, leaves every count as it was, except that a power-off that
        fails leaves the device powered. */
    method Cycle(k: Codes, poll: int) returns (up: bool, down: bool)
      requires !rails.locked
      modifies this
      ensures up <==> AllSucceed(board, k)
      ensures !up || down ==> rails == old(rails)
      ensures up && !down ==> rails == Powered(board, old(rails))
    {
      ghost var was := rails;
      var ret := PowerOn(k);
      up, down := ret == 0, false;
      if up {
        var off := PowerOff(poll);
        down := off == 0;
        if down { PoweredInjective(board, rails, was); }
      }
    }
  }

  lemma PoweredInjective(b: Board, r: Rails, q: Rails)
    requires Powered(b, r) == Powered(b, q)
    ensures r == q
  {
    var p := Powered(b, r);
    assert r == p.(vdd := p.vdd - One(b.vdd), mem := p.mem - One(b.mem), clk := p.clk - 1,
                   npu0 := p.npu0 - One(b.multi && b.npu0), npu1 := p.npu1 - One(b.multi && b.npu1),
                   npu2 := p.npu2 - One(b.multi && b.npu2), dev := p.dev - 1);
  }
}
