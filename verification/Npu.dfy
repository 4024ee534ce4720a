/** The static vocabulary of the driver: SoC configuration, core masks, submitted jobs and
    the way one core's task range is cut into chunks for the PC unit. */
module Npu {

  // Error numbers, as the driver returns them negated.
  const EIO := 5
  const ENOMEM := 12
  const EFAULT := 14
  const EINVAL := 22
  const ETIMEDOUT := 110

  /** RKNPU_MAX_CORES. */
  const MAX_CORES: nat := 3

  datatype Option<+T> = None | Some(value: T)

  datatype Config = Config(numIrqs: nat, coreMask: nat, maxSubmit: nat)

  /** What the seven SoC tables have in common. */
  predicate ValidConfig(cfg: Config) {
    && cfg.maxSubmit >= 1
    && ((cfg.numIrqs == 1 && cfg.coreMask == 1)
        || (cfg.numIrqs == 2 && cfg.coreMask == 3)
        || (cfg.numIrqs == 3 && cfg.coreMask == 7))
  }

  const RK356X := Config(1, 0x1, 4095)
  const RK3588 := Config(3, 0x7, 4095)
  const RK3583 := Config(2, 0x3, 4095)
  const RV1106 := Config(1, 0x1, 65535)
  const RK3562 := Config(1, 0x1, 65535)
  const RK3576 := Config(2, 0x3, 65535)
  const RV1126B := Config(1, 0x1, 65535)

  lemma SocTables(cfg: Config)
    requires cfg in {RK356X, RK3588, RK3583, RV1106, RK3562, RK3576, RV1126B}
    ensures ValidConfig(cfg) && cfg.coreMask <= 7
  {
  }

  /** A task range: `number` consecutive task descriptors beginning at `start`. */
  datatype Range = Range(start: nat, number: nat)

  /** The part of struct rknpu_submit the scheduler reads.  `pc` is the RKNPU_JOB_PC flag and
      `taskObj` says that the task object address is not null. */
  datatype JobSpec = JobSpec(mask: nat, whole: Range, subcore: seq<Range>, pc: bool, taskObj: bool, domain: int)

  // ---------- core masks ----------

  /** `core_mask & rknpu_core_mask(c)`. */
  predicate HasCore(mask: nat, c: nat) {
    match c
    case 0 => mask % 2 == 1
    case 1 => mask / 2 % 2 == 1
    case 2 => mask / 4 % 2 == 1
    case _ => false
  }

  function CoreMask(c: nat): (m: nat)
    ensures c < MAX_CORES ==> forall d: nat :: d < MAX_CORES ==> (HasCore(m, d) <==> d == c)
    ensures c >= MAX_CORES ==> forall d: nat :: !HasCore(m, d)
  {
    match c
    case 0 => 1
    case 1 => 2
    case 2 => 4
    case _ => 0
  }

  function Bit(b: bool): nat { if b then 1 else 0 }

  /** use_core_num as rknpu_job_alloc computes it. */
  function UseCoreNum(mask: nat): nat {
    Bit(HasCore(mask, 0)) + Bit(HasCore(mask, 1)) + Bit(HasCore(mask, 2))
  }

  /** The switch of rknpu_job_commit: is core `c` programmed for this mask? */
  predicate Commits(mask: nat, c: nat) {
    match mask
    case 1 => c == 0
    case 2 => c == 1
    case 4 => c == 2
    case 3 => c == 0 || c == 1
    case 7 => c == 0 || c == 1 || c == 2
    case _ => false
  }

  predicate SupportedMask(mask: nat) { mask in {1, 2, 3, 4, 7} }

  /** The commit switch programs exactly the cores the job was queued on, or none of them,
      and the masks it forgets are exactly the unsupported ones. */
  lemma CommitMatchesQueues(mask: nat, c: nat)
    requires 1 <= mask <= 7 && c < MAX_CORES
    ensures SupportedMask(mask) ==> (Commits(mask, c) <==> HasCore(mask, c))
    ensures !SupportedMask(mask) ==> !Commits(mask, c)
    ensures UseCoreNum(mask) >= 1
  {
    assert mask == 1 || mask == 2 || mask == 3 || mask == 4 || mask == 5 || mask == 6 || mask == 7;
  }

  /** The cores of a mask are its bits. */
  lemma MaskBits(mask: nat)
    requires mask <= 7
    ensures mask == Bit(HasCore(mask, 0)) + 2 * Bit(HasCore(mask, 1)) + 4 * Bit(HasCore(mask, 2))
  {
    assert mask == 0 || mask == 1 || mask == 2 || mask == 3 || mask == 4 || mask == 5 || mask == 6 || mask == 7;
  }

  /** Which masks an SoC admits but the commit path forgets: 5 and 6, on the three-core SoC only. */
  lemma ForgottenMasks(cfg: Config, mask: nat)
    requires cfg in {RK356X, RK3588, RK3583, RV1106, RK3562, RK3576, RV1126B} && 1 <= mask <= cfg.coreMask
    ensures !SupportedMask(mask) <==> cfg == RK3588 && (mask == 5 || mask == 6)
  {
    SocTables(cfg);
    assert mask == 1 || mask == 2 || mask == 3 || mask == 4 || mask == 5 || mask == 6 || mask == 7;
  }

  /** What rknpu_submit lets through, with an AUTO mask already resolved to one core. */
  predicate ValidSpec(cfg: Config, spec: JobSpec) {
    && 1 <= spec.mask <= cfg.coreMask
    && spec.whole.number != 0
    && |spec.subcore| == 5
  }

  /** The commit path reaches the hardware for this job. */
  predicate Runnable(spec: JobSpec) {
    SupportedMask(spec.mask) && spec.pc && spec.taskObj
  }

  /** The task range of core `c`: rknpu_get_task_number and the range selection of
      rknpu_job_subcore_commit_pc make the same choice. */
  function CoreRange(cfg: Config, spec: JobSpec, c: nat): Range
    requires |spec.subcore| == 5 && c < MAX_CORES
  {
    if cfg.numIrqs > 1 then
      match UseCoreNum(spec.mask)
      case 1 => spec.subcore[c]
      case 2 => spec.subcore[c]
      case 3 => spec.subcore[c + 2]
      case _ => spec.whole
    else spec.whole
  }

  /** Which range a core gets, for every admitted request: the whole range on a single-core SoC;
      otherwise the core's own entry of subcore_task, which for three-core jobs begins at entry 2. */
  lemma CoreRangeExact(cfg: Config, spec: JobSpec, c: nat)
    requires ValidConfig(cfg) && ValidSpec(cfg, spec) && c < MAX_CORES
    ensures CoreRange(cfg, spec, c) ==
            if cfg.numIrqs == 1 then spec.whole
            else if spec.mask == 7 then spec.subcore[c + 2]
            else spec.subcore[c]
  {
    var m := spec.mask;
    assert m == 1 || m == 2 || m == 3 || m == 4 || m == 5 || m == 6 || m == 7;
  }

  // ---------- chunks ----------

  /** Number of interrupts one core needs: even an empty range is programmed once. */
  function NumChunks(number: nat, max: nat): (k: nat)
    requires max >= 1
    ensures k >= 1
  {
    var q := CeilDiv(number, max);
    if q >= 1 then q else 1
  }

  /** `(n + max - 1) / max`, the bound rknpu_job_done compares submit_count with. */
  function CeilDiv(number: nat, max: nat): (q: nat)
    requires max >= 1
  {
    (number + max - 1) / max
  }

  /** The registers rknpu_job_subcore_commit_pc computes for submit index `k`.  The length is
      an int there: a too large index would make it negative. */
  datatype Chunk = Chunk(start: int, number: int)

  function ChunkAt(r: Range, max: nat, k: nat): Chunk {
    var left := r.number - k * max;
    Chunk(r.start + k * max, if left > max then max else left)
  }

  function Chunks(r: Range, max: nat, k: nat): (cs: seq<Chunk>)
    ensures |cs| == k
  {
    seq(k, i requires 0 <= i => ChunkAt(r, max, i))
  }

  function Span(start: int, n: nat): (s: seq<int>)
    ensures |s| == n
  {
    seq(n, i requires 0 <= i => start + i)
  }

  /** The task indices a list of chunks executes, in order. */
  function Tasks(cs: seq<Chunk>): seq<int> {
    if cs == [] then []
    else
      var last := cs[|cs| - 1];
      Tasks(cs[..|cs| - 1]) + Span(last.start, if last.number < 0 then 0 else last.number)
  }

  lemma CeilDivBounds(number: nat, max: nat)
    requires max >= 1
    ensures CeilDiv(number, max) * max >= number
    ensures number > 0 ==> CeilDiv(number, max) >= 1 && (CeilDiv(number, max) - 1) * max < number
    ensures number == 0 ==> CeilDiv(number, max) == 0
  {
    var q := CeilDiv(number, max);
    var rem := (number + max - 1) % max;
    assert number + max - 1 == q * max + rem;
    assert (q - 1) * max == q * max - max;
    if number == 0 {
      assert q == 0 by { assert 0 <= max - 1 < max; SmallQuotient(max - 1, max); }
    }
  }

  lemma SmallQuotient(a: nat, b: nat)
    requires a < b
    ensures a / b == 0
  {
  }

  lemma MulLe(a: nat, b: nat, m: nat)
    requires a <= b
    ensures a * m <= b * m
  {
  }

  /** Every chunk the driver programs for a non-empty range is non-empty and fits the
      hardware's task counter. */
  lemma ChunkShape(r: Range, max: nat, k: nat)
    requires max >= 1 && k < NumChunks(r.number, max)
    ensures r.number > 0 ==> 1 <= ChunkAt(r, max, k).number <= max
    ensures r.number == 0 ==> ChunkAt(r, max, k).number == 0
    ensures k + 1 < NumChunks(r.number, max) ==>
              ChunkAt(r, max, k + 1).start == ChunkAt(r, max, k).start + ChunkAt(r, max, k).number
  {
    CeilDivBounds(r.number, max);
    if r.number > 0 {
      MulLe(k, CeilDiv(r.number, max) - 1, max);
      if k + 1 < CeilDiv(r.number, max) {
        MulLe(k + 1, CeilDiv(r.number, max) - 1, max);
        assert (k + 1) * max == k * max + max;
      }
    }
  }

  /** The first `k` chunks execute exactly the first min(number, k * max) tasks, in order. */
  lemma {:induction false} ChunkPrefix(r: Range, max: nat, k: nat)
    requires max >= 1 && k <= NumChunks(r.number, max)
    ensures Tasks(Chunks(r, max, k)) ==
            Span(r.start, if k * max < r.number then k * max else r.number)
  {
    if k == 0 {
      assert k * max == 0;
    } else {
      ChunkPrefix(r, max, k - 1);
      ChunkShape(r, max, k - 1);
      var cs := Chunks(r, max, k);
      assert cs[..k - 1] == Chunks(r, max, k - 1);
      assert k * max == (k - 1) * max + max;
      CeilDivBounds(r.number, max);
      if r.number > 0 {
        MulLe(k - 1, CeilDiv(r.number, max) - 1, max);
      } else {
        assert k == 1;
        assert (k - 1) * max == 0;
      }
    }
  }

  /** Chunk coverage: one core's chunks, in the order they are programmed, execute every task
      of its range exactly once, in order, and nothing else. */
  lemma ChunkCoverage(r: Range, max: nat)
    requires max >= 1
    ensures Tasks(Chunks(r, max, NumChunks(r.number, max))) == Span(r.start, r.number)
  {
    ChunkPrefix(r, max, NumChunks(r.number, max));
    CeilDivBounds(r.number, max);
    if r.number == 0 {
      assert NumChunks(r.number, max) == 1;
    }
  }
}
