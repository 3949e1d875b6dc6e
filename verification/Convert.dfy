/**
 Parallel image conversion (qemu-img.c): coroutines claim chunks of the source under
 a lock, read them at the same time, and write them out of order or in order.  A
 step system at the grain of single requests; a request may fail at any time.
 */
module Convert {
  import opened Basics
  import opened SparseScan
  import opened ConvertParts

  /** What stays fixed: the joined sources, and the settings. */
  datatype Config = Config(src: seq<Sector>, zeroInit: bool, minSparse: nat, bufSectors: nat, inOrder: bool)

  /** A claimed chunk [from, to), how it is to be written, whether by copy_range, and
      whether its data could be read. */
  datatype Chunk = Chunk(from: nat, to: nat, status: Status, ranged: bool, good: bool)

  /** Where a coroutine of convert_co_do_copy stands. */
  datatype Pc =
    | NotStarted
    | Top
    | Locked
    | Reading(c: Chunk)
    | Turn(c: Chunk)
    | Waiting(c: Chunk)
    | Writing(c: Chunk, pos: nat)
    | Copying(c: Chunk, pos: nat)
    | Finishing(c: Chunk)
    | Exited

  datatype Ret = InProgress | Done | Err

  /** ImgConvertState, the target's contents, and the cuts made so far. */
  datatype State = State(claimed: nat, status: Status, nextStatus: nat, wrOffs: nat, ret: Ret, copyRange: bool,
                         lock: Option<nat>, running: int, cos: seq<Pc>, target: seq<Sector>, cuts: seq<nat>)

  predicate Has(p: Pc) { p.Reading? || p.Turn? || p.Waiting? || p.Writing? || p.Copying? || p.Finishing? }

  predicate Active(p: Pc) { !p.NotStarted? && !p.Exited? }

  /** The coroutine has the target in its hands. */
  predicate Puts(p: Pc) { p.Writing? || p.Copying? }

  /** Where the sectors begin that a coroutine has yet to write. */
  function Lo(p: Pc): nat
    requires Has(p)
  {
    match p
    case Writing(c, pos) => pos
    case Copying(c, pos) => pos
    case Finishing(c) => c.to
    case _ => p.c.from
  }

  predicate Pends(p: Pc, x: nat) { Has(p) && Lo(p) <= x < p.c.to }

  predicate Covers(p: Pc, x: nat) { Has(p) && p.c.from <= x < p.c.to }

  function Moved(s: State, i: nat, p: Pc): State
    requires i < |s.cos|
  {
    s.(cos := s.cos[i := p])
  }

  // ----- steps -----

  predicate StartStep(s: State, i: nat, s': State)
    requires i < |s.cos|
  {
    s.cos[i].NotStarted? && s' == Moved(s, i, Top).(running := s.running + 1)
  }

  /** The end of a coroutine; the last one turns "in progress" into success. */
  function Left(s: State, i: nat): State
    requires i < |s.cos|
  {
    Moved(s, i, Exited).(running := s.running - 1, ret := if s.running == 1 && s.ret.InProgress? then Done else s.ret)
  }

  predicate LeaveStep(cfg: Config, s: State, i: nat, s': State)
    requires i < |s.cos|
  {
    s.cos[i].Top? && s.lock.None? && (!s.ret.InProgress? || s.claimed >= |cfg.src|) && s' == Left(s, i)
  }

  predicate LockStep(cfg: Config, s: State, i: nat, s': State)
    requires i < |s.cos|
  {
    && s.cos[i].Top? && s.lock.None? && s.ret.InProgress? && s.claimed < |cfg.src|
    && s' == Moved(s, i, Locked).(lock := Some(i))
  }

  /** The chunk made of what convert_iteration_sectors returned. */
  function NewChunk(cfg: Config, s: State, n: nat, st: Status): Chunk {
    if cfg.minSparse == 0 && st.Zero? then Chunk(s.claimed, s.claimed + Least(n, cfg.bufSectors), Data, false, true)
    else Chunk(s.claimed, s.claimed + n, st, s.copyRange && st.Data?, true)
  }

  /** A chunk of data is read unless it is to be copied; a chunk of zeros is not. */
  function FirstPc(cfg: Config, s: State, n: nat, st: Status): Pc {
    var c := NewChunk(cfg, s, n, st);
    if st.Data? && !c.ranged then Reading(c) else Turn(c)
  }

  function Claimed(cfg: Config, s: State, i: nat, n: nat, st: Status, next: nat): State
    requires i < |s.cos|
  {
    var c := NewChunk(cfg, s, n, st);
    Moved(s, i, FirstPc(cfg, s, n, st)).(lock := None, claimed := c.to, status := st, nextStatus := next, cuts := s.cuts + [c.to])
  }

  predicate ClaimStep(cfg: Config, s: State, i: nat, n: nat, st: Status, next: nat, s': State)
    requires i < |s.cos|
  {
    && s.cos[i].Locked? && ChunkOk(cfg.src, s.claimed, n, st, cfg.bufSectors) && CacheOk(cfg.src, s.claimed + n, st, next)
    && s' == Claimed(cfg, s, i, n, st, next)
  }

  predicate ClaimFailsStep(s: State, i: nat, s': State)
    requires i < |s.cos|
  {
    s.cos[i].Locked? && s' == Left(s.(lock := None, ret := Err), i)
  }

  predicate ReadStep(s: State, i: nat, ok: bool, s': State)
    requires i < |s.cos|
  {
    && s.cos[i].Reading?
    && s' == if ok then Moved(s, i, Turn(s.cos[i].c)) else Moved(s, i, Turn(s.cos[i].c.(good := false))).(ret := Err)
  }

  /** The guard of the loop that keeps writes in order. */
  predicate MustWait(cfg: Config, s: State, c: Chunk) { cfg.inOrder && s.wrOffs != c.from && s.ret.InProgress? }

  predicate WaitStep(cfg: Config, s: State, i: nat, s': State)
    requires i < |s.cos|
  {
    s.cos[i].Turn? && MustWait(cfg, s, s.cos[i].c) && s' == Moved(s, i, Waiting(s.cos[i].c))
  }

  predicate GoStep(cfg: Config, s: State, i: nat, s': State)
    requires i < |s.cos|
  {
    && s.cos[i].Turn? && !MustWait(cfg, s, s.cos[i].c)
    && var c := s.cos[i].c;
       s' == Moved(s, i, if !s.ret.InProgress? then Finishing(c) else if c.ranged then Copying(c, c.from) else Writing(c, c.from))
  }

  /** The target with sectors put at a place. */
  function Put(target: seq<Sector>, from: nat, xs: seq<Sector>): (r: seq<Sector>)
    ensures |r| == |target|
  {
    seq(|target|, x requires 0 <= x < |target| => if from <= x < from + |xs| then xs[x - from] else target[x])
  }

  predicate Buffered(cfg: Config, c: Chunk, pos: nat, rest: seq<Sector>) {
    pos <= c.to <= |cfg.src| && |rest| == c.to - pos && (c.good ==> rest == cfg.src[pos..c.to])
  }

  /** One turn of the loop of convert_co_write. */
  predicate WriteStep(cfg: Config, s: State, i: nat, rest: seq<Sector>, n: nat, data: bool, s': State)
    requires i < |s.cos|
  {
    && s.cos[i].Writing?
    && var c, pos := s.cos[i].c, s.cos[i].pos;
       && Buffered(cfg, c, pos, rest) && PieceOk(rest, c.status, cfg.minSparse, n, data)
       && s' == Moved(s, i, if pos + n == c.to then Finishing(c) else Writing(c, pos + n)).(
                  target := if data then Put(s.target, pos, rest[..n])
                            else if cfg.zeroInit then s.target
                            else Put(s.target, pos, seq(n, k => 0)))
  }

  /** A request over [lo, hi) that failed: each sector is old or has the source's contents. */
  predicate Torn(cfg: Config, a: seq<Sector>, b: seq<Sector>, lo: nat, hi: nat) {
    && |a| == |b| == |cfg.src|
    && forall x :: 0 <= x < |a| ==> b[x] == a[x] || (lo <= x < hi && b[x] == cfg.src[x])
  }

  predicate WriteFailsStep(cfg: Config, s: State, i: nat, target: seq<Sector>, s': State)
    requires i < |s.cos|
  {
    && s.cos[i].Writing? && (s.cos[i].c.good ==> Torn(cfg, s.target, target, s.cos[i].pos, s.cos[i].c.to)) && |target| == |s.target|
    && s' == Moved(s, i, Finishing(s.cos[i].c)).(target := target, ret := Err)
  }

  /** One turn of the loop of convert_co_copy_range. */
  predicate CopyStep(cfg: Config, s: State, i: nat, n: nat, s': State)
    requires i < |s.cos|
  {
    && s.cos[i].Copying?
    && var c, pos := s.cos[i].c, s.cos[i].pos;
       && 1 <= n && pos + n <= c.to <= |cfg.src|
       && s' == Moved(s, i, if pos + n == c.to then Finishing(c) else Copying(c, pos + n)).(target := Put(s.target, pos, cfg.src[pos..pos + n]))
  }

  /** copy_range is given up for good, and the chunk is read and written instead. */
  predicate CopyFailsStep(cfg: Config, s: State, i: nat, target: seq<Sector>, s': State)
    requires i < |s.cos|
  {
    && s.cos[i].Copying? && Torn(cfg, s.target, target, s.cos[i].pos, s.cos[i].c.to)
    && s' == Moved(s, i, Reading(s.cos[i].c.(ranged := false))).(target := target, copyRange := false)
  }

  /** The coroutine waiting for this end, if any, goes on. */
  function Woken(cos: seq<Pc>, at: nat): seq<Pc> {
    seq(|cos|, k requires 0 <= k < |cos| => if cos[k].Waiting? && cos[k].c.from == at then Turn(cos[k].c) else cos[k])
  }

  predicate FinishStep(cfg: Config, s: State, i: nat, s': State)
    requires i < |s.cos|
  {
    && s.cos[i].Finishing?
    && s' == if cfg.inOrder then s.(wrOffs := s.cos[i].c.to, cos := Woken(s.cos, s.cos[i].c.to)[i := Top]) else Moved(s, i, Top)
  }

  /** A step of coroutine i that leaves its chunk as it is. */
  ghost predicate ChunkStep(cfg: Config, s: State, i: nat, s': State)
    requires i < |s.cos|
  {
    || (exists ok :: ReadStep(s, i, ok, s'))
    || WaitStep(cfg, s, i, s')
    || GoStep(cfg, s, i, s')
    || (exists rest, n: nat, data :: WriteStep(cfg, s, i, rest, n, data, s'))
    || (exists target :: WriteFailsStep(cfg, s, i, target, s'))
    || (exists n: nat :: CopyStep(cfg, s, i, n, s'))
    || (exists target :: CopyFailsStep(cfg, s, i, target, s'))
  }

  ghost predicate CoStep(cfg: Config, s: State, i: nat, s': State)
    requires i < |s.cos|
  {
    || StartStep(s, i, s')
    || LeaveStep(cfg, s, i, s')
    || LockStep(cfg, s, i, s')
    || (exists n: nat, st, next: nat :: ClaimStep(cfg, s, i, n, st, next, s'))
    || ClaimFailsStep(s, i, s')
    || ChunkStep(cfg, s, i, s')
    || FinishStep(cfg, s, i, s')
  }

  ghost predicate Step(cfg: Config, s: State, s': State) {
    exists i: nat :: i < |s.cos| && CoStep(cfg, s, i, s')
  }

  /** convert_do_copy sets the coroutines going; a target said to be zero is zero. */
  predicate Init(cfg: Config, s: State) {
    && cfg.bufSectors > 0 && |s.target| == |cfg.src| && (cfg.zeroInit ==> Zeros(s.target, 0, |s.target|))
    && s.claimed == 0 && s.nextStatus == 0 && s.wrOffs == 0 && s.ret.InProgress? && s.lock.None? && s.running == 0 && s.cuts == [0]
    && forall i :: 0 <= i < |s.cos| ==> s.cos[i].NotStarted?
  }

  ghost predicate Run(cfg: Config, ss: seq<State>) {
    && |ss| > 0 && Init(cfg, ss[0])
    && forall k :: 0 <= k < |ss| - 1 ==> Step(cfg, ss[k], ss[k + 1])
  }

  // ----- the invariant -----

  function Count(cos: seq<Pc>): nat {
    if cos == [] then 0 else Count(cos[..|cos| - 1]) + (if Active(cos[|cos| - 1]) then 1 else 0)
  }

  predicate LocksOk(s: State) {
    && (s.lock.Some? ==> s.lock.value < |s.cos|)
    && forall i :: 0 <= i < |s.cos| ==> (s.cos[i].Locked? <==> s.lock == Some(i))
  }

  predicate ChunkIn(cfg: Config, s: State, p: Pc) {
    Has(p) ==>
      && p.c.from < p.c.to <= s.claimed && (Puts(p) ==> p.c.from <= p.pos < p.c.to)
      && (p.c.good || s.ret.Err?) && (Puts(p) ==> p.c.good) && (p.Waiting? ==> cfg.inOrder)
      && (p.c.status.Zero? ==> p.c.to <= |cfg.src| && Zeros(cfg.src, p.c.from, p.c.to))
  }

  predicate ChunksOk(cfg: Config, s: State) {
    && s.claimed <= |cfg.src| == |s.target|
    && forall i :: 0 <= i < |s.cos| ==> ChunkIn(cfg, s, s.cos[i])
  }

  predicate Clear(p: Pc, q: Pc) { Has(p) && Has(q) ==> p.c.to <= q.c.from || q.c.to <= p.c.from }

  /** No two coroutines have sectors in common. */
  predicate Apart(s: State) {
    forall i, j :: 0 <= i < |s.cos| && 0 <= j < |s.cos| && i != j ==> Clear(s.cos[i], s.cos[j])
  }

  ghost predicate Pending(s: State, x: nat) { exists i :: 0 <= i < |s.cos| && Pends(s.cos[i], x) }

  /** What was claimed is written, or some coroutine has yet to write it. */
  ghost predicate Filled(cfg: Config, s: State)
    requires |s.target| == |cfg.src|
  {
    !s.ret.Err? ==> forall x :: 0 <= x < s.claimed && x < |cfg.src| ==> s.target[x] == cfg.src[x] || Pending(s, x)
  }

  predicate ZeroOk(cfg: Config, s: State)
    requires |s.target| == |cfg.src|
  {
    cfg.zeroInit ==> forall x :: 0 <= x < |cfg.src| ==> s.target[x] == 0 || s.target[x] == cfg.src[x]
  }

  predicate CountsOk(cfg: Config, s: State) {
    && s.running == Count(s.cos)
    && (s.ret.InProgress? ==> s.running > 0 || forall i :: 0 <= i < |s.cos| ==> s.cos[i].NotStarted?)
    && (s.ret.Done? ==> s.claimed == |cfg.src| && forall i :: 0 <= i < |s.cos| ==> !Has(s.cos[i]) && !s.cos[i].Locked?)
  }

  ghost predicate Covered(s: State, x: nat) { exists i :: 0 <= i < |s.cos| && Covers(s.cos[i], x) }

  /** The coroutine with the chunk before p's. */
  ghost predicate Preceded(s: State, p: Pc)
    requires Has(p)
  {
    exists j :: 0 <= j < |s.cos| && Has(s.cos[j]) && s.cos[j].c.to == p.c.from
  }

  predicate TakesTurn(s: State, p: Pc) { (Puts(p) || p.Finishing?) && s.ret.InProgress? ==> p.c.from == s.wrOffs }

  ghost predicate OrderOk(cfg: Config, s: State) {
    cfg.inOrder ==>
      && (s.ret.InProgress? ==>
            && s.wrOffs <= s.claimed && (forall x :: s.wrOffs <= x < s.claimed ==> Covered(s, x))
            && (forall i :: 0 <= i < |s.cos| && Has(s.cos[i]) ==> s.wrOffs <= s.cos[i].c.from))
      && (forall i :: 0 <= i < |s.cos| ==> TakesTurn(s, s.cos[i]))
      && (forall i :: 0 <= i < |s.cos| && s.cos[i].Waiting? ==> Preceded(s, s.cos[i]))
      && (forall i, j :: 0 <= i < |s.cos| && 0 <= j < |s.cos| && i != j ==> !(Puts(s.cos[i]) && Puts(s.cos[j])))
  }

  /** The cuts made so far go up from 0 to the next sector to claim. */
  predicate CutsOk(s: State) {
    && |s.cuts| > 0 && s.cuts[0] == 0 && s.cuts[|s.cuts| - 1] == s.claimed
    && forall k :: 0 < k < |s.cuts| ==> s.cuts[k - 1] < s.cuts[k]
  }

  ghost predicate Inv(cfg: Config, s: State) {
    && LocksOk(s) && ChunksOk(cfg, s) && Apart(s) && Filled(cfg, s) && ZeroOk(cfg, s) && CountsOk(cfg, s)
    && OrderOk(cfg, s) && CutsOk(s) && CacheOk(cfg.src, s.claimed, s.status, s.nextStatus) && cfg.bufSectors > 0
  }
}
