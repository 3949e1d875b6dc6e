/**
 Exclusive sections of vCPU threads (cpus-common.c).

 Every vCPU thread runs cpu_exec_start / cpu_exec_end and start_exclusive /
 end_exclusive over the shared pending_cpus counter, the per-CPU running and
 has_waiter flags, qemu_cpu_list_lock and two condition variables.  The model is
 a sequentially consistent step system: one program counter per thread, one
 access to a shared variable per step, any interleaving, any number of threads.
 */
module ExclusiveSection {
  import opened Basics

  /** Where a vCPU thread stands.  `Outside`, `Executing` and `Exclusive` are the
      places between the four operations; the rest lie inside one of them. */
  datatype Pc =
    | Outside
      // cpu_exec_start
    | StartRead | StartLock | StartCheck | StartClear | StartIdle
    | StartSleep | StartWake | StartSet | StartUnlock
    | Executing
      // cpu_exec_end
    | EndRead | EndLock | EndCheck | EndDecrement | EndSignal | EndUnlock
      // start_exclusive
    | ExLock | ExIdle | ExIdleSleep | ExIdleWake | ExAnnounce
    | ExScan(next: nat, count: nat)
    | ExWait | ExSleep | ExWake | ExUnlock
    | Exclusive
      // end_exclusive
    | FinLock | FinReset | FinBroadcast | FinUnlock

  datatype Vcpu = Vcpu(pc: Pc, running: bool, hasWaiter: bool)

  /** `cpus` is the CPU list, in list order; `lock` is the holder of
      qemu_cpu_list_lock. */
  datatype State = State(lock: Option<nat>, pending: int, cpus: seq<Vcpu>)

  // ----- the four operations, one shared access at a time -----

  /** What a thread reads and writes in most steps: the lock, the counter and its
      own CPU. */
  datatype Local = Local(lock: Option<nat>, pending: int, cpu: Vcpu)

  function At(s: State, t: nat): Local
    requires t < |s.cpus|
  {
    Local(s.lock, s.pending, s.cpus[t])
  }

  function Set(s: State, t: nat, a: Local): State
    requires t < |s.cpus|
  {
    State(a.lock, a.pending, s.cpus[t := a.cpu])
  }

  function Goto(a: Local, pc: Pc): Local {
    a.(cpu := a.cpu.(pc := pc))
  }

  /** qemu_mutex_lock: only when nobody holds the lock. */
  predicate Acquire(t: nat, a: Local, pc: Pc, b: Local) {
    a.lock == None && b == Goto(a, pc).(lock := Some(t))
  }

  function Release(a: Local, pc: Pc): Local {
    Goto(a, pc).(lock := None)
  }

  /** exclusive_idle's loop: sleep on exclusive_resume, giving up the lock, while
      pending_cpus is nonzero. */
  function Idle(a: Local, asleep: Pc, done: Pc): Local {
    if a.pending != 0 then Release(a, asleep) else Goto(a, done)
  }

  /** A thread outside cpu_exec enters cpu_exec_start or start_exclusive. */
  predicate BeginStep(a: Local, b: Local) {
    && a.cpu.pc == Outside
    && (b == a.(cpu := a.cpu.(pc := StartRead, running := true)) || b == Goto(a, ExLock))
  }

  predicate StartStep(t: nat, a: Local, b: Local) {
    match a.cpu.pc
    case StartRead => b == Goto(a, if a.pending != 0 then StartLock else Executing)
    case StartLock => Acquire(t, a, StartCheck, b)
    case StartCheck => b == Goto(a, if a.cpu.hasWaiter then StartUnlock else StartClear)
    case StartClear => b == a.(cpu := a.cpu.(pc := StartIdle, running := false))
    case StartIdle => b == Idle(a, StartSleep, StartSet)
    case StartWake => Acquire(t, a, StartIdle, b)
    case StartSet => b == a.(cpu := a.cpu.(pc := StartUnlock, running := true))
    case StartUnlock => b == Release(a, Executing)
    case _ => false
  }

  predicate EndStep(t: nat, a: Local, b: Local) {
    match a.cpu.pc
    case Executing => b == a.(cpu := a.cpu.(pc := EndRead, running := false))
    case EndRead => b == Goto(a, if a.pending != 0 then EndLock else Outside)
    case EndLock => Acquire(t, a, EndCheck, b)
    case EndCheck => b == if a.cpu.hasWaiter then a.(cpu := a.cpu.(pc := EndDecrement, hasWaiter := false))
                          else Goto(a, EndUnlock)
    case EndDecrement => b == Goto(a, EndSignal).(pending := a.pending - 1)
    case EndSignal => a.pending != 1 && b == Goto(a, EndUnlock)
    case EndUnlock => b == Release(a, Outside)
    case _ => false
  }

  predicate ExclusiveStep(t: nat, n: nat, a: Local, b: Local) {
    match a.cpu.pc
    case ExLock => Acquire(t, a, ExIdle, b)
    case ExIdle => b == Idle(a, ExIdleSleep, ExAnnounce)
    case ExIdleWake => Acquire(t, a, ExIdle, b)
    case ExAnnounce => b == Goto(a, ExScan(0, 0)).(pending := 1)
    case ExScan(next, count) => next >= n && b == Goto(a, ExWait).(pending := count + 1)
    case ExWait => b == if a.pending > 1 then Release(a, ExSleep) else Goto(a, ExUnlock)
    case ExWake => Acquire(t, a, ExWait, b)
    case ExUnlock => b == Release(a, Exclusive)
    case _ => false
  }

  predicate FinishStep(t: nat, a: Local, b: Local) {
    match a.cpu.pc
    case Exclusive => b == Goto(a, FinLock)
    case FinLock => Acquire(t, a, FinReset, b)
    case FinReset => b == Goto(a, FinBroadcast).(pending := 0)
    case FinUnlock => b == Release(a, Outside)
    case _ => false
  }

  /** qemu_cond_wait may also return without a signal. */
  predicate SpuriousStep(a: Local, b: Local) {
    match a.cpu.pc
    case StartSleep => b == Goto(a, StartWake)
    case ExIdleSleep => b == Goto(a, ExIdleWake)
    case ExSleep => b == Goto(a, ExWake)
    case _ => false
  }

  /** One iteration of CPU_FOREACH in start_exclusive. */
  ghost predicate ScanStep(s: State, t: nat, s': State)
    requires t < |s.cpus|
  {
    match s.cpus[t].pc
    case ExScan(next, count) =>
      next < |s.cpus| &&
      if s.cpus[next].running then
        var cpus := s.cpus[next := s.cpus[next].(hasWaiter := true)];
        s' == s.(cpus := cpus[t := cpus[t].(pc := ExScan(next + 1, count + 1))])
      else s' == Set(s, t, Goto(At(s, t), ExScan(next + 1, count)))
    case _ => false
  }

  /** cpu_exec_end's qemu_cond_signal(&exclusive_cond): one sleeper wakes up, if
      there is one. */
  ghost predicate SignalStep(s: State, t: nat, s': State)
    requires t < |s.cpus|
  {
    && s.cpus[t].pc == EndSignal && s.pending == 1
    && var r := Set(s, t, Goto(At(s, t), EndUnlock));
       || (s' == r && forall u :: 0 <= u < |s.cpus| ==> s.cpus[u].pc != ExSleep)
       || exists u :: 0 <= u < |s.cpus| && s.cpus[u].pc == ExSleep && s' == Set(r, u, Goto(At(r, u), ExWake))
  }

  function WakeResume(v: Vcpu): Vcpu {
    match v.pc
    case StartSleep => v.(pc := StartWake)
    case ExIdleSleep => v.(pc := ExIdleWake)
    case _ => v
  }

  function Woken(cpus: seq<Vcpu>): (r: seq<Vcpu>)
    ensures |r| == |cpus|
    ensures forall i :: 0 <= i < |cpus| ==> r[i] == WakeResume(cpus[i])
  {
    seq(|cpus|, i requires 0 <= i < |cpus| => WakeResume(cpus[i]))
  }

  /** end_exclusive's qemu_cond_broadcast(&exclusive_resume) */
  predicate BroadcastStep(s: State, t: nat, s': State)
    requires t < |s.cpus|
  {
    && s.cpus[t].pc == FinBroadcast
    && s' == s.(cpus := Woken(s.cpus[t := s.cpus[t].(pc := FinUnlock)]))
  }

  predicate LocalContinue(s: State, t: nat, b: Local)
    requires t < |s.cpus|
  {
    StartStep(t, At(s, t), b) || EndStep(t, At(s, t), b) || ExclusiveStep(t, |s.cpus|, At(s, t), b) || FinishStep(t, At(s, t), b)
  }

  /** A thread that is inside an operation, executing or exclusive moves on. */
  ghost predicate Continue(s: State, t: nat, s': State) {
    && t < |s.cpus|
    && (|| ScanStep(s, t, s') || SignalStep(s, t, s') || BroadcastStep(s, t, s')
        || exists b :: LocalContinue(s, t, b) && s' == Set(s, t, b))
  }

  ghost predicate Begin(s: State, t: nat, s': State) {
    t < |s.cpus| && exists b :: BeginStep(At(s, t), b) && s' == Set(s, t, b)
  }

  ghost predicate Spurious(s: State, t: nat, s': State) {
    t < |s.cpus| && exists b :: SpuriousStep(At(s, t), b) && s' == Set(s, t, b)
  }

  ghost predicate Step(s: State, s': State) {
    exists t :: Begin(s, t, s') || Continue(s, t, s') || Spurious(s, t, s')
  }

  /** qemu_init_cpu_list, with every thread still outside cpu_exec. */
  ghost predicate Init(s: State) {
    s.lock == None && s.pending == 0 && forall i :: 0 <= i < |s.cpus| ==> s.cpus[i] == Vcpu(Outside, false, false)
  }

  ghost predicate Run(ss: seq<State>) {
    && |ss| > 0
    && Init(ss[0])
    && forall i :: 0 <= i < |ss| - 1 ==> Step(ss[i], ss[i + 1])
  }

  // ----- what every reachable state satisfies -----

  predicate Holds(pc: Pc) {
    pc.StartCheck? || pc.StartClear? || pc.StartIdle? || pc.StartSet? || pc.StartUnlock?
    || pc.EndCheck? || pc.EndDecrement? || pc.EndSignal? || pc.EndUnlock?
    || pc.ExIdle? || pc.ExAnnounce? || pc.ExScan? || pc.ExWait? || pc.ExUnlock?
    || pc.FinReset? || pc.FinBroadcast? || pc.FinUnlock?
  }

  /** The thread whose exclusive operation pending_cpus currently announces. */
  predicate Owns(pc: Pc) {
    pc.ExScan? || Counted(pc) || Alone(pc)
  }

  predicate Counted(pc: Pc) { pc.ExWait? || pc.ExSleep? || pc.ExWake? }

  predicate Alone(pc: Pc) { pc.ExUnlock? || pc.Exclusive? || pc.FinLock? || pc.FinReset? }

  predicate RunningPc(pc: Pc) {
    pc.StartRead? || pc.StartLock? || pc.StartCheck? || pc.StartClear? || pc.StartUnlock? || pc.Executing?
  }

  /** Places where a counted CPU can be before it releases its waiter. */
  predicate WaiterPc(pc: Pc) {
    pc.StartRead? || pc.StartLock? || pc.StartCheck? || pc.StartUnlock? || pc.Executing?
    || pc.EndRead? || pc.EndLock? || pc.EndCheck?
  }

  function Waiters(cpus: seq<Vcpu>): nat {
    if cpus == [] then 0 else Waiters(cpus[..|cpus| - 1]) + if cpus[|cpus| - 1].hasWaiter then 1 else 0
  }

  /** What one thread needs to know about the rest: the lock, the counter, the
      owner, how far the owner's scan has come, and what the lock holder is about
      to do. */
  datatype View = View(lock: Option<nat>, pending: int, owner: Option<nat>, scanned: nat,
                       decrementing: bool, signalling: bool, broadcasting: bool)

  predicate HolderAt(s: State, pc: Pc) {
    s.lock.Some? && s.lock.value < |s.cpus| && s.cpus[s.lock.value].pc == pc
  }

  function ViewOf(s: State, owner: Option<nat>): View {
    View(s.lock, s.pending, owner,
         if owner.Some? && owner.value < |s.cpus| && s.cpus[owner.value].pc.ExScan? then s.cpus[owner.value].pc.next
         else |s.cpus|,
         HolderAt(s, EndDecrement), HolderAt(s, EndSignal), HolderAt(s, FinBroadcast))
  }

  predicate ThreadInv(w: View, t: nat, v: Vcpu) {
    && (w.lock == Some(t) <==> Holds(v.pc))
    && (w.owner == Some(t) <==> Owns(v.pc))
    && v.running == RunningPc(v.pc)
    && (v.hasWaiter ==> WaiterPc(v.pc) && w.pending > 0 && t < w.scanned)
    && (v.pc.Executing? && w.pending > 0 && t < w.scanned ==> v.hasWaiter)
    && (v.pc.StartUnlock? && w.pending > 0 ==> v.hasWaiter)
    && (v.pc.StartClear? ==> !v.hasWaiter)
    && (v.pc.StartSet? || v.pc.ExAnnounce? ==> w.pending == 0)
    && (v.pc.EndDecrement? ==> w.pending > 1)
    && (v.pc.ExScan? || Alone(v.pc) ==> w.pending == 1)
    && (v.pc.ExSleep? ==> w.pending > 1 || w.signalling)
    && (v.pc.StartSleep? || v.pc.ExIdleSleep? ==> w.pending > 0 || w.broadcasting)
  }

  /** pending_cpus counts its owner and the CPUs that still have to release it;
      while the owner is scanning, its local count does. */
  predicate Tally(ownerPc: Option<Pc>, n: nat, pending: int, waiters: nat, decrementing: bool) {
    match ownerPc
    case None => pending == 0
    case Some(ExScan(next, count)) => count == waiters && next <= n
    case Some(_) => pending == 1 + waiters + if decrementing then 1 else 0
  }

  function PcOf(s: State, o: Option<nat>): Option<Pc>
    requires o.Some? ==> o.value < |s.cpus|
  {
    if o == None then None else Some(s.cpus[o.value].pc)
  }

  predicate CountInv(s: State, o: Option<nat>) {
    && (o.Some? ==> o.value < |s.cpus|)
    && Tally(PcOf(s, o), |s.cpus|, s.pending, Waiters(s.cpus), HolderAt(s, EndDecrement))
  }

  ghost predicate InvOf(s: State, owner: Option<nat>) {
    && (s.lock.Some? ==> s.lock.value < |s.cpus|)
    && CountInv(s, owner)
    && forall t :: 0 <= t < |s.cpus| ==> ThreadInv(ViewOf(s, owner), t, s.cpus[t])
  }

  ghost predicate Inv(s: State) {
    exists owner :: InvOf(s, owner)
  }

  // ----- counting CPUs with a waiter -----

  lemma {:induction false} WaitersUpdate(cpus: seq<Vcpu>, t: nat, v: Vcpu)
    requires t < |cpus|
    ensures Waiters(cpus[t := v]) ==
            Waiters(cpus) - (if cpus[t].hasWaiter then 1 else 0) + if v.hasWaiter then 1 else 0
  {
    var n := |cpus| - 1;
    var cpus' := cpus[t := v];
    if t == n {
      assert cpus'[..n] == cpus[..n];
    } else {
      assert cpus'[..n] == cpus[..n][t := v];
      WaitersUpdate(cpus[..n], t, v);
    }
  }

  lemma {:induction false} WaitersWitness(cpus: seq<Vcpu>)
    ensures Waiters(cpus) > 0 <==> exists u :: 0 <= u < |cpus| && cpus[u].hasWaiter
  {
    if cpus != [] {
      var n := |cpus| - 1;
      WaitersWitness(cpus[..n]);
      forall u | 0 <= u < |cpus| && cpus[u].hasWaiter && u != n
        ensures Waiters(cpus) > 0
      {
        assert cpus[..n][u].hasWaiter;
      }
    }
  }

  lemma {:induction false} WaitersWoken(cpus: seq<Vcpu>)
    ensures Waiters(Woken(cpus)) == Waiters(cpus)
  {
    if cpus != [] {
      var n := |cpus| - 1;
      assert Woken(cpus)[..n] == Woken(cpus[..n]);
      WaitersWoken(cpus[..n]);
    }
  }

  // ----- every step keeps the invariant -----

  /** The view of n threads after thread t moved to b on its own. */
  function After(w: View, t: nat, n: nat, b: Local): View {
    View(b.lock, b.pending,
         if Owns(b.cpu.pc) then Some(t) else if w.owner == Some(t) then None else w.owner,
         if b.cpu.pc.ExScan? then b.cpu.pc.next else if Owns(b.cpu.pc) || w.owner == Some(t) then n else w.scanned,
         if b.lock == Some(t) then b.cpu.pc.EndDecrement? else b.lock.Some? && w.decrementing,
         if b.lock == Some(t) then b.cpu.pc.EndSignal? else b.lock.Some? && w.signalling,
         if b.lock == Some(t) then b.cpu.pc.FinBroadcast? else b.lock.Some? && w.broadcasting)
  }

  predicate Sees(w: View, t: nat, n: nat, a: Local) {
    && a.lock == w.lock && a.pending == w.pending && a.pending >= 0 && ThreadInv(w, t, a.cpu)
    && (w.pending == 0 <==> w.owner == None)
    && (w.decrementing || w.signalling || w.broadcasting ==> w.lock.Some?)
    && (w.lock == Some(t) ==> && w.decrementing == a.cpu.pc.EndDecrement?
                              && w.signalling == a.cpu.pc.EndSignal?
                              && w.broadcasting == a.cpu.pc.FinBroadcast?)
    && (Owns(a.cpu.pc) ==> w.scanned == if a.cpu.pc.ExScan? then a.cpu.pc.next else n)
    && t < n
  }

  lemma {:induction false} StartOwn(w: View, t: nat, n: nat, a: Local, b: Local)
    requires Sees(w, t, n, a) && StartStep(t, a, b)
    ensures ThreadInv(After(w, t, n, b), t, b.cpu)
  {}

  lemma {:induction false} StartOthers(w: View, t: nat, n: nat, a: Local, b: Local, u: nat, v: Vcpu)
    requires Sees(w, t, n, a) && StartStep(t, a, b)
    requires ThreadInv(w, u, v) && u != t && u < n
    ensures ThreadInv(After(w, t, n, b), u, v)
  {}

  lemma {:induction false} EndOwn(w: View, t: nat, n: nat, a: Local, b: Local)
    requires Sees(w, t, n, a) && EndStep(t, a, b)
    requires a.cpu.hasWaiter && a.lock == Some(t) ==> a.pending > 1
    ensures ThreadInv(After(w, t, n, b), t, b.cpu)
  {}

  lemma {:induction false} EndOthers(w: View, t: nat, n: nat, a: Local, b: Local, u: nat, v: Vcpu)
    requires Sees(w, t, n, a) && EndStep(t, a, b)
    requires ThreadInv(w, u, v) && u != t && u < n
    ensures ThreadInv(After(w, t, n, b), u, v)
  {}

  lemma {:induction false} ExclusiveOwn(w: View, t: nat, n: nat, a: Local, b: Local)
    requires Sees(w, t, n, a) && ExclusiveStep(t, n, a, b)
    ensures ThreadInv(After(w, t, n, b), t, b.cpu)
  {}

  lemma {:induction false} ExclusiveOthers(w: View, t: nat, n: nat, a: Local, b: Local, u: nat, v: Vcpu)
    requires Sees(w, t, n, a) && ExclusiveStep(t, n, a, b)
    requires ThreadInv(w, u, v) && u != t && u < n
    ensures ThreadInv(After(w, t, n, b), u, v)
  {}

  lemma {:induction false} FinishOwn(w: View, t: nat, n: nat, a: Local, b: Local)
    requires Sees(w, t, n, a) && FinishStep(t, a, b)
    ensures ThreadInv(After(w, t, n, b), t, b.cpu)
  {}

  lemma {:induction false} FinishOthers(w: View, t: nat, n: nat, a: Local, b: Local, u: nat, v: Vcpu)
    requires Sees(w, t, n, a) && FinishStep(t, a, b)
    requires ThreadInv(w, u, v) && u != t && u < n
    requires w.pending == 1 && v.hasWaiter ==> !Alone(a.cpu.pc)
    ensures ThreadInv(After(w, t, n, b), u, v)
  {}

  lemma {:induction false} RestKeeps(w: View, t: nat, n: nat, a: Local, b: Local, u: nat, v: Vcpu)
    requires Sees(w, t, n, a) && (BeginStep(a, b) || SpuriousStep(a, b))
    requires ThreadInv(w, u, v) && u < n
    ensures ThreadInv(After(w, t, n, b), t, b.cpu)
    ensures u != t ==> ThreadInv(After(w, t, n, b), u, v)
  {}

  // ----- from one thread's view to the whole state -----

  /** A step that changes only thread t, the lock and the counter. */
  ghost predicate LocalStep(s: State, t: nat, b: Local)
    requires t < |s.cpus|
  {
    BeginStep(At(s, t), b) || SpuriousStep(At(s, t), b) || LocalContinue(s, t, b)
  }

  lemma {:induction false} ViewAfter(s: State, o: Option<nat>, t: nat, b: Local)
    requires InvOf(s, o) && t < |s.cpus|
    requires LockMoved(t, At(s, t), b)
    ensures var w' := After(ViewOf(s, o), t, |s.cpus|, b); ViewOf(Set(s, t, b), w'.owner) == w'
  {
    assert s.lock.Some? ==> ThreadInv(ViewOf(s, o), s.lock.value, s.cpus[s.lock.value]);
    assert o.Some? ==> ThreadInv(ViewOf(s, o), o.value, s.cpus[o.value]);
    assert ThreadInv(ViewOf(s, o), t, s.cpus[t]);
  }

  lemma {:induction false} SeesAt(s: State, o: Option<nat>, t: nat)
    requires InvOf(s, o) && t < |s.cpus|
    ensures Sees(ViewOf(s, o), t, |s.cpus|, At(s, t))
  {
    assert ThreadInv(ViewOf(s, o), t, s.cpus[t]);
    if o.Some? {
      assert ThreadInv(ViewOf(s, o), o.value, s.cpus[o.value]);
    }
  }

  /** A counter of 1 outside the scan means no CPU has a waiter. */
  lemma {:induction false} OnlyOwner(s: State, o: Option<nat>, u: nat)
    requires InvOf(s, o) && u < |s.cpus| && s.cpus[u].hasWaiter
    ensures o.Some? && (!s.cpus[o.value].pc.ExScan? ==> s.pending > 1)
  {
    assert ThreadInv(ViewOf(s, o), u, s.cpus[u]);
    WaitersWitness(s.cpus);
  }

  predicate LockMoved(t: nat, a: Local, b: Local) {
    && (b.lock == a.lock || b.lock == Some(t) || (b.lock == None && a.lock == Some(t)))
    && (Holds(b.cpu.pc) <==> b.lock == Some(t))
  }

  /** Both facts about one move of thread t: the lock changed hands only with t,
      and the counter still tallies. */
  predicate TallyMoved(w: View, t: nat, n: nat, a: Local, b: Local, pc: Option<Pc>, waiters: nat) {
    var w' := After(w, t, n, b);
    var waiters' := waiters - Bit(a.cpu.hasWaiter) + Bit(b.cpu.hasWaiter);
    var pc' := if w'.owner == Some(t) then Some(b.cpu.pc) else if w'.owner == None then None else pc;
    && LockMoved(t, a, b)
    && (w'.owner == w.owner || w'.owner == Some(t) || w'.owner == None)
    && waiters' >= 0
    && Tally(pc', n, b.pending, waiters', w'.decrementing)
  }

  predicate TallyReady(w: View, t: nat, n: nat, a: Local, pc: Option<Pc>, waiters: nat) {
    && Sees(w, t, n, a)
    && Tally(pc, n, a.pending, waiters, w.decrementing)
    && (pc.Some? <==> w.owner.Some?)
    && (Owns(a.cpu.pc) ==> pc == Some(a.cpu.pc))
    && (pc.Some? && pc.value.ExScan? ==> w.lock.Some? && w.lock == w.owner)
    && (a.cpu.hasWaiter ==> waiters > 0)
    && (a.pending == 0 ==> waiters == 0)
  }

  lemma {:induction false} RestTally(w: View, t: nat, n: nat, a: Local, b: Local, pc: Option<Pc>, waiters: nat)
    requires TallyReady(w, t, n, a, pc, waiters) && (BeginStep(a, b) || SpuriousStep(a, b))
    ensures TallyMoved(w, t, n, a, b, pc, waiters)
  {}

  lemma {:induction false} StartTally(w: View, t: nat, n: nat, a: Local, b: Local, pc: Option<Pc>, waiters: nat)
    requires TallyReady(w, t, n, a, pc, waiters) && StartStep(t, a, b)
    ensures TallyMoved(w, t, n, a, b, pc, waiters)
  {}

  lemma {:induction false} EndTally(w: View, t: nat, n: nat, a: Local, b: Local, pc: Option<Pc>, waiters: nat)
    requires TallyReady(w, t, n, a, pc, waiters) && EndStep(t, a, b)
    ensures TallyMoved(w, t, n, a, b, pc, waiters)
  {}

  lemma {:induction false} ExclusiveTally(w: View, t: nat, n: nat, a: Local, b: Local, pc: Option<Pc>, waiters: nat)
    requires TallyReady(w, t, n, a, pc, waiters) && (ExclusiveStep(t, n, a, b) || FinishStep(t, a, b))
    ensures TallyMoved(w, t, n, a, b, pc, waiters)
  {}

  lemma {:induction false} ReadyAt(s: State, o: Option<nat>, t: nat)
    requires InvOf(s, o) && t < |s.cpus|
    ensures TallyReady(ViewOf(s, o), t, |s.cpus|, At(s, t), PcOf(s, o), Waiters(s.cpus))
  {
    SeesAt(s, o, t);
    WaitersWitness(s.cpus);
    assert o.Some? ==> ThreadInv(ViewOf(s, o), o.value, s.cpus[o.value]);
    if s.pending == 0 {
      forall u | 0 <= u < |s.cpus| ensures !s.cpus[u].hasWaiter {
        assert ThreadInv(ViewOf(s, o), u, s.cpus[u]);
      }
    }
  }

  lemma {:induction false} LocalOthers(s: State, o: Option<nat>, t: nat, b: Local, u: nat)
    requires InvOf(s, o) && t < |s.cpus| && LocalStep(s, t, b) && u < |s.cpus|
    ensures ThreadInv(After(ViewOf(s, o), t, |s.cpus|, b), u, Set(s, t, b).cpus[u])
  {
    var w, n, a, v := ViewOf(s, o), |s.cpus|, At(s, t), s.cpus[u];
    SeesAt(s, o, t);
    assert ThreadInv(w, u, v);
    if BeginStep(a, b) || SpuriousStep(a, b) {
      RestKeeps(w, t, n, a, b, u, v);
    } else if StartStep(t, a, b) {
      if u == t { StartOwn(w, t, n, a, b); } else { StartOthers(w, t, n, a, b, u, v); }
    } else if EndStep(t, a, b) {
      if a.cpu.hasWaiter { OnlyOwner(s, o, t); }
      if u == t { EndOwn(w, t, n, a, b); } else { EndOthers(w, t, n, a, b, u, v); }
    } else if ExclusiveStep(t, n, a, b) {
      if u == t { ExclusiveOwn(w, t, n, a, b); } else { ExclusiveOthers(w, t, n, a, b, u, v); }
    } else {
      if v.hasWaiter { OnlyOwner(s, o, u); }
      if u == t { FinishOwn(w, t, n, a, b); } else { FinishOthers(w, t, n, a, b, u, v); }
    }
  }

  lemma {:induction false} LocalTally(s: State, o: Option<nat>, t: nat, b: Local)
    requires InvOf(s, o) && t < |s.cpus| && LocalStep(s, t, b)
    ensures TallyMoved(ViewOf(s, o), t, |s.cpus|, At(s, t), b, PcOf(s, o), Waiters(s.cpus))
  {
    var w, n, a := ViewOf(s, o), |s.cpus|, At(s, t);
    var pc, waiters := PcOf(s, o), Waiters(s.cpus);
    ReadyAt(s, o, t);
    if StartStep(t, a, b) {
      StartTally(w, t, n, a, b, pc, waiters);
    } else if EndStep(t, a, b) {
      EndTally(w, t, n, a, b, pc, waiters);
    } else if ExclusiveStep(t, n, a, b) || FinishStep(t, a, b) {
      ExclusiveTally(w, t, n, a, b, pc, waiters);
    } else {
      RestTally(w, t, n, a, b, pc, waiters);
    }
  }

  lemma {:induction false} LocalCount(s: State, o: Option<nat>, t: nat, b: Local)
    requires InvOf(s, o) && t < |s.cpus|
    requires TallyMoved(ViewOf(s, o), t, |s.cpus|, At(s, t), b, PcOf(s, o), Waiters(s.cpus))
    ensures var w' := After(ViewOf(s, o), t, |s.cpus|, b);
            ViewOf(Set(s, t, b), w'.owner) == w' && CountInv(Set(s, t, b), w'.owner)
  {
    WaitersUpdate(s.cpus, t, b.cpu);
    ViewAfter(s, o, t, b);
  }

  lemma {:induction false} LocalKeeps(s: State, o: Option<nat>, t: nat, b: Local) returns (o': Option<nat>)
    requires InvOf(s, o) && t < |s.cpus| && LocalStep(s, t, b)
    ensures InvOf(Set(s, t, b), o')
  {
    o' := After(ViewOf(s, o), t, |s.cpus|, b).owner;
    LocalTally(s, o, t, b);
    LocalCount(s, o, t, b);
    forall u | 0 <= u < |s.cpus|
      ensures ThreadInv(ViewOf(Set(s, t, b), o'), u, Set(s, t, b).cpus[u])
    {
      LocalOthers(s, o, t, b, u);
    }
  }

  lemma {:induction false} ScanOthers(w: View, u: nat, v: Vcpu)
    requires ThreadInv(w, u, v) && (u == w.scanned ==> !v.running)
    ensures ThreadInv(w.(scanned := w.scanned + 1), u, v)
  {}

  lemma {:induction false} ScanSelf(w: View, u: nat, v: Vcpu, next: nat, count: nat)
    requires ThreadInv(w, u, v) && v.pc.ExScan? && !v.running
    ensures ThreadInv(w.(scanned := w.scanned + 1), u, v.(pc := ExScan(next, count)))
  {}

  lemma {:induction false} ScanMarked(w: View, u: nat, v: Vcpu)
    requires ThreadInv(w, u, v) && u == w.scanned && v.running && w.lock.Some? && w.lock != Some(u) && w.pending == 1
    ensures ThreadInv(w.(scanned := w.scanned + 1), u, v.(hasWaiter := true)) && !v.hasWaiter
  {}

  lemma {:induction false} ScanOwner(s: State, o: Option<nat>, t: nat)
    requires InvOf(s, o) && t < |s.cpus| && s.cpus[t].pc.ExScan?
    ensures o == Some(t) && s.lock == Some(t) && s.pending == 1 && !s.cpus[t].running
    ensures ViewOf(s, o).scanned == s.cpus[t].pc.next && s.cpus[t].pc.count == Waiters(s.cpus)
  {
    assert ThreadInv(ViewOf(s, o), t, s.cpus[t]);
  }

  lemma {:induction false} ScanView(s: State, o: Option<nat>, t: nat, s': State)
    requires InvOf(s, o) && t < |s.cpus| && ScanStep(s, t, s')
    ensures s'.lock == s.lock && |s'.cpus| == |s.cpus|
    ensures ViewOf(s', o) == ViewOf(s, o).(scanned := ViewOf(s, o).scanned + 1) && CountInv(s', o)
  {
    ScanOwner(s, o, t);
    var next := s.cpus[t].pc.next;
    assert ThreadInv(ViewOf(s, o), next, s.cpus[next]);
    var marked := if s.cpus[next].running then s.cpus[next].(hasWaiter := true) else s.cpus[next];
    WaitersUpdate(s.cpus, next, marked);
    WaitersUpdate(s.cpus[next := marked], t, s'.cpus[t]);
    assert s'.cpus == s.cpus[next := marked][t := s'.cpus[t]];
  }

  lemma {:induction false} ViewParts(s: State, o: Option<nat>)
    ensures ViewOf(s, o).lock == s.lock && ViewOf(s, o).pending == s.pending && ViewOf(s, o).owner == o
  {}

  lemma {:induction false} ScanKeeps(s: State, o: Option<nat>, t: nat, s': State)
    requires InvOf(s, o) && t < |s.cpus| && ScanStep(s, t, s')
    ensures InvOf(s', o)
  {
    hide ThreadInv, CountInv, ViewOf;
    ScanOwner(s, o, t);
    ScanView(s, o, t, s');
    var w, next := ViewOf(s, o), s.cpus[t].pc.next;
    ViewParts(s, o);
    forall u | 0 <= u < |s.cpus| ensures ThreadInv(ViewOf(s', o), u, s'.cpus[u]) {
      assert ThreadInv(w, u, s.cpus[u]);
      if u == t {
        ScanSelf(w, u, s.cpus[u], s'.cpus[u].pc.next, s'.cpus[u].pc.count);
      } else if u == next && s.cpus[u].running {
        ScanMarked(w, u, s.cpus[u]);
      } else {
        ScanOthers(w, u, s.cpus[u]);
      }
    }
  }

  lemma {:induction false} SignalOthers(w: View, t: nat, v: Vcpu, u: nat, x: Vcpu)
    requires ThreadInv(w, t, v) && v.pc == EndSignal && ThreadInv(w, u, x)
    ensures ThreadInv(w.(signalling := false), t, v.(pc := EndUnlock))
    ensures u != t && !x.pc.ExSleep? ==> ThreadInv(w.(signalling := false), u, x)
    ensures x.pc.ExSleep? ==> u != t && w.owner == Some(u) && ThreadInv(w.(signalling := false), u, x.(pc := ExWake))
  {}

  lemma {:induction false} SignalView(s: State, o: Option<nat>, t: nat)
    requires InvOf(s, o) && t < |s.cpus| && s.cpus[t].pc == EndSignal
    ensures var s' := Set(s, t, Goto(At(s, t), EndUnlock)); ViewOf(s', o) == ViewOf(s, o).(signalling := false) && CountInv(s', o)
  {
    assert ThreadInv(ViewOf(s, o), t, s.cpus[t]);
    WaitersUpdate(s.cpus, t, s.cpus[t].(pc := EndUnlock));
  }

  lemma {:induction false} WakeView(s: State, o: Option<nat>, z: nat)
    requires CountInv(s, o) && z < |s.cpus| && s.cpus[z].pc == ExSleep && s.lock != Some(z)
    requires o.Some? && o.value < |s.cpus| ==> o.value != z || !s.cpus[z].pc.ExScan?
    ensures var s' := Set(s, z, Goto(At(s, z), ExWake)); ViewOf(s', o) == ViewOf(s, o) && CountInv(s', o)
  {
    WaitersUpdate(s.cpus, z, s.cpus[z].(pc := ExWake));
  }

  lemma {:induction false} SleeperIsNotHolder(w: View, t: nat, v: Vcpu, z: nat, x: Vcpu)
    requires ThreadInv(w, t, v) && v.pc == EndSignal && ThreadInv(w, z, x) && x.pc == ExSleep
    ensures z != t && w.lock != Some(z)
  {}

  lemma {:induction false} SignalNobody(s: State, o: Option<nat>, t: nat)
    requires InvOf(s, o) && t < |s.cpus| && s.cpus[t].pc == EndSignal
    requires forall u :: 0 <= u < |s.cpus| ==> s.cpus[u].pc != ExSleep
    ensures InvOf(Set(s, t, Goto(At(s, t), EndUnlock)), o)
  {
    hide ThreadInv, CountInv, ViewOf;
    var w := ViewOf(s, o);
    var s' := Set(s, t, Goto(At(s, t), EndUnlock));
    SignalView(s, o, t);
    forall u | 0 <= u < |s.cpus| ensures ThreadInv(ViewOf(s', o), u, s'.cpus[u]) {
      assert ThreadInv(w, u, s.cpus[u]);
      SignalOthers(w, t, s.cpus[t], u, s.cpus[u]);
    }
  }

  lemma {:induction false} SignalSleeper(s: State, o: Option<nat>, t: nat, z: nat)
    requires InvOf(s, o) && t < |s.cpus| && s.cpus[t].pc == EndSignal
    requires z < |s.cpus| && s.cpus[z].pc == ExSleep
    ensures var r := Set(s, t, Goto(At(s, t), EndUnlock)); InvOf(Set(r, z, Goto(At(r, z), ExWake)), o)
  {
    hide ThreadInv, CountInv, ViewOf;
    var w := ViewOf(s, o);
    var r := Set(s, t, Goto(At(s, t), EndUnlock));
    var s' := Set(r, z, Goto(At(r, z), ExWake));
    assert ThreadInv(w, t, s.cpus[t]) && ThreadInv(w, z, s.cpus[z]);
    SignalOthers(w, t, s.cpus[t], z, s.cpus[z]);
    SleeperIsNotHolder(w, t, s.cpus[t], z, s.cpus[z]);
    ViewParts(s, o);
    SignalView(s, o, t);
    WakeView(r, o, z);
    forall u | 0 <= u < |s.cpus| ensures ThreadInv(ViewOf(s', o), u, s'.cpus[u]) {
      assert ThreadInv(w, u, s.cpus[u]);
      SignalOthers(w, t, s.cpus[t], u, s.cpus[u]);
    }
  }

  lemma {:induction false} SignalKeeps(s: State, o: Option<nat>, t: nat, s': State)
    requires InvOf(s, o) && t < |s.cpus| && SignalStep(s, t, s')
    ensures InvOf(s', o)
  {
    var r := Set(s, t, Goto(At(s, t), EndUnlock));
    if u :| 0 <= u < |s.cpus| && s.cpus[u].pc == ExSleep && s' == Set(r, u, Goto(At(r, u), ExWake)) {
      SignalSleeper(s, o, t, u);
    } else {
      SignalNobody(s, o, t);
    }
  }

  lemma {:induction false} BroadcastOthers(w: View, t: nat, v: Vcpu, u: nat, x: Vcpu)
    requires ThreadInv(w, t, v) && v.pc == FinBroadcast && ThreadInv(w, u, x)
    ensures ThreadInv(w.(broadcasting := false), t, v.(pc := FinUnlock))
    ensures u != t ==> ThreadInv(w.(broadcasting := false), u, WakeResume(x))
  {}

  lemma {:induction false} BroadcastView(s: State, o: Option<nat>, t: nat, s': State)
    requires InvOf(s, o) && t < |s.cpus| && BroadcastStep(s, t, s')
    ensures ViewOf(s', o) == ViewOf(s, o).(broadcasting := false) && CountInv(s', o)
  {
    assert ThreadInv(ViewOf(s, o), t, s.cpus[t]);
    WaitersUpdate(s.cpus, t, s.cpus[t].(pc := FinUnlock));
    WaitersWoken(s.cpus[t := s.cpus[t].(pc := FinUnlock)]);
    assert o.Some? ==> ThreadInv(ViewOf(s, o), o.value, s.cpus[o.value]);
  }

  lemma {:induction false} BroadcastKeeps(s: State, o: Option<nat>, t: nat, s': State)
    requires InvOf(s, o) && t < |s.cpus| && BroadcastStep(s, t, s')
    ensures InvOf(s', o)
  {
    hide ThreadInv, CountInv, ViewOf;
    var w := ViewOf(s, o);
    BroadcastView(s, o, t, s');
    forall u | 0 <= u < |s.cpus| ensures ThreadInv(ViewOf(s', o), u, s'.cpus[u]) {
      assert ThreadInv(w, u, s.cpus[u]);
      BroadcastOthers(w, t, s.cpus[t], u, s.cpus[u]);
    }
  }

  /** Every step of every thread keeps the invariant. */
  lemma {:induction false} StepKeeps(s: State, s': State)
    requires Inv(s) && Step(s, s')
    ensures Inv(s')
  {
    var o :| InvOf(s, o);
    var t :| Begin(s, t, s') || Continue(s, t, s') || Spurious(s, t, s');
    if b :| LocalStep(s, t, b) && s' == Set(s, t, b) {
      var o' := LocalKeeps(s, o, t, b);
    } else if ScanStep(s, t, s') {
      ScanKeeps(s, o, t, s');
    } else if SignalStep(s, t, s') {
      SignalKeeps(s, o, t, s');
    } else {
      BroadcastKeeps(s, o, t, s');
    }
  }

  lemma {:induction false} InitInv(s: State)
    requires Init(s)
    ensures Inv(s)
  {
    assert InvOf(s, None);
  }

  lemma {:induction false} RunInv(ss: seq<State>, i: nat)
    requires Run(ss) && i < |ss|
    ensures Inv(ss[i])
  {
    if i == 0 {
      InitInv(ss[0]);
    } else {
      RunInv(ss, i - 1);
      StepKeeps(ss[i - 1], ss[i]);
    }
  }

  ghost predicate Reachable(s: State) {
    exists ss :: Run(ss) && ss[|ss| - 1] == s
  }

  lemma {:induction false} ReachableInv(s: State) returns (o: Option<nat>)
    requires Reachable(s)
    ensures InvOf(s, o)
  {
    var ss :| Run(ss) && ss[|ss| - 1] == s;
    RunInv(ss, |ss| - 1);
    o :| InvOf(s, o);
  }

  // ----- main results: safety -----

  /** While one thread is in its exclusive section, no other thread executes and
      no other thread is in an exclusive section: in every interleaving of any
      number of threads. */
  lemma {:induction false} MutualExclusion(s: State, t: nat, u: nat)
    requires Reachable(s) && t < |s.cpus| && u < |s.cpus| && t != u
    requires s.cpus[t].pc == Exclusive
    ensures s.cpus[u].pc != Executing && s.cpus[u].pc != Exclusive
  {
    var o := ReachableInv(s);
    assert ThreadInv(ViewOf(s, o), t, s.cpus[t]);
    assert ThreadInv(ViewOf(s, o), u, s.cpus[u]);
    if s.cpus[u].pc == Executing {
      OnlyOwner(s, o, u);
      assert false;
    }
  }

  /** Once the CPUs have been counted, pending_cpus is 1 plus the CPUs that have a
      waiter (plus the one CPU caught between clearing its flag and decrementing);
      it is 0 exactly when no exclusive operation is announced. */
  lemma {:induction false} PendingCounts(s: State)
    requires Reachable(s)
    ensures s.pending >= 0
    ensures s.pending == 0 <==> forall t :: 0 <= t < |s.cpus| ==> !Owns(s.cpus[t].pc)
    ensures forall t :: 0 <= t < |s.cpus| && (Counted(s.cpus[t].pc) || Alone(s.cpus[t].pc)) ==>
              s.pending == 1 + Waiters(s.cpus) + if HolderAt(s, EndDecrement) then 1 else 0
    ensures forall t :: 0 <= t < |s.cpus| && (s.cpus[t].pc.ExScan? || Alone(s.cpus[t].pc)) ==> s.pending == 1
  {
    hide Reachable;
    var o := ReachableInv(s);
    forall t | 0 <= t < |s.cpus| ensures ThreadInv(ViewOf(s, o), t, s.cpus[t]) {}
  }

  /** Nobody sleeps through its wake-up: whenever the lock is free, a sleeper on
      exclusive_cond still has CPUs to wait for and a sleeper on exclusive_resume
      still has an exclusive operation to wait for; exclusive_cond has at most one
      sleeper, so signalling it (rather than broadcasting) is enough. */
  lemma {:induction false} NoLostWakeup(s: State, t: nat)
    requires Reachable(s) && t < |s.cpus|
    ensures s.lock == None && s.cpus[t].pc == ExSleep ==> s.pending > 1
    ensures s.lock == None && (s.cpus[t].pc == StartSleep || s.cpus[t].pc == ExIdleSleep) ==> s.pending > 0
    ensures s.cpus[t].pc == ExSleep ==>
              forall u :: 0 <= u < |s.cpus| && s.cpus[u].pc == ExSleep ==> u == t
  {
    var o := ReachableInv(s);
    assert ThreadInv(ViewOf(s, o), t, s.cpus[t]);
    forall u | 0 <= u < |s.cpus| && s.cpus[u].pc == ExSleep && s.cpus[t].pc == ExSleep ensures u == t {
      assert ThreadInv(ViewOf(s, o), u, s.cpus[u]);
    }
  }

  // ----- main results: every operation completes -----

  ghost predicate CanContinue(s: State, t: nat) {
    exists s' :: Continue(s, t, s')
  }

  ghost predicate Stuck(s: State) {
    forall t :: !CanContinue(s, t)
  }

  lemma {:induction false} LocalCan(s: State, t: nat, b: Local)
    requires t < |s.cpus| && LocalContinue(s, t, b)
    ensures CanContinue(s, t)
  {
    assert Continue(s, t, Set(s, t, b));
  }

  /** The lock holder is never blocked. */
  lemma {:induction false} HolderCan(s: State, t: nat)
    requires t < |s.cpus| && Holds(s.cpus[t].pc)
    ensures CanContinue(s, t)
  {
    var a := At(s, t);
    match a.cpu.pc
    case StartCheck => LocalCan(s, t, Goto(a, if a.cpu.hasWaiter then StartUnlock else StartClear));
    case StartClear => LocalCan(s, t, a.(cpu := a.cpu.(pc := StartIdle, running := false)));
    case StartIdle => LocalCan(s, t, Idle(a, StartSleep, StartSet));
    case StartSet => LocalCan(s, t, a.(cpu := a.cpu.(pc := StartUnlock, running := true)));
    case StartUnlock => LocalCan(s, t, Release(a, Executing));
    case EndCheck => LocalCan(s, t, if a.cpu.hasWaiter then a.(cpu := a.cpu.(pc := EndDecrement, hasWaiter := false))
                                    else Goto(a, EndUnlock));
    case EndDecrement => LocalCan(s, t, Goto(a, EndSignal).(pending := a.pending - 1));
    case EndSignal => SignalCan(s, t);
    case EndUnlock => LocalCan(s, t, Release(a, Outside));
    case ExIdle => LocalCan(s, t, Idle(a, ExIdleSleep, ExAnnounce));
    case ExAnnounce => LocalCan(s, t, Goto(a, ExScan(0, 0)).(pending := 1));
    case ExScan(_, _) => ScanCan(s, t);
    case ExWait => LocalCan(s, t, if a.pending > 1 then Release(a, ExSleep) else Goto(a, ExUnlock));
    case ExUnlock => LocalCan(s, t, Release(a, Exclusive));
    case FinReset => LocalCan(s, t, Goto(a, FinBroadcast).(pending := 0));
    case FinBroadcast =>
      assert BroadcastStep(s, t, s.(cpus := Woken(s.cpus[t := s.cpus[t].(pc := FinUnlock)])));
      assert Continue(s, t, s.(cpus := Woken(s.cpus[t := s.cpus[t].(pc := FinUnlock)])));
    case FinUnlock => LocalCan(s, t, Release(a, Outside));
  }

  lemma {:induction false} SignalCan(s: State, t: nat)
    requires t < |s.cpus| && s.cpus[t].pc == EndSignal
    ensures CanContinue(s, t)
  {
    var r := Set(s, t, Goto(At(s, t), EndUnlock));
    if s.pending != 1 {
      LocalCan(s, t, Goto(At(s, t), EndUnlock));
    } else if u :| 0 <= u < |s.cpus| && s.cpus[u].pc == ExSleep {
      var s' := Set(r, u, Goto(At(r, u), ExWake));
      assert SignalStep(s, t, s');
      assert Continue(s, t, s');
    } else {
      assert SignalStep(s, t, r);
      assert Continue(s, t, r);
    }
  }

  lemma {:induction false} ScanCan(s: State, t: nat)
    requires t < |s.cpus| && s.cpus[t].pc.ExScan?
    ensures CanContinue(s, t)
  {
    var next, count := s.cpus[t].pc.next, s.cpus[t].pc.count;
    if next >= |s.cpus| {
      LocalCan(s, t, Goto(At(s, t), ExWait).(pending := count + 1));
    } else {
      var cpus := s.cpus[next := s.cpus[next].(hasWaiter := true)];
      var s' := if s.cpus[next].running then s.(cpus := cpus[t := cpus[t].(pc := ExScan(next + 1, count + 1))])
                else Set(s, t, Goto(At(s, t), ExScan(next + 1, count)));
      assert ScanStep(s, t, s');
      assert Continue(s, t, s');
    }
  }

  predicate Asleep(pc: Pc) { pc.StartSleep? || pc.ExIdleSleep? || pc.ExSleep? }

  /** With the lock free, every thread that is neither outside nor asleep can move. */
  lemma {:induction false} AwakeCan(s: State, t: nat)
    requires t < |s.cpus| && s.lock == None
    requires !Holds(s.cpus[t].pc) && !Asleep(s.cpus[t].pc) && s.cpus[t].pc != Outside
    ensures CanContinue(s, t)
  {
    var a := At(s, t);
    var locked := a.(lock := Some(t));
    match a.cpu.pc
    case StartRead => LocalCan(s, t, Goto(a, if a.pending != 0 then StartLock else Executing));
    case StartLock => LocalCan(s, t, Goto(locked, StartCheck));
    case StartWake => LocalCan(s, t, Goto(locked, StartIdle));
    case Executing => LocalCan(s, t, a.(cpu := a.cpu.(pc := EndRead, running := false)));
    case EndRead => LocalCan(s, t, Goto(a, if a.pending != 0 then EndLock else Outside));
    case EndLock => LocalCan(s, t, Goto(locked, EndCheck));
    case ExLock => LocalCan(s, t, Goto(locked, ExIdle));
    case ExIdleWake => LocalCan(s, t, Goto(locked, ExIdle));
    case ExWake => LocalCan(s, t, Goto(locked, ExWait));
    case Exclusive => LocalCan(s, t, Goto(a, FinLock));
    case FinLock => LocalCan(s, t, Goto(locked, FinReset));
  }

  /** No deadlock: as long as some thread is not outside, some thread that is not
      outside can continue, without any new operation and without spurious
      wake-ups. */
  lemma {:induction false} NoDeadlock(s: State, t: nat)
    requires Reachable(s) && t < |s.cpus| && s.cpus[t].pc != Outside
    ensures exists u :: CanContinue(s, u)
  {
    var o := ReachableInv(s);
    forall u | 0 <= u < |s.cpus| ensures ThreadInv(ViewOf(s, o), u, s.cpus[u]) {}
    if s.lock.Some? {
      HolderCan(s, s.lock.value);
    } else if !Asleep(s.cpus[t].pc) {
      AwakeCan(s, t);
    } else if !s.cpus[o.value].pc.ExSleep? {
      AwakeCan(s, o.value);
    } else {
      WaitersWitness(s.cpus);
      var u :| 0 <= u < |s.cpus| && s.cpus[u].hasWaiter;
      AwakeCan(s, u);
    }
  }

  /** Upper bound on the steps a thread still takes before it is outside, counting
      for each wake-up call the steps of those it wakes. */
  function Work(pc: Pc, n: nat): nat {
    match pc
    case Outside => 0
    case StartRead => 17
    case StartLock => 16
    case StartCheck => 15
    case StartClear => 14
    case StartWake => 14
    case StartIdle => 13
    case StartSleep => 12
    case StartSet => 11
    case StartUnlock => 10
    case Executing => 9
    case EndRead => 8
    case EndLock => 7
    case EndCheck => 6
    case EndDecrement => 5
    case EndSignal => 4
    case EndUnlock => 1
    case ExLock => 3 * n + 13
    case ExIdleWake => 3 * n + 12
    case ExIdle => 3 * n + 11
    case ExIdleSleep => 3 * n + 10
    case ExAnnounce => 3 * n + 9
    case ExScan(next, _) => if next < n then 3 * n - next + 8 else 2 * n + 8
    case ExWake => 2 * n + 8
    case ExWait => 2 * n + 7
    case ExSleep => 2 * n + 6
    case ExUnlock => 2 * n + 6
    case Exclusive => 2 * n + 5
    case FinLock => 2 * n + 4
    case FinReset => 2 * n + 3
    case FinBroadcast => 2 * n + 2
    case FinUnlock => 1
  }

  function WorkLeft(cpus: seq<Vcpu>, n: nat): nat {
    if cpus == [] then 0 else WorkLeft(cpus[..|cpus| - 1], n) + Work(cpus[|cpus| - 1].pc, n)
  }

  function Rank(s: State): nat { WorkLeft(s.cpus, |s.cpus|) }

  lemma {:induction false} WorkUpdate(cpus: seq<Vcpu>, t: nat, v: Vcpu, n: nat)
    requires t < |cpus|
    ensures WorkLeft(cpus[t := v], n) == WorkLeft(cpus, n) - Work(cpus[t].pc, n) + Work(v.pc, n)
  {
    var m := |cpus| - 1;
    var cpus' := cpus[t := v];
    if t == m {
      assert cpus'[..m] == cpus[..m];
    } else {
      assert cpus'[..m] == cpus[..m][t := v];
      WorkUpdate(cpus[..m], t, v, n);
    }
  }

  lemma {:induction false} WorkWoken(cpus: seq<Vcpu>, n: nat)
    ensures WorkLeft(Woken(cpus), n) <= WorkLeft(cpus, n) + 2 * |cpus|
  {
    if cpus != [] {
      var m := |cpus| - 1;
      assert Woken(cpus)[..m] == Woken(cpus[..m]);
      WorkWoken(cpus[..m], n);
    }
  }

  lemma {:induction false} StartDescends(t: nat, n: nat, a: Local, b: Local)
    requires StartStep(t, a, b) || FinishStep(t, a, b)
    ensures Work(b.cpu.pc, n) < Work(a.cpu.pc, n)
  {}

  lemma {:induction false} EndDescends(t: nat, n: nat, a: Local, b: Local)
    requires EndStep(t, a, b)
    ensures Work(b.cpu.pc, n) < Work(a.cpu.pc, n)
  {}

  lemma {:induction false} ExclusiveDescends(t: nat, n: nat, a: Local, b: Local)
    requires ExclusiveStep(t, n, a, b)
    ensures Work(b.cpu.pc, n) < Work(a.cpu.pc, n)
  {}

  lemma {:induction false} LocalDescends(s: State, t: nat, b: Local)
    requires t < |s.cpus| && LocalContinue(s, t, b)
    ensures Rank(Set(s, t, b)) < Rank(s)
  {
    if StartStep(t, At(s, t), b) || FinishStep(t, At(s, t), b) {
      StartDescends(t, |s.cpus|, At(s, t), b);
    } else if EndStep(t, At(s, t), b) {
      EndDescends(t, |s.cpus|, At(s, t), b);
    } else {
      ExclusiveDescends(t, |s.cpus|, At(s, t), b);
    }
    WorkUpdate(s.cpus, t, b.cpu, |s.cpus|);
  }

  lemma {:induction false} ScanDescends(s: State, t: nat, s': State)
    requires t < |s.cpus| && ScanStep(s, t, s')
    ensures |s'.cpus| == |s.cpus| && Rank(s') < Rank(s)
  {
    var n, next := |s.cpus|, s.cpus[t].pc.next;
    var cpus := if s.cpus[next].running then s.cpus[next := s.cpus[next].(hasWaiter := true)] else s.cpus;
    assert cpus == s.cpus[next := cpus[next]];
    WorkUpdate(s.cpus, next, cpus[next], n);
    WorkUpdate(cpus, t, s'.cpus[t], n);
  }

  lemma {:induction false} SleeperDescends(s: State, t: nat, u: nat)
    requires t < |s.cpus| && s.cpus[t].pc == EndSignal
    requires u < |s.cpus| && s.cpus[u].pc == ExSleep
    ensures var r := Set(s, t, Goto(At(s, t), EndUnlock)); Rank(Set(r, u, Goto(At(r, u), ExWake))) < Rank(s)
  {
    var r := Set(s, t, Goto(At(s, t), EndUnlock));
    WorkUpdate(s.cpus, t, r.cpus[t], |s.cpus|);
    WorkUpdate(r.cpus, u, Goto(At(r, u), ExWake).cpu, |s.cpus|);
  }

  lemma {:induction false} SignalDescends(s: State, t: nat, s': State)
    requires t < |s.cpus| && SignalStep(s, t, s')
    ensures Rank(s') < Rank(s)
  {
    var r := Set(s, t, Goto(At(s, t), EndUnlock));
    if u :| 0 <= u < |s.cpus| && s.cpus[u].pc == ExSleep && s' == Set(r, u, Goto(At(r, u), ExWake)) {
      SleeperDescends(s, t, u);
    } else {
      WorkUpdate(s.cpus, t, r.cpus[t], |s.cpus|);
    }
  }

  lemma {:induction false} BroadcastDescends(s: State, t: nat, s': State)
    requires t < |s.cpus| && BroadcastStep(s, t, s')
    ensures |s'.cpus| == |s.cpus| && Rank(s') < Rank(s)
  {
    var v := s.cpus[t].(pc := FinUnlock);
    WorkUpdate(s.cpus, t, v, |s.cpus|);
    WorkWoken(s.cpus[t := v], |s.cpus|);
  }

  /** Continuing always uses up work, waking up others included. */
  lemma {:induction false} ContinueDescends(s: State, t: nat, s': State)
    requires Continue(s, t, s')
    ensures Rank(s') < Rank(s)
  {
    if ScanStep(s, t, s') {
      ScanDescends(s, t, s');
    } else if SignalStep(s, t, s') {
      SignalDescends(s, t, s');
    } else if BroadcastStep(s, t, s') {
      BroadcastDescends(s, t, s');
    } else {
      var b :| LocalContinue(s, t, b) && s' == Set(s, t, b);
      LocalDescends(s, t, b);
    }
  }

  ghost predicate Drain(ss: seq<State>) {
    |ss| > 0 && forall i :: 0 <= i < |ss| - 1 ==> Drained(ss[i], ss[i + 1])
  }

  ghost predicate Drained(s: State, s': State) {
    exists t :: Continue(s, t, s')
  }

  lemma {:induction false} DrainDescends(ss: seq<State>)
    requires Drain(ss) && Reachable(ss[0])
    ensures |ss| - 1 <= Rank(ss[0]) - Rank(ss[|ss| - 1])
    ensures Reachable(ss[|ss| - 1])
  {
    var n := |ss| - 1;
    if n > 0 {
      forall i | 0 <= i < |ss[..n]| - 1 ensures Drained(ss[..n][i], ss[..n][i + 1]) {
        assert Drained(ss[i], ss[i + 1]);
      }
      DrainDescends(ss[..n]);
      assert Drained(ss[n - 1], ss[n]);
      var t :| Continue(ss[n - 1], t, ss[n]);
      ContinueDescends(ss[n - 1], t, ss[n]);
      ReachableStep(ss[n - 1], ss[n]);
    }
  }

  lemma {:induction false} ReachableStep(s: State, s': State)
    requires Reachable(s) && Step(s, s')
    ensures Reachable(s')
  {
    var ss :| Run(ss) && ss[|ss| - 1] == s;
    var ss' := ss + [s'];
    forall i | 0 <= i < |ss'| - 1 ensures Step(ss'[i], ss'[i + 1]) {
      if i < |ss| - 1 { assert Step(ss[i], ss[i + 1]); }
    }
    assert Run(ss') && ss'[|ss'| - 1] == s';
  }

  lemma {:induction false} StuckIsIdle(s: State)
    requires Reachable(s) && Stuck(s)
    ensures Init(s)
  {
    var o := ReachableInv(s);
    forall t | 0 <= t < |s.cpus| ensures s.cpus[t] == Vcpu(Outside, false, false) && ThreadInv(ViewOf(s, o), t, s.cpus[t]) {
      if s.cpus[t].pc != Outside {
        NoDeadlock(s, t);
        assert false;
      }
    }
  }

  /** Every operation completes.  Once no new operation begins, every schedule of
      the threads, from any reachable state, is finite; and the only state in
      which it can stop is the one with all threads outside, no CPU marked, the
      lock free and the counter zero. */
  lemma {:induction false} DrainCompletes(ss: seq<State>)
    requires Drain(ss) && Reachable(ss[0])
    ensures |ss| <= Rank(ss[0]) + 1
    ensures Stuck(ss[|ss| - 1]) ==> Init(ss[|ss| - 1])
  {
    DrainDescends(ss);
    if Stuck(ss[|ss| - 1]) {
      StuckIsIdle(ss[|ss| - 1]);
    }
  }
}
