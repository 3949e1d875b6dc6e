/**
 The vCont packet of the GDB remote protocol ("Debugging with GDB", Appendix E,
 Packets): which CPUs a list of actions resumes or steps (gdbstub.c).
 */
module VCont {
  import opened Basics
  import opened GdbPacket

  const EINVAL := 22
  const ERANGE := 34
  const ENOTSUP := 95
  const ULONG_MAX := 0xFFFF_FFFF_FFFF_FFFF
  const UINT32_RANGE := 0x1_0000_0000

  datatype Cpu = Cpu(index: nat, pid: nat, gdbIndex: nat)
  datatype Process = Process(pid: nat, attached: bool)

  /** The machine's CPUs, in list order, and the processes they are grouped in. */
  datatype Layout = Layout(cpus: seq<Cpu>, processes: seq<Process>, maxCpus: nat)

  /** There is a first CPU, and every CPU has a slot of its own and a process. */
  predicate WellFormed(l: Layout) {
    && |l.cpus| > 0 && |l.processes| > 0
    && (forall i :: 0 <= i < |l.cpus| ==> l.cpus[i].index < l.maxCpus && l.cpus[i].pid != 0 && GetProcess(l, l.cpus[i].pid).Some?)
    && (forall i, j :: 0 <= i < j < |l.cpus| ==> l.cpus[i].index != l.cpus[j].index)
  }

  // ----- looking up processes and CPUs -----

  function FindProcess(ps: seq<Process>, pid: nat): (r: Option<Process>)
    ensures r.Some? ==> r.value in ps && r.value.pid == pid
    ensures r.None? ==> forall p :: p in ps ==> p.pid != pid
  {
    if ps == [] then None else if ps[0].pid == pid then Some(ps[0]) else FindProcess(ps[1..], pid)
  }

  /** gdb_get_process: 0 stands for the first one. */
  function GetProcess(l: Layout, pid: nat): Option<Process>
    requires |l.processes| > 0
  {
    if pid == 0 then Some(l.processes[0]) else FindProcess(l.processes, pid)
  }

  predicate Attached(l: Layout, i: nat)
    requires WellFormed(l) && i < |l.cpus|
  {
    GetProcess(l, l.cpus[i].pid).value.attached
  }

  /** gdb_next_attached_cpu, with positions in the list; its length is the end. */
  function NextAttached(l: Layout, from: nat): (i: nat)
    requires WellFormed(l) && from <= |l.cpus|
    ensures from <= i <= |l.cpus| && (i < |l.cpus| ==> Attached(l, i))
    ensures forall k :: from <= k < i ==> !Attached(l, k)
    decreases |l.cpus| - from
  {
    if from == |l.cpus| || Attached(l, from) then from else NextAttached(l, from + 1)
  }

  /** gdb_next_cpu_in_process */
  function NextInProcess(l: Layout, pid: nat, from: nat): (i: nat)
    requires from <= |l.cpus|
    ensures from <= i <= |l.cpus| && (i < |l.cpus| ==> l.cpus[i].pid == pid)
    ensures forall k :: from <= k < i ==> l.cpus[k].pid != pid
    decreases |l.cpus| - from
  {
    if from == |l.cpus| || l.cpus[from].pid == pid then from else NextInProcess(l, pid, from + 1)
  }

  /** find_cpu */
  function FindCpu(l: Layout, tid: nat, from: nat): (i: nat)
    requires from <= |l.cpus|
    ensures from <= i <= |l.cpus| && (i < |l.cpus| ==> l.cpus[i].gdbIndex == tid)
    ensures forall k :: from <= k < i ==> l.cpus[k].gdbIndex != tid
    decreases |l.cpus| - from
  {
    if from == |l.cpus| || l.cpus[from].gdbIndex == tid then from else FindCpu(l, tid, from + 1)
  }

  /** gdb_get_cpu */
  function GetCpu(l: Layout, pid: nat, tid: nat): (r: Option<nat>)
    requires WellFormed(l)
    ensures r.Some? ==> r.value < |l.cpus| && Attached(l, r.value)
  {
    if pid == 0 && tid == 0 then
      var i := NextAttached(l, 0);
      if i < |l.cpus| then Some(i) else None
    else if tid == 0 then
      match GetProcess(l, pid)
      case None => None
      case Some(process) =>
        var i := NextInProcess(l, process.pid, 0);
        if process.attached && i < |l.cpus| then Some(i) else None
    else
      var i := FindCpu(l, tid, 0);
      if i == |l.cpus| then None
      else
        var process := GetProcess(l, l.cpus[i].pid).value;
        if (pid != 0 && process.pid != pid) || !process.attached then None else Some(i)
  }

  // ----- selecting CPUs -----

  datatype Selector = AllProcesses | AllThreads(pid: nat) | OneThread(pid: nat, tid: nat)

  /** What an entry's thread part finds: CPUs, an error, or (for all threads of a
      process that does not exist) a null process. */
  datatype Found = Cpus | Invalid | NullProcess

  function Find(l: Layout, s: Selector): Found
    requires WellFormed(l)
  {
    match s
    case AllProcesses => Cpus
    case AllThreads(pid) =>
      (match GetProcess(l, pid)
       case None => NullProcess
       case Some(process) => if process.attached then Cpus else Invalid)
    case OneThread(pid, tid) => if GetCpu(l, pid, tid).Some? then Cpus else Invalid
  }

  /** Whether an entry is about CPU i. */
  predicate Matches(l: Layout, s: Selector, i: nat)
    requires WellFormed(l) && i < |l.cpus|
  {
    match s
    case AllProcesses => Attached(l, i)
    case AllThreads(pid) => GetProcess(l, pid).Some? && l.cpus[i].pid == GetProcess(l, pid).value.pid
    case OneThread(pid, tid) => GetCpu(l, pid, tid) == Some(i)
  }

  datatype Entry = Entry(action: Byte, sel: Selector)

  /** The action of the leftmost entry about CPU i. */
  function First(l: Layout, es: seq<Entry>, i: nat): Option<Byte>
    requires WellFormed(l) && i < |l.cpus|
  {
    if es == [] then None
    else if Matches(l, es[0].sel, i) then Some(es[0].action)
    else First(l, es[1..], i)
  }

  lemma {:induction false} FirstSnoc(l: Layout, es: seq<Entry>, e: Entry, i: nat)
    requires WellFormed(l) && i < |l.cpus|
    ensures First(l, es + [e], i) ==
            if First(l, es, i).Some? then First(l, es, i) else if Matches(l, e.sel, i) then Some(e.action) else None
    decreases |es|
  {
    if es == [] {
      assert es + [e] == [e] && [e][1..] == [];
    } else {
      assert (es + [e])[1..] == es[1..] + [e];
      if !Matches(l, es[0].sel, i) { FirstSnoc(l, es[1..], e, i); }
    }
  }

  /** Entry k is the first about CPU i. */
  predicate LeftmostAt(l: Layout, es: seq<Entry>, i: nat, k: nat)
    requires WellFormed(l) && i < |l.cpus|
  {
    k < |es| && Matches(l, es[k].sel, i) && forall m :: 0 <= m < k ==> !Matches(l, es[m].sel, i)
  }

  lemma {:induction false} FirstIsLeftmost(l: Layout, es: seq<Entry>, i: nat, k: nat)
    requires WellFormed(l) && i < |l.cpus|
    ensures LeftmostAt(l, es, i, k) ==> First(l, es, i) == Some(es[k].action)
    ensures First(l, es, i).None? <==> forall m :: 0 <= m < |es| ==> !Matches(l, es[m].sel, i)
    decreases |es|
  {
    if es != [] {
      FirstIsLeftmost(l, es[1..], i, if k > 0 then k - 1 else 0);
      assert forall m :: 0 <= m < |es| - 1 ==> es[1..][m] == es[m + 1];
      assert forall m :: 0 < m < |es| ==> es[m] == es[1..][m - 1];
      if LeftmostAt(l, es, i, k) && k > 0 { assert LeftmostAt(l, es[1..], i, k - 1); }
    }
  }

  /** Only CPUs of attached processes are ever matched by an entry that finds CPUs. */
  lemma {:induction false} OnlyAttached(l: Layout, s: Selector, i: nat)
    requires WellFormed(l) && i < |l.cpus| && Find(l, s).Cpus? && Matches(l, s, i)
    ensures Attached(l, i)
  {}

  // ----- numbers -----

  /** qemu_strtoul in base 16: an error code, or a number and the length it takes. */
  datatype Num = Num(err: int, value: nat, used: nat)
  type Strtoul = seq<Byte> -> Num

  ghost predicate Sane(f: Strtoul) {
    forall s :: f(s).used <= |s| && (f(s).err == 0 ==> f(s).used > 0 && f(s).value <= ULONG_MAX)
  }

  predicate IsSpace(c: Byte) { c == SPACE || 9 <= c <= 13 }

  function Spaces(s: seq<Byte>): (n: nat)
    ensures n <= |s|
  {
    if s == [] || !IsSpace(s[0]) then 0 else 1 + Spaces(s[1..])
  }

  function Digits(s: seq<Byte>): (n: nat)
    ensures n <= |s|
  {
    if s == [] || !IsXDigit(s[0]) then 0 else 1 + Digits(s[1..])
  }

  function HexValue(s: seq<Byte>): nat {
    if s == [] then 0 else HexValue(s[..|s| - 1]) * 16 + FromHex(s[|s| - 1])
  }

  /** The function itself: white space, a sign, 0x, digits; a negated number wraps. */
  function Strtoul16(s: seq<Byte>): Num {
    var sign := Spaces(s);
    var start := sign + Bit(sign < |s| && (s[sign] == PLUS || s[sign] == MINUS));
    var from := if start + 2 < |s| && s[start] == 48 && (s[start + 1] == 120 || s[start + 1] == 88) && IsXDigit(s[start + 2])
                then start + 2 else start;
    var n := Digits(s[from..]);
    var v := HexValue(s[from..from + n]);
    if n == 0 then Num(-EINVAL, 0, 0)
    else if v > ULONG_MAX then Num(-ERANGE, ULONG_MAX, from + n)
    else if v > 0 && s[sign] == MINUS then Num(0, ULONG_MAX + 1 - v, from + n)
    else Num(0, v, from + n)
  }

  lemma {:induction false} Strtoul16Sane()
    ensures Sane(Strtoul16)
  {
    hide HexValue, IsSpace, IsXDigit, Spaces, Digits;
  }

  // ----- the text of a packet, and what lies behind it -----

  const SEMICOLON: Byte := 59
  const COLON: Byte := 58
  const LOWER_P: Byte := 112
  const LOWER_C: Byte := 99
  const LOWER_S: Byte := 115
  const UPPER_C: Byte := 67
  const UPPER_S: Byte := 83

  /** The bytes from a pointer into line_buf to the end of the buffer, where a NUL is. */
  predicate Memory(m: seq<Byte>) { m != [] && m[|m| - 1] == 0 }

  /** The C string that the memory starts with. */
  function Text(m: seq<Byte>): (s: seq<Byte>)
    ensures |s| <= |m| && s == m[..|s|] && 0 !in s
    ensures Memory(m) ==> |s| < |m| && m[|s|] == 0
  {
    if m == [] || m[0] == 0 then [] else [m[0]] + Text(m[1..])
  }

  /** That string with its NUL and nothing behind it ... */
  function Closed(m: seq<Byte>): seq<Byte> { Text(m) + [0] }

  /** ... and what is behind it: the remains of longer packets. */
  function Behind(m: seq<Byte>): seq<Byte>
    requires Memory(m)
  {
    m[|Text(m)| + 1..]
  }

  lemma {:induction false} TextTail(m: seq<Byte>)
    requires Memory(m) && m[0] != 0
    ensures Memory(m[1..]) && Text(m[1..]) == Text(m)[1..] && Behind(m[1..]) == Behind(m)
  {
    assert Text(m) == [m[0]] + Text(m[1..]);
    hide Text;
    assert m[1..][|Text(m[1..])| + 1..] == m[|Text(m)| + 1..];
  }

  lemma {:induction false} TextDrop(m: seq<Byte>, k: nat)
    requires Memory(m) && k <= |Text(m)|
    ensures Memory(m[k..]) && Text(m[k..]) == Text(m)[k..] && Closed(m[k..]) == Closed(m)[k..] && Behind(m[k..]) == Behind(m)
    decreases k
  {
    hide Text, Behind;
    if k == 0 {
      assert m[0..] == m && Text(m)[0..] == Text(m) && Closed(m)[0..] == Closed(m);
    } else {
      TextTail(m);
      TextDrop(m[1..], k - 1);
      assert m[1..][k - 1..] == m[k..] && Text(m)[1..][k - 1..] == Text(m)[k..];
      assert Closed(m)[k..] == Text(m)[k..] + [0];
    }
  }

  lemma {:induction false} TextOfClosed(s: seq<Byte>)
    requires 0 !in s
    ensures Memory(s + [0]) && Text(s + [0]) == s && Behind(s + [0]) == []
    decreases |s|
  {
    if s != [] {
      assert (s + [0])[1..] == s[1..] + [0];
      TextOfClosed(s[1..]);
    }
  }

  /** What reading yields: a value and the memory behind it, an error, or, after the
      process number of a thread part, the end of the buffer. */
  datatype Parse<T> = Parsed(value: T, rest: seq<Byte>) | Malformed(code: int) | PastEnd(pid: nat)

  function SelectorOf(p: nat, t: nat): Selector {
    if p == ULONG_MAX then AllProcesses
    else if t == ULONG_MAX then AllThreads(p % UINT32_RANGE)
    else OneThread(p % UINT32_RANGE, t % UINT32_RANGE)
  }

  function ReadThread(p: nat, m: seq<Byte>, f: Strtoul): (r: Parse<Selector>)
    requires Sane(f) && Memory(m)
    ensures r.Parsed? ==> |r.rest| < |m| && Memory(r.rest)
    ensures !r.PastEnd?
  {
    var t := f(Text(m));
    if t.err != 0 then Malformed(-EINVAL) else Parsed(SelectorOf(p, t.value), m[t.used..])
  }

  /** The thread number behind the character after a process number, which is skipped
      unseen: if it is the NUL, whatever lies behind it is read. */
  function ReadSkipped(p: nat, m: seq<Byte>, f: Strtoul): (r: Parse<Selector>)
    requires Sane(f) && Memory(m)
    ensures r.Parsed? ==> |r.rest| < |m| && Memory(r.rest)
  {
    if |m| == 1 then PastEnd(p) else ReadThread(p, m[1..], f)
  }

  /** read_thread_id */
  function ReadThreadId(m: seq<Byte>, f: Strtoul): (r: Parse<Selector>)
    requires Sane(f) && Memory(m)
    ensures r.Parsed? ==> |r.rest| < |m| && Memory(r.rest)
  {
    if m[0] == LOWER_P then
      var p := f(Text(m[1..]));
      if p.err != 0 then Malformed(-EINVAL) else ReadSkipped(p.value, m[1 + p.used..], f)
    else ReadThread(1, m, f)
  }

  function ReadSelector(m: seq<Byte>, f: Strtoul): (r: Parse<Selector>)
    requires Sane(f) && Memory(m)
    ensures r.Parsed? ==> |r.rest| <= |m| && Memory(r.rest)
  {
    if m[0] == 0 || m[0] == SEMICOLON then Parsed(AllProcesses, m)
    else if m[0] == COLON then ReadThreadId(m[1..], f)
    else Malformed(-ENOTSUP)
  }

  function WithAction(action: Byte, r: Parse<Selector>): Parse<Entry> {
    match r
    case Parsed(sel, rest) => Parsed(Entry(action, sel), rest)
    case Malformed(code) => Malformed(code)
    case PastEnd(p) => PastEnd(p)
  }

  /** The action of an entry: a signal is not passed on, so C is c and S is s. */
  function ActionAt(m: seq<Byte>): Byte
    requires |m| > 1
  {
    if m[1] == UPPER_C || m[1] == UPPER_S then m[1] + 32 else m[1]
  }

  /** One action and its thread part: the body of the loop of gdb_handle_vcont. */
  function ReadEntry(m: seq<Byte>, f: Strtoul): (r: Parse<Entry>)
    requires Sane(f) && Memory(m) && m[0] != 0
    ensures r.Parsed? ==> |r.rest| < |m| && Memory(r.rest) && (r.value.action == LOWER_C || r.value.action == LOWER_S)
  {
    if m[0] != SEMICOLON then Malformed(-ENOTSUP)
    else if m[1] == UPPER_C || m[1] == UPPER_S then
      var n := f(Text(m[2..]));
      if n.err != 0 then Malformed(n.err) else WithAction(ActionAt(m), ReadSelector(m[2 + n.used..], f))
    else if m[1] == LOWER_C || m[1] == LOWER_S then WithAction(ActionAt(m), ReadSelector(m[2..], f))
    else Malformed(-ENOTSUP)
  }

  /** How reading a packet ends: at a NUL, at an error, or past the buffer's end. */
  datatype Ending = Complete | Wrong(code: int) | Stray(action: Byte, pid: nat)
  datatype Reading = Reading(entries: seq<Entry>, ending: Ending)

  /** A whole packet, without looking anything up. */
  function Read(m: seq<Byte>, f: Strtoul): Reading
    requires Sane(f) && Memory(m)
    decreases |m|
  {
    if m[0] == 0 then Reading([], Complete)
    else match ReadEntry(m, f)
         case Malformed(code) => Reading([], Wrong(code))
         case PastEnd(p) => Reading([], Stray(ActionAt(m), p))
         case Parsed(e, rest) => var r := Read(rest, f); Reading([e] + r.entries, r.ending)
  }

  // ----- what a packet does -----

  /** Reading and looking up go hand in hand, so the first problem of either kind
      decides. */
  datatype Plan = Good(entries: seq<Entry>) | Bad(code: int) | Fault | Bare(entries: seq<Entry>, action: Byte, pid: nat)

  function After(done: seq<Entry>, p: Plan): Plan {
    match p
    case Good(es) => Good(done + es)
    case Bare(es, action, pid) => Bare(done + es, action, pid)
    case _ => p
  }

  lemma {:induction false} AfterAfter(a: seq<Entry>, b: seq<Entry>, p: Plan)
    ensures After(a, After(b, p)) == After(a + b, p)
  {
    if p.Good? || p.Bare? { assert a + (b + p.entries) == a + b + p.entries; }
  }

  function PlanOf(l: Layout, m: seq<Byte>, f: Strtoul): Plan
    requires WellFormed(l) && Sane(f) && Memory(m)
    decreases |m|
  {
    if m[0] == 0 then Good([])
    else match ReadEntry(m, f)
         case Malformed(code) => Bad(code)
         case PastEnd(p) => Bare([], ActionAt(m), p)
         case Parsed(e, rest) =>
           (match Find(l, e.sel)
            case Invalid => Bad(-EINVAL)
            case NullProcess => Fault
            case Cpus => After([e], PlanOf(l, rest, f)))
  }

  /** Looking up entries that have been read already. */
  function Judged(l: Layout, r: Reading): Plan
    requires WellFormed(l)
    decreases |r.entries|
  {
    if r.entries == [] then
      match r.ending
      case Complete => Good([])
      case Wrong(code) => Bad(code)
      case Stray(action, p) => Bare([], action, p)
    else match Find(l, r.entries[0].sel)
         case Invalid => Bad(-EINVAL)
         case NullProcess => Fault
         case Cpus => After(r.entries[..1], Judged(l, r.(entries := r.entries[1..])))
  }

  lemma {:induction false} ReadThenJudge(l: Layout, m: seq<Byte>, f: Strtoul)
    requires WellFormed(l) && Sane(f) && Memory(m)
    ensures PlanOf(l, m, f) == Judged(l, Read(m, f))
    decreases |m|
  {
    hide Find, ReadEntry;
    if m[0] != 0 && ReadEntry(m, f).Parsed? {
      var r := ReadEntry(m, f);
      ReadThenJudge(l, r.rest, f);
      var all := Read(m, f);
      assert all.entries[..1] == [r.value] && all.(entries := all.entries[1..]) == Read(r.rest, f);
    }
  }

  ghost predicate AllFound(l: Layout, es: seq<Entry>)
    requires WellFormed(l)
  {
    forall k :: 0 <= k < |es| ==> Find(l, es[k].sel).Cpus?
  }

  lemma {:induction false} AllFoundTail(l: Layout, es: seq<Entry>)
    requires WellFormed(l) && es != []
    ensures AllFound(l, es) <==> Find(l, es[0].sel).Cpus? && AllFound(l, es[1..])
  {
    hide Find;
    assert forall k :: 0 < k < |es| ==> es[k] == es[1..][k - 1];
    assert forall k :: 0 <= k < |es| - 1 ==> es[1..][k] == es[k + 1];
  }

  lemma {:induction false} JudgedFound(l: Layout, r: Reading)
    requires WellFormed(l)
    ensures Judged(l, r).Good? <==> r.ending.Complete? && AllFound(l, r.entries)
    ensures Judged(l, r).Bare? <==> r.ending.Stray? && AllFound(l, r.entries)
    ensures Judged(l, r).Good? || Judged(l, r).Bare? ==> Judged(l, r).entries == r.entries
    ensures Judged(l, r).Bare? ==> r.ending == Stray(Judged(l, r).action, Judged(l, r).pid)
    decreases |r.entries|
  {
    hide Find, AllFound;
    if r.entries == [] {
      NoneFound(l);
    } else {
      JudgedFound(l, r.(entries := r.entries[1..]));
      AllFoundTail(l, r.entries);
      assert r.entries == r.entries[..1] + r.entries[1..];
    }
  }

  lemma {:induction false} NoneFound(l: Layout)
    requires WellFormed(l)
    ensures AllFound(l, [])
  {}

  /** CPUs are set going exactly when reading gets to a NUL and each entry read finds
      CPUs; the entries carried out are those read. */
  lemma {:induction false} GoodIff(l: Layout, m: seq<Byte>, f: Strtoul)
    requires WellFormed(l) && Sane(f) && Memory(m)
    ensures PlanOf(l, m, f).Good? <==> Read(m, f).ending.Complete? && AllFound(l, Read(m, f).entries)
    ensures PlanOf(l, m, f).Good? ==> PlanOf(l, m, f).entries == Read(m, f).entries
  {
    hide Find, Judged, PlanOf, Read, AllFound;
    ReadThenJudge(l, m, f);
    JudgedFound(l, Read(m, f));
  }

  /** Entry k asks for all threads of a process that does not exist, and the entries
      before it found CPUs. */
  predicate NullAt(l: Layout, es: seq<Entry>, k: nat)
    requires WellFormed(l)
  {
    && k < |es| && es[k].sel.AllThreads? && GetProcess(l, es[k].sel.pid).None?
    && forall i :: 0 <= i < k ==> Find(l, es[i].sel).Cpus?
  }

  lemma {:induction false} NullAtTail(l: Layout, es: seq<Entry>, k: nat)
    requires WellFormed(l) && es != [] && Find(l, es[0].sel).Cpus?
    ensures NullAt(l, es, k + 1) <==> NullAt(l, es[1..], k)
  {
    hide GetProcess;
    if NullAt(l, es[1..], k) {
      assert forall i :: 0 < i < k + 1 ==> es[i] == es[1..][i - 1];
    }
    if NullAt(l, es, k + 1) {
      assert forall i :: 0 <= i < k ==> es[1..][i] == es[i + 1];
    }
  }

  lemma {:induction false} JudgedFault(l: Layout, r: Reading)
    requires WellFormed(l)
    ensures Judged(l, r).Fault? <==> exists k: nat :: NullAt(l, r.entries, k)
    decreases |r.entries|
  {
    var es := r.entries;
    if es != [] {
      JudgedFault(l, r.(entries := es[1..]));
      if Judged(l, r).Fault? {
        if Find(l, es[0].sel).NullProcess? {
          assert NullAt(l, es, 0);
        } else {
          var k: nat :| NullAt(l, es[1..], k);
          NullAtTail(l, es, k);
          assert NullAt(l, es, k + 1);
        }
      }
      if k: nat :| NullAt(l, es, k) {
        if k > 0 {
          NullAtTail(l, es, k - 1);
          assert NullAt(l, es[1..], k - 1);
        }
      }
    }
  }

  /** Exactly when a packet, well-formed or not, makes the stub follow a null process. */
  lemma {:induction false} FaultIff(l: Layout, m: seq<Byte>, f: Strtoul)
    requires WellFormed(l) && Sane(f) && Memory(m)
    ensures PlanOf(l, m, f).Fault? <==> exists k: nat :: NullAt(l, Read(m, f).entries, k)
  {
    hide Find, Judged, PlanOf, Read, NullAt;
    ReadThenJudge(l, m, f);
    JudgedFault(l, Read(m, f));
  }

  // ----- when the bytes behind the text matter -----

  lemma {:induction false} ThreadOfText(p: nat, m: seq<Byte>, f: Strtoul)
    requires Sane(f) && Memory(m)
    ensures Memory(Closed(m))
    ensures SameRead(m, ReadThread(p, Closed(m), f), ReadThread(p, m, f))
  {
    TextOfClosed(Text(m));
    if f(Text(m)).err == 0 { TextDrop(m, f(Text(m)).used); }
  }

  /** Reading the closed text gave q and reading the memory r: the same, at the same
      place of the text. */
  ghost predicate SameRead<T(!new)>(m: seq<Byte>, q: Parse<T>, r: Parse<T>)
    requires Memory(m)
  {
    if q.Parsed? then r.Parsed? && r.value == q.value && Memory(r.rest) && q.rest == Closed(r.rest) && Behind(r.rest) == Behind(m)
    else r == q
  }

  /** What a thread part with a bare process number becomes: its thread number is read
      from behind the text. */
  function FromBehind(p: nat, behind: seq<Byte>, f: Strtoul): Parse<Selector>
    requires Sane(f) && (behind == [] || Memory(behind))
  {
    if behind == [] then PastEnd(p) else ReadThread(p, behind, f)
  }

  lemma {:induction false} BehindMemory(m: seq<Byte>)
    requires Memory(m)
    ensures Behind(m) == [] || Memory(Behind(m))
  {}

  lemma {:induction false} SkippedOfText(p: nat, m: seq<Byte>, f: Strtoul)
    requires Sane(f) && Memory(m)
    ensures Memory(Closed(m)) && (Behind(m) == [] || Memory(Behind(m)))
    ensures if Text(m) == [] then ReadSkipped(p, Closed(m), f) == PastEnd(p) && ReadSkipped(p, m, f) == FromBehind(p, Behind(m), f)
            else !ReadSkipped(p, Closed(m), f).PastEnd? && SameRead(m, ReadSkipped(p, Closed(m), f), ReadSkipped(p, m, f))
  {
    TextOfClosed(Text(m));
    BehindMemory(m);
    if Text(m) != [] {
      TextDrop(m, 1);
      ThreadOfText(p, m[1..], f);
    }
  }

  /** The text alone decides, unless it ends with a bare process number. */
  ghost predicate Follows(m: seq<Byte>, q: Parse<Selector>, r: Parse<Selector>, f: Strtoul)
    requires Memory(m) && Sane(f)
  {
    if q.PastEnd? then (Behind(m) == [] || Memory(Behind(m))) && r == FromBehind(q.pid, Behind(m), f) else SameRead(m, q, r)
  }

  lemma {:induction false} IdOfText(m: seq<Byte>, f: Strtoul)
    requires Sane(f) && Memory(m)
    ensures Memory(Closed(m)) && Follows(m, ReadThreadId(Closed(m), f), ReadThreadId(m, f), f)
  {
    hide Text, ReadThread, ReadSkipped, FromBehind;
    TextOfClosed(Text(m));
    if m[0] == LOWER_P {
      TextDrop(m, 1);
      TextOfClosed(Text(m[1..]));
      var p := f(Text(m[1..]));
      if p.err == 0 {
        TextDrop(m, 1 + p.used);
        SkippedOfText(p.value, m[1 + p.used..], f);
      }
    } else {
      ThreadOfText(1, m, f);
    }
  }

  lemma {:induction false} SelectorOfText(m: seq<Byte>, f: Strtoul)
    requires Sane(f) && Memory(m)
    ensures Memory(Closed(m)) && Follows(m, ReadSelector(Closed(m), f), ReadSelector(m, f), f)
  {
    hide ReadThreadId;
    TextOfClosed(Text(m));
    if m[0] == COLON {
      TextDrop(m, 1);
      IdOfText(m[1..], f);
    }
  }

  lemma {:induction false} SelectorFrom(m: seq<Byte>, k: nat, f: Strtoul)
    requires Sane(f) && Memory(m) && k <= |Text(m)|
    ensures Memory(m[k..]) && Memory(Closed(m)[k..]) && Behind(m[k..]) == Behind(m)
    ensures Follows(m, ReadSelector(Closed(m)[k..], f), ReadSelector(m[k..], f), f)
  {
    hide ReadSelector;
    TextDrop(m, k);
    SelectorOfText(m[k..], f);
  }

  ghost predicate EntryFollows(m: seq<Byte>, q: Parse<Entry>, r: Parse<Entry>, f: Strtoul)
    requires Sane(f) && Memory(m) && |m| > 1 && (Behind(m) == [] || Memory(Behind(m)))
  {
    if q.PastEnd? then r == WithAction(ActionAt(m), FromBehind(q.pid, Behind(m), f)) else SameRead(m, q, r)
  }

  lemma {:induction false} EntryFrom(m: seq<Byte>, k: nat, f: Strtoul)
    requires Sane(f) && Memory(m) && |m| > 1 && k <= |Text(m)| && (Behind(m) == [] || Memory(Behind(m)))
    ensures Memory(m[k..]) && Memory(Closed(m)[k..])
    ensures EntryFollows(m, WithAction(ActionAt(m), ReadSelector(Closed(m)[k..], f)), WithAction(ActionAt(m), ReadSelector(m[k..], f)), f)
  {
    SelectorFrom(m, k, f);
    hide ReadSelector, FromBehind, Closed, Behind, Memory, Sane;
  }

  lemma {:induction false} HeadOfText(m: seq<Byte>)
    requires Memory(m) && m[0] != 0
    ensures |m| > 1 && Memory(Closed(m)) && |Closed(m)| > 1 && Closed(m)[0] == m[0] && Closed(m)[1] == m[1]
    ensures m[1] != 0 ==> |m| > 2 && |Closed(m)| > 2 && 2 <= |Text(m)| && Text(Closed(m)[2..]) == Text(m[2..])
                          && |Text(m[2..])| + 2 == |Text(m)|
  {
    TextOfClosed(Text(m));
    if m[1] != 0 {
      TextDrop(m, 2);
      TextOfClosed(Text(m[2..]));
    }
  }

  lemma {:induction false} EntryOfText(m: seq<Byte>, f: Strtoul)
    requires Sane(f) && Memory(m) && m[0] != 0
    ensures Memory(Closed(m)) && Closed(m)[0] != 0 && (Behind(m) == [] || Memory(Behind(m)))
    ensures ActionAt(Closed(m)) == ActionAt(m) && EntryFollows(m, ReadEntry(Closed(m), f), ReadEntry(m, f), f)
  {
    hide ReadSelector, FromBehind, EntryFollows, Text, WithAction, Closed, Behind;
    HeadOfText(m);
    BehindMemory(m);
    MalformedFollows(m, f);
    if m[0] == SEMICOLON && (m[1] == LOWER_C || m[1] == LOWER_S) {
      EntryFrom(m, 2, f);
    } else if m[0] == SEMICOLON && (m[1] == UPPER_C || m[1] == UPPER_S) && f(Text(m[2..])).err == 0 {
      EntryFrom(m, 2 + f(Text(m[2..])).used, f);
    }
  }

  lemma {:induction false} MalformedFollows(m: seq<Byte>, f: Strtoul)
    requires Sane(f) && Memory(m) && |m| > 1 && (Behind(m) == [] || Memory(Behind(m)))
    ensures forall code :: EntryFollows(m, Malformed(code), Malformed(code), f)
  {}

  /** The plan for a text that ends with a bare process number, given what is behind. */
  function Continued(l: Layout, p: Plan, behind: seq<Byte>, f: Strtoul): Plan
    requires WellFormed(l) && Sane(f) && (behind == [] || Memory(behind)) && p.Bare?
  {
    match FromBehind(p.pid, behind, f)
    case Malformed(code) => Bad(code)
    case PastEnd(_) => p
    case Parsed(sel, rest) =>
      (match Find(l, sel)
       case Invalid => Bad(-EINVAL)
       case NullProcess => Fault
       case Cpus => After(p.entries + [Entry(p.action, sel)], PlanOf(l, rest, f)))
  }

  lemma {:induction false} ContinuedAfter(l: Layout, done: seq<Entry>, p: Plan, behind: seq<Byte>, f: Strtoul)
    requires WellFormed(l) && Sane(f) && (behind == [] || Memory(behind)) && p.Bare?
    ensures Continued(l, After(done, p), behind, f) == After(done, Continued(l, p, behind, f))
  {
    hide Find;
    var r := FromBehind(p.pid, behind, f);
    if r.Parsed? {
      var e := Entry(p.action, r.value);
      assert done + p.entries + [e] == done + (p.entries + [e]);
      AfterAfter(done, p.entries + [e], PlanOf(l, r.rest, f));
    }
  }

  lemma {:induction false} BareEntry(l: Layout, m: seq<Byte>, p: nat, f: Strtoul)
    requires WellFormed(l) && Sane(f) && Memory(m) && m[0] != 0 && (Behind(m) == [] || Memory(Behind(m)))
    requires ReadEntry(m, f) == WithAction(ActionAt(m), FromBehind(p, Behind(m), f))
    ensures PlanOf(l, m, f) == Continued(l, Bare([], ActionAt(m), p), Behind(m), f)
  {
    hide Find, ReadEntry, ReadThread, Behind, WellFormed;
    var e := ReadEntry(m, f);
    if e.Parsed? { assert [] + [e.value] == [e.value]; }
  }

  /** What a packet does is decided by its text alone, but for one case: if the text
      ends with a thread part that is a bare process number, all entries before having
      found CPUs, then it goes on with what earlier packets have left in the buffer. */
  lemma {:induction false} TextDecides(l: Layout, m: seq<Byte>, f: Strtoul)
    requires WellFormed(l) && Sane(f) && Memory(m)
    ensures Memory(Closed(m)) && (Behind(m) == [] || Memory(Behind(m)))
    ensures var p := PlanOf(l, Closed(m), f); PlanOf(l, m, f) == if p.Bare? then Continued(l, p, Behind(m), f) else p
    decreases |m|
  {
    hide Find, ReadEntry, FromBehind;
    TextOfClosed(Text(m));
    BehindMemory(m);
    if m[0] != 0 {
      EntryOfText(m, f);
      var q := ReadEntry(Closed(m), f);
      assert EntryFollows(m, q, ReadEntry(m, f), f);
      if q.Parsed? {
        var rest := ReadEntry(m, f).rest;
        TextDecides(l, rest, f);
        var p := PlanOf(l, Closed(rest), f);
        if p.Bare? { ContinuedAfter(l, [q.value], p, Behind(m), f); }
      } else if q.PastEnd? {
        BareEntry(l, m, q.pid, f);
      }
    }
  }

  /** Exactly when CPUs are set going: the text is well-formed and its entries find
      CPUs; or it is malformed in that it ends with a bare process number, and behind
      it lie a thread number that completes it, an entry that finds CPUs, and then a
      text that is itself good. */
  lemma {:induction false} ResumesIff(l: Layout, m: seq<Byte>, f: Strtoul)
    requires WellFormed(l) && Sane(f) && Memory(m)
    ensures Memory(Closed(m)) && (Behind(m) == [] || Memory(Behind(m)))
    ensures var text, behind := Read(Closed(m), f), Behind(m);
      PlanOf(l, m, f).Good? <==>
      && AllFound(l, text.entries)
      && (|| text.ending.Complete?
          || (&& text.ending.Stray? && behind != [] && f(Text(behind)).err == 0
              && Find(l, SelectorOf(text.ending.pid, f(Text(behind)).value)).Cpus?
              && PlanOf(l, behind[f(Text(behind)).used..], f).Good?))
  {
    hide Find, AllFound, Read, Judged;
    TextDecides(l, m, f);
    ReadThenJudge(l, Closed(m), f);
    JudgedFound(l, Read(Closed(m), f));
  }

  // ----- how a text can end like that -----

  ghost predicate Suffix(a: seq<Byte>, b: seq<Byte>) { |a| <= |b| && a == b[|b| - |a|..] }

  lemma {:induction false} SuffixDrop(a: seq<Byte>, b: seq<Byte>, k: nat)
    requires k <= |b| && Suffix(a, b[k..])
    ensures Suffix(a, b)
  {}

  lemma {:induction false} SuffixSelf(a: seq<Byte>)
    ensures Suffix(a, a)
  {}

  lemma {:induction false} IdSuffix(m: seq<Byte>, f: Strtoul)
    requires Sane(f) && Memory(m) && ReadThreadId(m, f).Parsed?
    ensures Suffix(ReadThreadId(m, f).rest, m)
  {
    hide Suffix, Text;
    var rest := ReadThreadId(m, f).rest;
    SuffixSelf(rest);
    if m[0] == LOWER_P {
      var p := f(Text(m[1..]));
      var m' := m[1 + p.used..];
      SuffixDrop(rest, m'[1..], f(Text(m'[1..])).used);
      SuffixDrop(rest, m', 1);
      SuffixDrop(rest, m, 1 + p.used);
    } else {
      SuffixDrop(rest, m, f(Text(m)).used);
    }
  }

  lemma {:induction false} SelectorSuffix(m: seq<Byte>, f: Strtoul)
    requires Sane(f) && Memory(m) && ReadSelector(m, f).Parsed?
    ensures Suffix(ReadSelector(m, f).rest, m)
  {
    hide Suffix, Text, ReadThreadId;
    var rest := ReadSelector(m, f).rest;
    SuffixSelf(m);
    if m[0] == COLON {
      IdSuffix(m[1..], f);
      SuffixDrop(rest, m, 1);
    }
  }

  /** Where the thread part of the first entry begins. */
  function SelectorAt(m: seq<Byte>, f: Strtoul): nat
    requires |m| > 1
  {
    if m[1] == UPPER_C || m[1] == UPPER_S then 2 + f(Text(m[2..])).used else 2
  }

  lemma {:induction false} EntrySuffix(m: seq<Byte>, f: Strtoul)
    requires Sane(f) && Memory(m) && m[0] != 0
    ensures ReadEntry(m, f).Parsed? ==> Suffix(ReadEntry(m, f).rest, m)
    ensures ReadEntry(m, f).PastEnd? ==>
              SelectorAt(m, f) < |m| && Memory(m[SelectorAt(m, f)..]) && ReadSelector(m[SelectorAt(m, f)..], f).PastEnd?
  {
    hide Suffix, Text, ReadSelector;
    var r, k := ReadEntry(m, f), SelectorAt(m, f);
    if r.Parsed? {
      SelectorSuffix(m[k..], f);
      SuffixDrop(r.rest, m, k);
    }
  }

  /** ":p", a number, and the NUL. */
  ghost predicate BareProcess(t: seq<Byte>, f: Strtoul) {
    |t| > 2 && t[0] == COLON && t[1] == LOWER_P && f(Text(t[2..])).err == 0 && 2 + f(Text(t[2..])).used == |t| - 1
  }

  lemma {:induction false} StraySelector(m: seq<Byte>, f: Strtoul)
    requires Sane(f) && Memory(m) && ReadSelector(m, f).PastEnd?
    ensures BareProcess(m, f)
  {
    hide Text;
    assert m[1..][1..] == m[2..];
  }

  /** A text can only end like that with a bare process number as its last part. */
  lemma {:induction false} StrayIsLast(m: seq<Byte>, f: Strtoul)
    requires Sane(f) && Memory(m) && Read(m, f).ending.Stray?
    ensures exists t :: Suffix(t, m) && BareProcess(t, f)
    decreases |m|
  {
    hide ReadEntry, Suffix, Text, BareProcess, ReadSelector;
    EntrySuffix(m, f);
    var r := ReadEntry(m, f);
    if r.Parsed? {
      StrayIsLast(r.rest, f);
      var t :| Suffix(t, r.rest) && BareProcess(t, f);
      SuffixTrans(t, r.rest, m);
    } else {
      var t := m[SelectorAt(m, f)..];
      StraySelector(t, f);
      SuffixSelf(t);
      SuffixDrop(t, m, SelectorAt(m, f));
    }
  }

  lemma {:induction false} SuffixTrans(a: seq<Byte>, b: seq<Byte>, c: seq<Byte>)
    requires Suffix(a, b) && Suffix(b, c)
    ensures Suffix(a, c)
  {}

  // ----- two packets -----

  /** One CPU in process 1. */
  const ONE_CPU := Layout([Cpu(0, 1, 1)], [Process(1, true)], 1)

  lemma {:induction false} OneCpuFinds()
    ensures WellFormed(ONE_CPU) && Find(ONE_CPU, AllThreads(7)).NullProcess?
    ensures Find(ONE_CPU, OneThread(1, 1)).Cpus? && Matches(ONE_CPU, OneThread(1, 1), 0)
  {
    assert FindProcess(ONE_CPU.processes, 1) == Some(ONE_CPU.processes[0]);
    assert FindProcess(ONE_CPU.processes[1..], 7).None?;
    assert FindCpu(ONE_CPU, 1, 0) == 0;
  }

  /** The parser reads "1", "7.-1" and "-1" as strtoul does. */
  predicate ReadsDigits(f: Strtoul) {
    f([49]) == Num(0, 1, 1) && f([55, 46, MINUS, 49]) == Num(0, 7, 1) && f([MINUS, 49]) == Num(0, ULONG_MAX, 2)
  }

  lemma {:induction false} OneDigit(c: Byte, tail: seq<Byte>)
    requires IsXDigit(c) && (tail == [] || tail[0] == 46)
    ensures Strtoul16([c] + tail) == Num(0, FromHex(c), 1)
  {
    var s := [c] + tail;
    assert s[0..] == s && s[1..] == tail && Digits(tail) == 0;
    assert s[0..1] == [c] && [c][..0] == [];
    assert HexValue([c]) == HexValue([]) * 16 + FromHex(c);
  }

  lemma {:induction false} MinusOne()
    ensures Strtoul16([MINUS, 49]) == Num(0, ULONG_MAX, 2)
  {
    var s: seq<Byte> := [MINUS, 49];
    assert s[1..] == [49] && [49][1..] == [] && Digits([49]) == 1;
    assert s[1..2] == [49] && [49][..0] == [];
    assert HexValue([49]) == HexValue([]) * 16 + FromHex(49);
  }

  lemma {:induction false} Strtoul16Reads()
    ensures Sane(Strtoul16) && ReadsDigits(Strtoul16)
  {
    hide Strtoul16, Sane;
    Strtoul16Sane();
    OneDigit(49, []);
    OneDigit(55, [46, MINUS, 49]);
    MinusOne();
    assert [49] + [] == [49] && [55] + [46, MINUS, 49] == [55, 46, MINUS, 49];
  }

  /** An entry that starts with ";c:p" and a number. */
  lemma {:induction false} ProcessEntry(m: seq<Byte>, f: Strtoul)
    requires Sane(f) && Memory(m) && |m| > 4 && m[0] == SEMICOLON && m[1] == LOWER_C && m[2] == COLON && m[3] == LOWER_P
    requires f(Text(m[4..])).err == 0
    ensures ReadEntry(m, f) == WithAction(LOWER_C, ReadSkipped(f(Text(m[4..])).value, m[4 + f(Text(m[4..])).used..], f))
  {
    hide Text, ReadSkipped, ReadThread;
    assert m[2..][1..] == m[3..] && m[3..][1..] == m[4..];
  }

  /** ";c:p7.-1": all threads of process 7, in a machine that has only process 1. */
  const FAULTY: seq<Byte> := [SEMICOLON, LOWER_C, COLON, LOWER_P, 55, 46, MINUS, 49, 0]

  lemma {:induction false} FaultExample(f: Strtoul)
    requires Sane(f) && ReadsDigits(f)
    ensures WellFormed(ONE_CPU) && PlanOf(ONE_CPU, FAULTY, f).Fault?
  {
    var m := FAULTY;
    OneCpuFinds();
    FaultyText();
    hide Text, Find, WellFormed, Sane;
    ProcessEntry(m, f);
    assert m[5..][1..] == m[6..];
    assert ReadSkipped(7, m[5..], f) == Parsed(AllThreads(7), m[6..][2..]);
  }

  lemma {:induction false} FaultyText()
    ensures Text(FAULTY[4..]) == [55, 46, MINUS, 49] && Text(FAULTY[6..]) == [MINUS, 49]
  {
    TextOfClosed([55, 46, MINUS, 49]);
    TextOfClosed([MINUS, 49]);
    assert FAULTY[4..] == [55, 46, MINUS, 49] + [0] && FAULTY[6..] == [MINUS, 49] + [0];
  }

  /** ";c:p1" with its NUL, and then "1", as a longer packet has left it. */
  const STALE: seq<Byte> := [SEMICOLON, LOWER_C, COLON, LOWER_P, 49, 0, 49, 0]

  /** As a text this is malformed; in this memory, whatever else follows, it sets the
      CPU going. */
  lemma {:induction false} StaleExample(m: seq<Byte>, f: Strtoul)
    requires Sane(f) && ReadsDigits(f) && Memory(m) && |m| > 7 && m[..8] == STALE
    ensures WellFormed(ONE_CPU) && Closed(m) == STALE[..6]
    ensures PlanOf(ONE_CPU, STALE[..6], f) == Bare([], LOWER_C, 1)
    ensures PlanOf(ONE_CPU, m, f) == Good([Entry(LOWER_C, OneThread(1, 1))])
  {
    OneCpuFinds();
    StaleText(m);
    hide Text, Find, WellFormed, Sane;
    var s := STALE[..6];
    ProcessEntry(m, f);
    ProcessEntry(s, f);
    assert m[5..][1..] == m[6..] && m[6..][1..] == m[7..];
    assert ReadSkipped(1, m[5..], f) == Parsed(OneThread(1, 1), m[7..]);
    assert PlanOf(ONE_CPU, m[7..], f) == Good([]);
    assert [Entry(LOWER_C, OneThread(1, 1))] + [] == [Entry(LOWER_C, OneThread(1, 1))];
  }

  lemma {:induction false} StaleText(m: seq<Byte>)
    requires Memory(m) && |m| > 7 && m[..8] == STALE
    ensures m[0] == SEMICOLON && m[1] == LOWER_C && m[2] == COLON && m[3] == LOWER_P && m[5] == 0 && m[7] == 0
    ensures Closed(m) == STALE[..6] && Text(m[4..]) == [49] && Text(m[6..]) == [49] && Text(STALE[..6][4..]) == [49]
  {
    assert forall i :: 0 <= i < 8 ==> m[i] == m[..8][i];
    TextIs(m, [SEMICOLON, LOWER_C, COLON, LOWER_P, 49]);
    TextIs(m[4..], [49]);
    TextIs(m[6..], [49]);
    TextIs(STALE[..6][4..], [49]);
  }

  lemma {:induction false} TextIs(m: seq<Byte>, s: seq<Byte>)
    requires |s| < |m| && m[..|s|] == s && m[|s|] == 0 && 0 !in s
    ensures Text(m) == s
    decreases |s|
  {
    if s != [] {
      assert m[0] == s[0] && m[1..][..|s| - 1] == s[1..];
      TextIs(m[1..], s[1..]);
    }
  }

  // ----- handling the packet -----

  /** One action for one CPU, unless it already has one. */
  function Marked(state: int, action: Byte): int { if state == 1 then action else state }

  /** The states after some entries: 1 for a CPU no entry was about. */
  ghost predicate Shows(l: Layout, states: seq<int>, es: seq<Entry>)
    requires WellFormed(l)
  {
    && |states| == l.maxCpus
    && forall i :: 0 <= i < |l.cpus| ==>
         states[l.cpus[i].index] == match First(l, es, i) case None => 1 case Some(action) => action as int
  }

  /** The loops over all CPUs of a process, and over all attached CPUs. */
  method MarkProcess(l: Layout, pid: nat, states: array<int>, action: Byte)
    requires WellFormed(l) && states.Length == l.maxCpus
    modifies states
    ensures forall i :: 0 <= i < |l.cpus| ==>
              states[l.cpus[i].index] ==
              if l.cpus[i].pid == pid then Marked(old(states[l.cpus[i].index]), action) else old(states[l.cpus[i].index])
  {
    var cpu := NextInProcess(l, pid, 0);
    while cpu < |l.cpus|
      invariant cpu <= |l.cpus| && (cpu < |l.cpus| ==> l.cpus[cpu].pid == pid)
      invariant forall i :: 0 <= i < |l.cpus| ==>
                  states[l.cpus[i].index] ==
                  if i < cpu && l.cpus[i].pid == pid then Marked(old(states[l.cpus[i].index]), action) else old(states[l.cpus[i].index])
      decreases |l.cpus| - cpu
    {
      if states[l.cpus[cpu].index] == 1 {
        states[l.cpus[cpu].index] := action;
      }
      cpu := NextInProcess(l, pid, cpu + 1);
    }
  }

  method MarkAttached(l: Layout, states: array<int>, action: Byte)
    requires WellFormed(l) && states.Length == l.maxCpus
    modifies states
    ensures forall i :: 0 <= i < |l.cpus| ==>
              states[l.cpus[i].index] ==
              if Attached(l, i) then Marked(old(states[l.cpus[i].index]), action) else old(states[l.cpus[i].index])
  {
    var cpu := NextAttached(l, 0);
    while cpu < |l.cpus|
      invariant cpu <= |l.cpus| && (cpu < |l.cpus| ==> Attached(l, cpu))
      invariant forall i :: 0 <= i < |l.cpus| ==>
                  states[l.cpus[i].index] ==
                  if i < cpu && Attached(l, i) then Marked(old(states[l.cpus[i].index]), action) else old(states[l.cpus[i].index])
      decreases |l.cpus| - cpu
    {
      if states[l.cpus[cpu].index] == 1 {
        states[l.cpus[cpu].index] := action;
      }
      cpu := NextAttached(l, cpu + 1);
    }
  }

  /** The switch on the kind of thread id. */
  method Apply(l: Layout, e: Entry, states: array<int>) returns (found: Found)
    requires WellFormed(l) && states.Length == l.maxCpus
    modifies states
    ensures found == Find(l, e.sel)
    ensures found.Cpus? ==> forall i :: 0 <= i < |l.cpus| ==>
              states[l.cpus[i].index] ==
              if Matches(l, e.sel, i) then Marked(old(states[l.cpus[i].index]), e.action) else old(states[l.cpus[i].index])
  {
    match e.sel {
      case AllProcesses =>
        MarkAttached(l, states, e.action);
        return Cpus;
      case AllThreads(pid) =>
        var process := GetProcess(l, pid);
        if process.None? {
          return NullProcess;
        }
        if !process.value.attached {
          return Invalid;
        }
        MarkProcess(l, process.value.pid, states, e.action);
        return Cpus;
      case OneThread(pid, tid) =>
        var cpu := GetCpu(l, pid, tid);
        if cpu.None? {
          return Invalid;
        }
        if states[l.cpus[cpu.value].index] == 1 {
          states[l.cpus[cpu.value].index] := e.action;
        }
        return Cpus;
    }
  }

  /** gdb_continue_partial: the CPUs set going, each with its action. */
  method ContinuePartial(l: Layout, states: seq<int>, canRun: bool) returns (going: map<nat, Byte>)
    requires WellFormed(l) && |states| == l.maxCpus
    ensures forall i :: i in going ==> i < |l.cpus|
    ensures forall i :: 0 <= i < |l.cpus| ==>
              var x := states[l.cpus[i].index];
              if canRun && (x == LOWER_C as int || x == LOWER_S as int) then i in going && going[i] as int == x else i !in going
  {
    going := map[];
    if canRun {
      for i := 0 to |l.cpus|
        invariant forall k :: k in going ==> k < i
        invariant forall k :: 0 <= k < i ==>
                    var x := states[l.cpus[k].index];
                    if x == LOWER_C as int || x == LOWER_S as int then k in going && going[k] as int == x else k !in going
      {
        var x := states[l.cpus[i].index];
        if x == LOWER_S as int {
          going := going[i := LOWER_S];
        } else if x == LOWER_C as int {
          going := going[i := LOWER_C];
        }
      }
    }
  }

  datatype Outcome = Resumed | Failed(code: int) | Crashed | LeftBuffer

  /** gdb_handle_vcont, on the memory that its argument points into: every CPU gets the
      action of the leftmost entry about it, and if anything goes wrong no CPU is set
      going. */
  method HandleVCont(l: Layout, p: seq<Byte>, f: Strtoul, canRun: bool) returns (out: Outcome, going: map<nat, Byte>)
    requires WellFormed(l) && Sane(f) && Memory(p)
    ensures match PlanOf(l, p, f)
            case Good(es) =>
              && out.Resumed?
              && (forall i :: i in going ==> i < |l.cpus|)
              && forall i :: 0 <= i < |l.cpus| ==>
                   (if i in going then Some(going[i]) else None) == (if canRun then First(l, es, i) else None)
            case Bad(code) => out == Failed(code) && going == map[]
            case Fault => out == Crashed && going == map[]
            case Bare(_, _, _) => out == LeftBuffer && going == map[]
  {
    hide ReadEntry, Find;
    going := map[];
    var states := new int[l.maxCpus](i => 0);
    for i := 0 to |l.cpus|
      invariant forall k :: 0 <= k < i ==> states[l.cpus[k].index] == 1
    {
      states[l.cpus[i].index] := 1;
    }
    var rest := p;
    ghost var done: seq<Entry> := [];
    assert PlanOf(l, p, f) == After(done, PlanOf(l, rest, f)) by { AfterNone(PlanOf(l, p, f)); }
    while rest[0] != 0
      invariant Memory(rest) && Shows(l, states[..], done) && Actions(done)
      invariant PlanOf(l, p, f) == After(done, PlanOf(l, rest, f))
      decreases |rest|
    {
      match ReadEntry(rest, f) {
        case Malformed(code) =>
          return Failed(code), map[];
        case PastEnd(_) =>
          return LeftBuffer, map[];
        case Parsed(e, rest') =>
          ghost var before := states[..];
          var found := Apply(l, e, states);
          match found {
            case Invalid =>
              return Failed(-EINVAL), map[];
            case NullProcess =>
              return Crashed, map[];
            case Cpus =>
              ShowsMore(l, before, states[..], done, e);
              AfterAfter(done, [e], PlanOf(l, rest', f));
              done := done + [e];
              rest := rest';
          }
      }
    }
    out := Resumed;
    going := ContinuePartial(l, states[..], canRun);
    assert done + [] == done;
    forall i | 0 <= i < |l.cpus| ensures (if i in going then Some(going[i]) else None) == (if canRun then First(l, done, i) else None) {
      FirstIsAction(l, done, i);
    }
  }

  lemma {:induction false} AfterNone(p: Plan)
    ensures After([], p) == p
  {
    if p.Good? || p.Bare? { assert [] + p.entries == p.entries; }
  }

  method FaultRun() returns (out: Outcome, going: map<nat, Byte>)
    ensures out.Crashed?
  {
    hide PlanOf, Text, Strtoul16, Find;
    Strtoul16Reads();
    FaultExample(Strtoul16);
    out, going := HandleVCont(ONE_CPU, FAULTY, Strtoul16, true);
  }

  /** The two packets that do it: "vCont;c:p1.1", and then "vCont;c:p1", which names no
      thread. */
  method StaleRun() returns (out: Outcome, going: map<nat, Byte>)
    ensures out.Resumed? && 0 in going && going[0] == LOWER_C
  {
    hide PlanOf, Text, Strtoul16, Feed, Framed, Escaped, Find, Matches, WellFormed, Sane, Repeated;
    var prefix: seq<Byte> := [118, 67, 111, 110, 116];
    var server := new Server(Handler(_ => Answer([], false), _ => []));
    server.ReceivePayload(prefix + [SEMICOLON, LOWER_C, COLON, LOWER_P, 49, 46, 49]);
    ghost var before := server.lineBuf[..];
    assert before[11] == 49 && before[12] == 0;
    server.ReceivePayload(prefix + [SEMICOLON, LOWER_C, COLON, LOWER_P, 49]);
    var p := server.lineBuf[5..];
    assert p[..8] == STALE;
    Strtoul16Reads();
    StaleExample(p, Strtoul16);
    OneCpuFinds();
    out, going := HandleVCont(ONE_CPU, p, Strtoul16, true);
  }

  predicate Actions(es: seq<Entry>) { forall k :: 0 <= k < |es| ==> es[k].action == LOWER_C || es[k].action == LOWER_S }

  lemma {:induction false} FirstIsAction(l: Layout, es: seq<Entry>, i: nat)
    requires WellFormed(l) && i < |l.cpus| && Actions(es)
    ensures First(l, es, i).Some? ==> First(l, es, i).value == LOWER_C || First(l, es, i).value == LOWER_S
    decreases |es|
  {
    if es != [] { FirstIsAction(l, es[1..], i); }
  }

  lemma {:induction false} ShowsMore(l: Layout, before: seq<int>, states: seq<int>, es: seq<Entry>, e: Entry)
    requires WellFormed(l) && Shows(l, before, es) && |states| == l.maxCpus && Actions(es)
    requires forall i :: 0 <= i < |l.cpus| ==>
               states[l.cpus[i].index] ==
               if Matches(l, e.sel, i) then Marked(before[l.cpus[i].index], e.action) else before[l.cpus[i].index]
    ensures Shows(l, states, es + [e])
  {
    forall i | 0 <= i < |l.cpus|
      ensures states[l.cpus[i].index] == match First(l, es + [e], i) case None => 1 case Some(action) => action as int
    {
      FirstSnoc(l, es, e, i);
      FirstIsAction(l, es, i);
    }
  }
}
