/**
 Jobs and job transactions (job.c, blockjob.c): states, the transition table and
 the invariant that every operation keeps.
 */
module JobState {
  import opened Basics

  type JobId = nat
  type TxnId = nat

  datatype Status = Undefined | Created | Running | Paused | Ready | Standby | Waiting | Pending | Aborting | Concluded | Null

  /** JobSTT */
  predicate Allowed(s0: Status, s1: Status) {
    match s0
    case Undefined => s1.Created?
    case Created => s1.Running? || s1.Aborting? || s1.Null?
    case Running => s1.Paused? || s1.Ready? || s1.Waiting? || s1.Aborting?
    case Paused => s1.Running?
    case Ready => s1.Standby? || s1.Waiting? || s1.Aborting?
    case Standby => s1.Ready?
    case Waiting => s1.Pending? || s1.Aborting?
    case Pending => s1.Aborting? || s1.Concluded?
    case Aborting => s1.Aborting? || s1.Concluded?
    case Concluded => s1.Null?
    case Null => false
  }

  datatype Verb = VCancel | VPause | VResume | VSetSpeed | VComplete | VFinalize | VDismiss

  /** JobVerbTable */
  predicate VerbAllowed(v: Verb, s: Status) {
    match v
    case VCancel => s.Created? || s.Running? || s.Paused? || s.Ready? || s.Standby? || s.Waiting? || s.Pending?
    case VPause => s.Created? || s.Running? || s.Paused? || s.Ready? || s.Standby?
    case VResume => s.Created? || s.Running? || s.Paused? || s.Ready? || s.Standby?
    case VSetSpeed => s.Created? || s.Running? || s.Paused? || s.Ready? || s.Standby?
    case VComplete => s.Ready? || s.Standby?
    case VFinalize => s.Pending?
    case VDismiss => s.Concluded?
  }

  /** job_is_ready */
  predicate IsReady(s: Status) { s.Ready? || s.Standby? }

  /** job_is_completed */
  predicate IsCompleted(s: Status) { s.Waiting? || s.Pending? || s.Aborting? || s.Concluded? || s.Null? }

  /** A run of status changes that are all in the table. */
  predicate AllowedRun(path: seq<Status>) { forall k :: 0 < k < |path| ==> Allowed(path[k - 1], path[k]) }

  /** Whatever the table allows, a completed job stays completed. */
  lemma {:induction false} CompletedStays(path: seq<Status>, k: nat)
    requires AllowedRun(path) && k < |path| && IsCompleted(path[0])
    ensures IsCompleted(path[k])
    decreases k
  {
    if k > 0 {
      CompletedStays(path, k - 1);
      assert Allowed(path[k - 1], path[k]);
    }
  }

  /** The job's coroutine: not created, inside the driver's run, suspended in a
      pause point (to return to status `saved`), returned with job_exit scheduled,
      or gone. */
  datatype Phase = NoCo | Inside | AtPause(saved: Status) | Returned | Gone

  datatype Job = Job(status: Status, ret: int, phase: Phase, paused: bool, pauseCount: int, userPaused: bool,
                     cancelled: bool, forceCancel: bool, autoFinalize: bool, autoDismiss: bool,
                     txn: Option<TxnId>, refcnt: int, drained: nat, ioError: bool)

  /** A JobTxn; `finalizing` marks that its jobs are being committed. */
  datatype Txn = Txn(aborting: bool, finalizing: bool, members: set<JobId>)

  /** Why a transaction was aborted by a job that is itself good: the job that
      finalization was asked of, and the other one whose .prepare failed. */
  datatype Blame = Blame(asked: JobId, failed: JobId)

  /** All jobs and transactions (`order` is each transaction's list of jobs), what each
      driver's .prepare answers, and history: the transaction each job was created in,
      every status each job has had, the commit and abort callbacks made, the
      transactions aborted by a good job, and the references that running functions
      hold. */
  datatype Sys = Sys(jobs: map<JobId, Job>, txns: map<TxnId, Txn>, order: map<TxnId, seq<JobId>>, rcs: JobId -> int,
                     txnOf: map<JobId, TxnId>, history: map<JobId, seq<Status>>,
                     commits: multiset<JobId>, aborts: multiset<JobId>, mixed: map<TxnId, Blame>, holds: multiset<JobId>)

  const ECANCELED := 125

  // ----- the invariant -----

  predicate PhaseOk(b: Job) {
    match b.phase
    case NoCo => b.status.Created? || b.status.Aborting? || b.status.Concluded? || b.status.Null?
    case Inside => b.status.Running? || b.status.Ready?
    case AtPause(saved) => (saved.Running? && b.status.Paused?) || (saved.Ready? && b.status.Standby?)
    case Returned => b.status.Running? || b.status.Ready?
    case Gone => IsCompleted(b.status)
  }

  /** The pause ledger: one pause until the job is started, one for the user, one
      for each open drained section; an I/O error is only kept while the user sees
      the job paused. */
  predicate LedgerOk(b: Job) {
    && b.pauseCount == Bit(b.phase.NoCo?) + Bit(b.userPaused) + b.drained
    && (b.ioError ==> b.userPaused)
  }

  predicate JobOk(b: Job) {
    && PhaseOk(b) && LedgerOk(b)
    && (b.forceCancel ==> b.cancelled)
    && (!b.status.Null? ==> b.paused == (b.phase.NoCo? || b.phase.AtPause?))
    && (b.txn.None? <==> b.status.Concluded? || b.status.Null?)
    && (b.status.Aborting? ==> b.ret != 0)
    && (b.status.Waiting? || b.status.Pending? ==> b.ret == 0)
    && (b.status.Created? ==> b.ret == 0)
  }

  /** A job that will be aborted when it is finalized. */
  predicate Doomed(b: Job) { b.forceCancel || b.status.Aborting? }

  /** What a transaction expects of a member: nothing yet, to be pending while the
      others are committed, to come to its end in an abort; and in the abort that a good
      job started, to be that job, or one of the others. */
  datatype Role = Free | Closing | Ending | Spared | Fallen

  function RoleOf(s: Sys, t: TxnId, m: JobId): Role
    requires t in s.txns
  {
    if !s.txns[t].aborting then if s.txns[t].finalizing then Closing else Free
    else if t !in s.mixed then Ending
    else if s.mixed[t].asked == m then Spared
    else Fallen
  }

  predicate MemberOk(r: Role, b: Job) {
    match r
    case Free => !b.status.Aborting? && (IsCompleted(b.status) ==> !b.forceCancel)
    case Closing => b.status.Pending? && !b.forceCancel
    case Ending => Doomed(b) && (b.phase.NoCo? ==> IsCompleted(b.status))
    case Spared => b.status.Pending? && !Doomed(b)
    case Fallen => IsCompleted(b.status) && Doomed(b)
  }

  /** The jobs of a transaction are started together and turn PENDING together. */
  predicate Alike(a: Job, b: Job) {
    (a.status.Pending? <==> b.status.Pending?) && (a.phase.NoCo? <==> b.phase.NoCo?)
  }

  ghost predicate JobsOk(s: Sys) {
    && (forall j :: j in s.jobs ==> JobOk(s.jobs[j]) && j in s.txnOf && s.jobs[j].refcnt > 0
                                    && s.jobs[j].refcnt == s.holds[j] + Bit(!s.jobs[j].status.Null?))
    && (forall j :: j in s.holds ==> j in s.jobs)
  }

  ghost predicate LinksOk(s: Sys) {
    && (forall j :: j in s.jobs && s.jobs[j].txn.Some? ==>
          s.jobs[j].txn.value in s.txns && j in s.txns[s.jobs[j].txn.value].members
          && j in s.txnOf && s.txnOf[j] == s.jobs[j].txn.value)
    && (forall t, m :: t in s.txns && m in s.txns[t].members ==> m in s.jobs && s.jobs[m].txn == Some(t))
    && (forall j :: j in s.txnOf ==> s.txnOf[j] in s.txns)
    && s.mixed.Keys <= s.txns.Keys
  }

  /** Commit or abort, at most once over the whole history, and not before the job
      leaves its transaction. */
  ghost predicate CountsOk(s: Sys) {
    && (forall j :: s.commits[j] + s.aborts[j] <= 1)
    && (forall j :: s.commits[j] + s.aborts[j] > 0 ==> j in s.txnOf)
    && (forall j :: j in s.jobs && s.jobs[j].txn.Some? ==> s.commits[j] + s.aborts[j] == 0)
    && (forall j :: j in s.jobs && s.jobs[j].status.Concluded? ==> s.commits[j] + s.aborts[j] == 1)
  }

  ghost predicate EachFits(s: Sys, t: TxnId, except: set<JobId>)
    requires t in s.txns && LinksOk(s)
  {
    forall m :: m in s.txns[t].members && m !in except ==> MemberOk(RoleOf(s, t, m), s.jobs[m])
  }

  ghost predicate AllAlike(s: Sys, t: TxnId, except: set<JobId>)
    requires t in s.txns && LinksOk(s)
  {
    !s.txns[t].aborting ==>
      forall m, m' :: m in s.txns[t].members && m' in s.txns[t].members && m !in except && m' !in except ==>
        Alike(s.jobs[m], s.jobs[m'])
  }

  ghost predicate MembersFit(s: Sys, t: TxnId, except: set<JobId>)
    requires t in s.txns && LinksOk(s)
  {
    EachFits(s, t, except) && AllAlike(s, t, except)
  }

  /** How job k, created in t, stands: it is still a member, or it has been committed
      or aborted, on the side that its transaction has taken. */
  ghost predicate SideOk(s: Sys, t: TxnId, k: JobId)
    requires t in s.txns
  {
    && (k in s.txns[t].members || s.commits[k] + s.aborts[k] == 1)
    && (s.commits[k] > 0 ==>
          if s.txns[t].aborting then t in s.mixed && s.mixed[t].asked == k else s.txns[t].members == {} || s.txns[t].finalizing)
    && (s.aborts[k] > 0 ==> s.txns[t].aborting && (t in s.mixed ==> s.mixed[t].asked != k))
  }

  /** Both jobs are t's, and the .prepare of the other one did fail. */
  ghost predicate BlameOk(s: Sys, t: TxnId, b: Blame) {
    && b.asked in s.txnOf && s.txnOf[b.asked] == t && b.failed in s.txnOf && s.txnOf[b.failed] == t
    && b.asked != b.failed && s.rcs(b.failed) != 0
  }

  ghost predicate HistoryOk(s: Sys, t: TxnId)
    requires t in s.txns
  {
    && (forall k :: k in s.txnOf && s.txnOf[k] == t ==> SideOk(s, t, k))
    && (t in s.mixed ==> s.txns[t].aborting && BlameOk(s, t, s.mixed[t]))
    && (s.txns[t].finalizing ==> !s.txns[t].aborting)
  }

  /** A list of a transaction's jobs: each of them once. */
  ghost predicate ListOk(list: seq<JobId>, members: set<JobId>) {
    && (forall a, b :: 0 <= a < b < |list| ==> list[a] != list[b])
    && (forall m :: m in list <==> m in members)
  }

  ghost predicate OrderOk(s: Sys) {
    s.order.Keys == s.txns.Keys && forall t :: t in s.txns ==> ListOk(s.order[t], s.txns[t].members)
  }

  /** All statuses of a job so far: from UNDEFINED, by changes in the table. */
  predicate PathOk(path: seq<Status>) { path != [] && path[0].Undefined? && AllowedRun(path) }

  /** Each job's history is such a path, and ends with its status; with NULL for a job
      that has been freed. */
  ghost predicate PathsOk(s: Sys) {
    && s.history.Keys == s.txnOf.Keys
    && (forall j :: j in s.history ==> PathOk(s.history[j]))
    && (forall j :: j in s.history ==>
          s.history[j][|s.history[j]| - 1] == if j in s.jobs then s.jobs[j].status else Null)
  }

  /** A transaction's members, but for some exceptions, fit its state, and its past
      members have all been committed or all been aborted. */
  ghost predicate TxnOk(s: Sys, t: TxnId, except: set<JobId>)
    requires t in s.txns && LinksOk(s)
  {
    MembersFit(s, t, except) && HistoryOk(s, t)
  }

  ghost predicate SysOk(s: Sys, except: set<JobId>) {
    && JobsOk(s) && LinksOk(s) && CountsOk(s) && OrderOk(s) && PathsOk(s)
    && forall t :: t in s.txns ==> TxnOk(s, t, except)
  }

  /** Whenever the event loop runs: no transaction is being finalized. */
  ghost predicate Calm(s: Sys) {
    SysOk(s, {}) && forall t :: t in s.txns ==> !s.txns[t].finalizing
  }

  /** Between top-level operations: no abort is under way and nothing is held. */
  ghost predicate AtRest(s: Sys) {
    && Calm(s)
    && (forall t :: t in s.txns && s.txns[t].aborting ==> s.txns[t].members == {})
    && s.holds == multiset{}
  }

  lemma {:induction false} Parts(s: Sys, except: set<JobId>, t: TxnId)
    requires SysOk(s, except) && t in s.txns
    ensures JobsOk(s) && LinksOk(s) && CountsOk(s) && TxnOk(s, t, except)
  {
    hide JobsOk, LinksOk, CountsOk, OrderOk, PathsOk, TxnOk;
  }

  lemma {:induction false} Books(s: Sys, except: set<JobId>)
    requires SysOk(s, except)
    ensures JobsOk(s) && LinksOk(s) && CountsOk(s) && OrderOk(s) && PathsOk(s)
  {
    hide JobsOk, LinksOk, CountsOk, OrderOk, PathsOk, TxnOk;
  }

  lemma {:induction false} SysOkBy(s: Sys, except: set<JobId>)
    requires JobsOk(s) && LinksOk(s) && CountsOk(s) && OrderOk(s) && PathsOk(s)
    requires forall t :: t in s.txns ==> TxnOk(s, t, except)
    ensures SysOk(s, except)
  {
    hide JobsOk, LinksOk, CountsOk, OrderOk, PathsOk, TxnOk;
  }

  // ----- main consequences -----

  ghost predicate AllCommitted(s: Sys, t: TxnId) {
    forall k :: k in s.txnOf && s.txnOf[k] == t ==> s.commits[k] == 1 && s.aborts[k] == 0
  }

  ghost predicate AllAborted(s: Sys, t: TxnId) {
    forall k :: k in s.txnOf && s.txnOf[k] == t ==> s.commits[k] == 0 && s.aborts[k] == 1
  }

  /** One job committed and all others aborted, the .prepare of one of these failed. */
  ghost predicate Split(s: Sys, t: TxnId) {
    && t in s.mixed && BlameOk(s, t, s.mixed[t])
    && forall k :: k in s.txnOf && s.txnOf[k] == t ==>
         s.commits[k] == Bit(k == s.mixed[t].asked) && s.aborts[k] == Bit(k != s.mixed[t].asked)
  }

  /** All or nothing: once no job is left in a transaction, all that it ever had are
      committed, or all aborted; unless a good job has aborted it, and then exactly that
      one is committed. */
  lemma {:induction false} AllOrNothing(s: Sys, t: TxnId)
    requires SysOk(s, {}) && t in s.txns && s.txns[t].members == {}
    ensures if t in s.mixed then Split(s, t) else if s.txns[t].aborting then AllAborted(s, t) else AllCommitted(s, t)
  {
    hide SysOk, LinksOk, JobsOk, MembersFit;
    Parts(s, {}, t);
  }

  /** While jobs are left and no abort or commit is under way, none has left. */
  lemma {:induction false} NothingYet(s: Sys, t: TxnId, k: JobId)
    requires SysOk(s, {}) && t in s.txns && s.txns[t].members != {} && !s.txns[t].aborting && !s.txns[t].finalizing
    requires k in s.txnOf && s.txnOf[k] == t
    ensures k in s.txns[t].members && s.commits[k] == 0 && s.aborts[k] == 0
  {
    hide SysOk, LinksOk, JobsOk, MembersFit, BlameOk;
    Parts(s, {}, t);
    assert SideOk(s, t, k);
  }

  /** A completed job of a transaction that is not aborting has not been
      force-cancelled, and its result is good. */
  lemma {:induction false} CompletedIsGood(s: Sys, j: JobId)
    requires SysOk(s, {}) && j in s.jobs && s.jobs[j].txn.Some? && s.jobs[j].txn.value in s.txns
    requires !s.txns[s.jobs[j].txn.value].aborting && IsCompleted(s.jobs[j].status)
    ensures !s.jobs[j].forceCancel && s.jobs[j].ret == 0
  {
    assert TxnOk(s, s.jobs[j].txn.value, {});
  }

  // ----- changing one job -----

  /** A status change is entered in the job's history. */
  function Entered(h: map<JobId, seq<Status>>, j: JobId, s1: Status): map<JobId, seq<Status>> {
    h[j := (if j in h then h[j] else []) + [s1]]
  }

  function Put(s: Sys, j: JobId, b: Job): Sys {
    s.(jobs := s.jobs[j := b],
       history := if j in s.jobs && s.jobs[j].status == b.status then s.history else Entered(s.history, j, b.status))
  }

  lemma {:induction false} PutPut(s: Sys, j: JobId, b: Job, b': Job)
    requires b.status == b'.status
    ensures Put(Put(s, j, b), j, b') == Put(s, j, b')
  {
    assert s.jobs[j := b][j := b'] == s.jobs[j := b'];
  }

  lemma {:induction false} PathNext(path: seq<Status>, s1: Status)
    requires PathOk(path) && Allowed(path[|path| - 1], s1)
    ensures PathOk(path + [s1])
  {
    var p := path + [s1];
    forall k | 0 < k < |p| ensures Allowed(p[k - 1], p[k]) {
      if k < |path| { assert p[k] == path[k] && p[k - 1] == path[k - 1]; }
    }
  }

  lemma {:induction false} PutPaths(s: Sys, j: JobId, b: Job)
    requires PathsOk(s) && j in s.jobs && j in s.txnOf && (b.status == s.jobs[j].status || Allowed(s.jobs[j].status, b.status))
    ensures PathsOk(Put(s, j, b))
  {
    if b.status != s.jobs[j].status { PathNext(s.history[j], b.status); }
    hide PathOk, Allowed;
  }

  lemma {:induction false} PutJobs(s: Sys, j: JobId, b: Job)
    requires JobsOk(s) && j in s.jobs && JobOk(b)
    requires b.refcnt == s.jobs[j].refcnt && b.status.Null? == s.jobs[j].status.Null?
    ensures JobsOk(Put(s, j, b))
  {
    hide JobOk;
  }

  lemma {:induction false} PutLinks(s: Sys, j: JobId, b: Job)
    requires LinksOk(s) && j in s.jobs && b.txn == s.jobs[j].txn
    ensures LinksOk(Put(s, j, b))
  {}

  lemma {:induction false} PutCounts(s: Sys, j: JobId, b: Job)
    requires CountsOk(s) && j in s.jobs && b.txn == s.jobs[j].txn && b.status.Concluded? == s.jobs[j].status.Concluded?
    ensures CountsOk(Put(s, j, b))
  {}

  /** Record b is one that job j's transaction allows. */
  ghost predicate Fits(s: Sys, j: JobId, b: Job, except: set<JobId>)
    requires LinksOk(s) && b.txn.Some? && b.txn.value in s.txns
  {
    var t := b.txn.value;
    && MemberOk(RoleOf(s, t, j), b)
    && (!s.txns[t].aborting ==> forall m :: m in s.txns[t].members && m !in except && m != j ==>
                                   Alike(s.jobs[m], b))
  }

  lemma {:induction false} PutEach(s: Sys, j: JobId, b: Job, except: set<JobId>, t: TxnId)
    requires LinksOk(s) && LinksOk(Put(s, j, b)) && j in s.jobs && b.txn == s.jobs[j].txn && t in s.txns && EachFits(s, t, except)
    requires b.txn == Some(t) && j !in except ==> Fits(s, j, b, except)
    ensures EachFits(Put(s, j, b), t, except)
  {
    hide MemberOk, Entered, Alike;
    assert forall m :: RoleOf(Put(s, j, b), t, m) == RoleOf(s, t, m);
  }

  lemma {:induction false} PutAlike(s: Sys, j: JobId, b: Job, except: set<JobId>, t: TxnId)
    requires LinksOk(s) && LinksOk(Put(s, j, b)) && j in s.jobs && b.txn == s.jobs[j].txn && t in s.txns && AllAlike(s, t, except)
    requires b.txn == Some(t) && j !in except ==> Fits(s, j, b, except)
    ensures AllAlike(Put(s, j, b), t, except)
  {
    hide MemberOk, Entered, RoleOf;
    if !s.txns[t].aborting {
      forall m, m' | m in s.txns[t].members && m' in s.txns[t].members && m !in except && m' !in except
        ensures Alike(Put(s, j, b).jobs[m], Put(s, j, b).jobs[m'])
      {
        assert s.jobs[m].txn == Some(t) && s.jobs[m'].txn == Some(t);
        assert Alike(s.jobs[m], s.jobs[m']);
      }
    }
  }

  lemma {:induction false} PutHistory(s: Sys, j: JobId, b: Job, t: TxnId)
    requires t in s.txns && HistoryOk(s, t)
    ensures HistoryOk(Put(s, j, b), t)
  {
    hide Entered;
    assert forall k :: SideOk(Put(s, j, b), t, k) == SideOk(s, t, k);
  }

  lemma {:induction false} PutTxn(s: Sys, j: JobId, b: Job, except: set<JobId>, t: TxnId)
    requires LinksOk(s) && LinksOk(Put(s, j, b)) && j in s.jobs && b.txn == s.jobs[j].txn && t in s.txns && TxnOk(s, t, except)
    requires b.txn == Some(t) && j !in except ==> Fits(s, j, b, except)
    ensures TxnOk(Put(s, j, b), t, except)
  {
    hide EachFits, AllAlike, HistoryOk, Fits, LinksOk;
    PutEach(s, j, b, except, t);
    PutAlike(s, j, b, except, t);
    PutHistory(s, j, b, t);
  }

  /** Changing a job's record, but not its transaction, references or conclusion,
      keeps the invariant if the record is sound and fits the transaction. */
  lemma {:induction false} PutOk(s: Sys, j: JobId, b: Job, except: set<JobId>)
    requires SysOk(s, except) && j in s.jobs && JobOk(b)
    requires b.txn == s.jobs[j].txn && b.refcnt == s.jobs[j].refcnt
    requires b.status == s.jobs[j].status || Allowed(s.jobs[j].status, b.status)
    requires b.status.Null? == s.jobs[j].status.Null? && b.status.Concluded? == s.jobs[j].status.Concluded?
    requires b.txn.Some? && j !in except ==> Fits(s, j, b, except)
    ensures SysOk(Put(s, j, b), except)
  {
    hide SysOk, JobOk, LinksOk, CountsOk, TxnOk, Fits, PathsOk, OrderOk, Allowed;
    Books(s, except);
    assert j in s.txnOf && JobOk(s.jobs[j]);
    hide JobsOk;
    PutPaths(s, j, b);
    PutJobs(s, j, b);
    PutLinks(s, j, b);
    PutCounts(s, j, b);
    PutOrder(s, j, b);
    forall t | t in s.txns ensures TxnOk(Put(s, j, b), t, except) {
      Parts(s, except, t);
      PutTxn(s, j, b, except, t);
    }
    SysOkBy(Put(s, j, b), except);
  }

  lemma {:induction false} PutOrder(s: Sys, j: JobId, b: Job)
    requires OrderOk(s)
    ensures OrderOk(Put(s, j, b))
  {
    hide ListOk, Entered;
  }

  /** A record with the same status, phase and force_cancel fits as the old one did. */
  lemma {:induction false} SameFits(s: Sys, j: JobId, b: Job, except: set<JobId>)
    requires LinksOk(s) && j in s.jobs && s.jobs[j].txn.Some? && j !in except && TxnOk(s, s.jobs[j].txn.value, except)
    requires b.status == s.jobs[j].status && b.phase == s.jobs[j].phase && b.forceCancel == s.jobs[j].forceCancel && b.txn == s.jobs[j].txn
    ensures Fits(s, j, b, except)
  {
    hide HistoryOk;
    var t := b.txn.value;
    assert MemberOk(RoleOf(s, t, j), s.jobs[j]);
    hide MemberOk;
  }
}
