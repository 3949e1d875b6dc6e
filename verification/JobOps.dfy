/**
 The operations of job.c on single jobs and on transactions, as functions on the
 state, and how they keep the invariant.  `answer` is what the driver's .cancel
 returned.
 */
module JobOps {
  import opened Basics
  import opened JobState

  // ----- one job's record -----

  predicate Deferred(b: Job) { b.phase.Returned? || b.phase.Gone? }

  function Transitioned(b: Job, s1: Status): Job {
    b.(status := s1, phase := if IsCompleted(s1) && b.phase.Returned? then Gone else b.phase)
  }

  lemma {:induction false} TransitionedStatus(b: Job, s1: Status)
    ensures Transitioned(b, s1).status == s1
  {}

  /** job_update_rc, as a change of the record. */
  function RcUpdated(b: Job): Job {
    var ret := if b.ret == 0 && b.forceCancel then -ECANCELED else b.ret;
    if ret != 0 then Transitioned(b.(ret := ret), Aborting) else b
  }

  /** job_cancel_async, once the driver has answered. */
  function Cancelled(b: Job, answer: bool): Job {
    var b1 := if b.userPaused then b.(ioError := false, userPaused := false, pauseCount := b.pauseCount - 1) else b;
    if answer || !Deferred(b) then b1.(cancelled := true, forceCancel := b.forceCancel || answer) else b1
  }

  lemma {:induction false} CancelledOk(b: Job, answer: bool)
    requires JobOk(b)
    ensures JobOk(Cancelled(b, answer)) && (answer ==> Doomed(Cancelled(b, answer)))
    ensures b.userPaused ==> b.pauseCount > 0
  {}

  lemma {:induction false} CancelledSame(b: Job, answer: bool)
    ensures var b' := Cancelled(b, answer);
      b'.status == b.status && b'.phase == b.phase && b'.txn == b.txn && b'.refcnt == b.refcnt && b'.autoFinalize == b.autoFinalize
  {}

  lemma {:induction false} RcUpdatedOk(b: Job)
    requires JobOk(b) && b.txn.Some? && (b.ret != 0 || b.forceCancel) && !b.phase.Inside? && !b.phase.AtPause?
    ensures Allowed(b.status, Aborting) && JobOk(RcUpdated(b)) && RcUpdated(b).status == Aborting
  {}

  // ----- finalizing one job -----

  /** A transaction's list of jobs. */
  function Listed(s: Sys, t: TxnId): seq<JobId> { if t in s.order then s.order[t] else [] }

  /** QLIST_REMOVE */
  function Without(list: seq<JobId>, j: JobId): seq<JobId> {
    if list == [] then [] else if list[0] == j then list[1..] else [list[0]] + Without(list[1..], j)
  }

  lemma {:induction false} WithoutHas(list: seq<JobId>, j: JobId, m: JobId)
    ensures m in Without(list, j) ==> m in list
    ensures m in list && m != j ==> m in Without(list, j)
    decreases |list|
  {
    if list != [] {
      assert list == [list[0]] + list[1..];
      if list[0] != j { WithoutHas(list[1..], j, m); }
    }
  }

  lemma {:induction false} TailOk(list: seq<JobId>, members: set<JobId>)
    requires ListOk(list, members) && list != []
    ensures ListOk(list[1..], members - {list[0]})
  {
    assert list == [list[0]] + list[1..];
  }

  lemma {:induction false} WithoutOk(list: seq<JobId>, members: set<JobId>, j: JobId)
    requires ListOk(list, members)
    ensures ListOk(Without(list, j), members - {j})
    decreases |list|
  {
    if list == [] {
    } else if list[0] == j {
      TailOk(list, members);
    } else {
      TailOk(list, members);
      WithoutOk(list[1..], members - {list[0]}, j);
      ConsOk(Without(list[1..], j), members - {list[0]} - {j}, list[0]);
      assert list[0] in list;
      assert members - {list[0]} - {j} + {list[0]} == members - {j};
    }
  }

  lemma {:induction false} ConsOk(list: seq<JobId>, members: set<JobId>, j: JobId)
    requires ListOk(list, members) && j !in members
    ensures ListOk([j] + list, members + {j})
  {
    var all := [j] + list;
    assert forall k :: 0 < k < |all| ==> all[k] == list[k - 1] && all[k] in list;
    forall a, b | 0 <= a < b < |all| ensures all[a] != all[b] {
      if a > 0 { assert all[a] == list[a - 1] && all[b] == list[b - 1]; }
    }
  }

  /** job_commit or job_abort, then job_txn_del_job and the move to CONCLUDED. */
  function ConcludedSys(s: Sys, j: JobId, t: TxnId): Sys
    requires j in s.jobs && t in s.txns
  {
    var b := s.jobs[j];
    s.(jobs := s.jobs[j := Transitioned(b, Concluded).(txn := None)],
       txns := s.txns[t := s.txns[t].(members := s.txns[t].members - {j})],
       order := s.order[t := Without(Listed(s, t), j)],
       history := Entered(s.history, j, Concluded),
       commits := if b.ret == 0 then s.commits + multiset{j} else s.commits,
       aborts := if b.ret != 0 then s.aborts + multiset{j} else s.aborts)
  }

  function Nulled(b: Job): Job { Transitioned(b, Null).(paused := false, refcnt := b.refcnt - 1) }

  /** job_do_dismiss of a job outside transactions: NULL, and one reference less. */
  function Dismissed(s: Sys, j: JobId): Sys
    requires j in s.jobs
  {
    var b := s.jobs[j];
    var h := Entered(s.history, j, Null);
    if b.refcnt == 1 then s.(jobs := s.jobs - {j}, history := h)
    else s.(jobs := s.jobs[j := Nulled(b)], history := h)
  }

  /** When a job may be committed or aborted. */
  ghost predicate Concludable(s: Sys, j: JobId, t: TxnId) {
    && j in s.jobs && s.jobs[j].txn == Some(t) && t in s.txns
    && (s.jobs[j].status.Pending? || s.jobs[j].status.Aborting?)
    && if s.txns[t].aborting then s.jobs[j].status.Pending? <==> RoleOf(s, t, j).Spared?
       else s.txns[t].finalizing && s.jobs[j].status.Pending?
  }

  lemma {:induction false} ConcludedRecord(b: Job)
    requires JobOk(b) && (b.status.Pending? || b.status.Aborting?)
    ensures var b' := Transitioned(b, Concluded).(txn := None); JobOk(b') && b'.status.Concluded? && b'.refcnt == b.refcnt
  {}

  lemma {:induction false} ConcludedJobs(s: Sys, j: JobId, t: TxnId)
    requires JobsOk(s) && Concludable(s, j, t)
    ensures JobsOk(ConcludedSys(s, j, t))
  {
    hide Entered, Without, Listed, RoleOf, JobOk, Transitioned;
    ConcludedRecord(s.jobs[j]);
  }

  lemma {:induction false} ConcludedLinks(s: Sys, j: JobId, t: TxnId)
    requires LinksOk(s) && Concludable(s, j, t)
    ensures LinksOk(ConcludedSys(s, j, t))
  {
    hide Entered, Without, Listed;
  }

  lemma {:induction false} ConcludedCounts(s: Sys, j: JobId, t: TxnId)
    requires CountsOk(s) && LinksOk(s) && Concludable(s, j, t)
    ensures CountsOk(ConcludedSys(s, j, t))
  {
    hide Entered, Without, Listed;
  }

  lemma {:induction false} ConcludedOrder(s: Sys, j: JobId, t: TxnId)
    requires OrderOk(s) && Concludable(s, j, t)
    ensures OrderOk(ConcludedSys(s, j, t))
  {
    hide ListOk, Entered;
    WithoutOk(s.order[t], s.txns[t].members, j);
  }

  lemma {:induction false} EnteredPaths(s: Sys, s': Sys, j: JobId, s1: Status)
    requires PathsOk(s) && j in s.jobs && j in s.txnOf && Allowed(s.jobs[j].status, s1)
    requires s'.txnOf == s.txnOf && s'.history == Entered(s.history, j, s1)
    requires if j in s'.jobs then s'.jobs[j].status == s1 else s1.Null?
    requires forall k :: k != j ==> (k in s'.jobs <==> k in s.jobs) && (k in s.jobs ==> s'.jobs[k].status == s.jobs[k].status)
    ensures PathsOk(s')
  {
    PathNext(s.history[j], s1);
    hide PathOk, Allowed;
  }

  lemma {:induction false} ConcludedPaths(s: Sys, j: JobId, t: TxnId)
    requires PathsOk(s) && j in s.txnOf && Concludable(s, j, t)
    ensures PathsOk(ConcludedSys(s, j, t))
  {
    hide PathsOk, Entered, RoleOf;
    EnteredPaths(s, ConcludedSys(s, j, t), j, Concluded);
  }

  lemma {:induction false} ConcludedEach(s: Sys, j: JobId, t: TxnId, except: set<JobId>, u: TxnId)
    requires Concludable(s, j, t)
    requires LinksOk(s) && LinksOk(ConcludedSys(s, j, t)) && u in s.txns && EachFits(s, u, except)
    ensures EachFits(ConcludedSys(s, j, t), u, except)
  {
    hide MemberOk, Entered, Without, Listed;
    assert forall m :: RoleOf(ConcludedSys(s, j, t), u, m) == RoleOf(s, u, m);
  }

  lemma {:induction false} ConcludedAlike(s: Sys, j: JobId, t: TxnId, except: set<JobId>, u: TxnId)
    requires Concludable(s, j, t)
    requires LinksOk(s) && LinksOk(ConcludedSys(s, j, t)) && u in s.txns && AllAlike(s, u, except)
    ensures AllAlike(ConcludedSys(s, j, t), u, except)
  {
    hide Alike, Entered, Without, Listed, RoleOf;
  }

  lemma {:induction false} ConcludedSide(s: Sys, j: JobId, t: TxnId, u: TxnId, k: JobId)
    requires u in s.txns && SideOk(s, u, k) && k in s.txnOf && s.txnOf[k] == u && Concludable(s, j, t)
    requires j in s.txnOf && s.txnOf[j] == t && s.commits[j] + s.aborts[j] == 0
    requires s.jobs[j].status.Pending? <==> s.jobs[j].ret == 0
    ensures SideOk(ConcludedSys(s, j, t), u, k)
  {
    hide Entered, Without, Listed, Transitioned;
  }

  lemma {:induction false} ConcludedHistory(s: Sys, j: JobId, t: TxnId, u: TxnId)
    requires LinksOk(s) && CountsOk(s) && u in s.txns && HistoryOk(s, u) && JobsOk(s)
    requires Concludable(s, j, t)
    ensures HistoryOk(ConcludedSys(s, j, t), u)
  {
    assert JobOk(s.jobs[j]);
    hide JobOk, JobsOk, Entered, Without, Listed;
    assert s.jobs[j].status.Pending? <==> s.jobs[j].ret == 0 by { ConcludableRet(s.jobs[j]); }
    forall k | k in s.txnOf && s.txnOf[k] == u ensures SideOk(ConcludedSys(s, j, t), u, k) {
      ConcludedSide(s, j, t, u, k);
    }
    hide SideOk;
  }

  lemma {:induction false} ConcludableRet(b: Job)
    requires JobOk(b) && (b.status.Pending? || b.status.Aborting?)
    ensures b.status.Pending? <==> b.ret == 0
  {}

  lemma {:induction false} ConcludedOk(s: Sys, j: JobId, t: TxnId, except: set<JobId>)
    requires SysOk(s, except) && Concludable(s, j, t)
    ensures SysOk(ConcludedSys(s, j, t), except)
  {
    hide SysOk, LinksOk, CountsOk, EachFits, AllAlike, HistoryOk, OrderOk, PathsOk, ConcludedSys, JobOk;
    Books(s, except);
    assert j in s.txnOf;
    hide JobsOk, Concludable;
    ConcludedJobs(s, j, t);
    ConcludedLinks(s, j, t);
    ConcludedCounts(s, j, t);
    ConcludedOrder(s, j, t);
    ConcludedPaths(s, j, t);
    ConcludedTxns(s, j, t);
    forall u | u in s.txns ensures TxnOk(ConcludedSys(s, j, t), u, except) {
      Parts(s, except, u);
      ConcludedEach(s, j, t, except, u);
      ConcludedAlike(s, j, t, except, u);
      ConcludedHistory(s, j, t, u);
    }
    SysOkBy(ConcludedSys(s, j, t), except);
  }

  lemma {:induction false} ConcludedTxns(s: Sys, j: JobId, t: TxnId)
    requires Concludable(s, j, t)
    ensures ConcludedSys(s, j, t).txns.Keys == s.txns.Keys
  {}

  /** A job that is outside transactions and may become NULL. */
  predicate Dismissable(b: Job) { b.status.Concluded? && b.txn.None? && b.refcnt > 0 }

  lemma {:induction false} NullOk(b: Job)
    requires JobOk(b) && Dismissable(b)
    ensures JobOk(Nulled(b)) && Nulled(b).status.Null? && Nulled(b).txn.None? && Nulled(b).refcnt == b.refcnt - 1
  {}

  /** Dismissing changes one job and its history, and nothing else. */
  lemma {:induction false} DismissedEffect(s: Sys, j: JobId)
    requires j in s.jobs
    ensures var s' := Dismissed(s, j);
      && s' == s.(jobs := s'.jobs, history := Entered(s.history, j, Null))
      && (if s.jobs[j].refcnt == 1 then j !in s'.jobs else j in s'.jobs && s'.jobs[j] == Nulled(s.jobs[j]))
      && forall k :: k != j ==> (k in s'.jobs <==> k in s.jobs) && (k in s.jobs ==> s'.jobs[k] == s.jobs[k])
  {
    hide Nulled, Entered;
  }

  lemma {:induction false} DismissedJobs(s: Sys, j: JobId)
    requires JobsOk(s) && j in s.jobs && Dismissable(s.jobs[j])
    ensures JobsOk(Dismissed(s, j))
  {
    hide JobOk, Dismissed, Entered, Nulled;
    NullOk(s.jobs[j]);
    DismissedEffect(s, j);
    assert s.jobs[j].refcnt == s.holds[j] + 1;
  }

  lemma {:induction false} DismissedLinks(s: Sys, j: JobId)
    requires LinksOk(s) && j in s.jobs && Dismissable(s.jobs[j])
    ensures LinksOk(Dismissed(s, j))
  {
    hide Dismissed, Entered, LinksOk;
    DismissedEffect(s, j);
    SameLinks(s, Dismissed(s, j));
  }

  lemma {:induction false} SameLinks(s: Sys, s': Sys)
    requires LinksOk(s) && s'.txns == s.txns && s'.txnOf == s.txnOf && s'.mixed == s.mixed
    requires forall k :: k in s'.jobs ==> k in s.jobs && s'.jobs[k].txn == s.jobs[k].txn
    requires forall k :: k in s.jobs && s.jobs[k].txn.Some? ==> k in s'.jobs
    ensures LinksOk(s')
  {}

  lemma {:induction false} DismissedCounts(s: Sys, j: JobId)
    requires CountsOk(s) && j in s.jobs && Dismissable(s.jobs[j])
    ensures CountsOk(Dismissed(s, j))
  {
    hide Dismissed, Entered;
    DismissedEffect(s, j);
  }

  lemma {:induction false} DismissedOrder(s: Sys, j: JobId)
    requires OrderOk(s) && j in s.jobs
    ensures OrderOk(Dismissed(s, j))
  {
    hide ListOk, Entered;
  }

  lemma {:induction false} DismissedPaths(s: Sys, j: JobId)
    requires PathsOk(s) && j in s.jobs && j in s.txnOf && Dismissable(s.jobs[j])
    ensures PathsOk(Dismissed(s, j))
  {
    hide PathsOk, Entered, Dismissed;
    DismissedEffect(s, j);
    EnteredPaths(s, Dismissed(s, j), j, Null);
  }

  /** The members of u are what they were. */
  ghost predicate SameMembers(s: Sys, s': Sys, u: TxnId) {
    && u in s.txns && u in s'.txns && s'.txns[u] == s.txns[u] && SameBlame(s, s', u)
    && forall m :: m in s.txns[u].members ==> m in s.jobs && m in s'.jobs && s'.jobs[m] == s.jobs[m]
  }

  ghost predicate SameBlame(s: Sys, s': Sys, u: TxnId) {
    (u in s.mixed <==> u in s'.mixed) && (u in s.mixed ==> s'.mixed[u] == s.mixed[u])
  }

  lemma {:induction false} SameMembersFit(s: Sys, s': Sys, u: TxnId, except: set<JobId>)
    requires LinksOk(s) && LinksOk(s') && SameMembers(s, s', u) && MembersFit(s, u, except)
    ensures MembersFit(s', u, except)
  {
    hide MemberOk, Alike, LinksOk;
    assert forall m :: RoleOf(s', u, m) == RoleOf(s, u, m);
  }

  lemma {:induction false} SameHistory(s: Sys, s': Sys, u: TxnId)
    requires u in s.txns && u in s'.txns && s'.txns[u] == s.txns[u] && SameBlame(s, s', u) && HistoryOk(s, u)
    requires s'.txnOf == s.txnOf && s'.commits == s.commits && s'.aborts == s.aborts && s'.rcs == s.rcs
    ensures HistoryOk(s', u)
  {
    assert forall k :: SideOk(s', u, k) == SideOk(s, u, k);
  }

  lemma {:induction false} SameTxn(s: Sys, s': Sys, u: TxnId, except: set<JobId>)
    requires LinksOk(s) && LinksOk(s') && SameMembers(s, s', u) && TxnOk(s, u, except)
    requires s'.txnOf == s.txnOf && s'.commits == s.commits && s'.aborts == s.aborts && s'.rcs == s.rcs
    ensures TxnOk(s', u, except)
  {
    hide MembersFit, HistoryOk, LinksOk;
    SameMembersFit(s, s', u, except);
    SameHistory(s, s', u);
  }

  lemma {:induction false} DismissedTxn(s: Sys, j: JobId, except: set<JobId>, u: TxnId)
    requires j in s.jobs && Dismissable(s.jobs[j])
    requires LinksOk(s) && LinksOk(Dismissed(s, j)) && u in s.txns && TxnOk(s, u, except)
    ensures TxnOk(Dismissed(s, j), u, except)
  {
    hide TxnOk, Entered, Dismissed;
    assert j !in s.txns[u].members;
    DismissedEffect(s, j);
    assert forall m :: m in s.txns[u].members ==> m in s.jobs;
    hide LinksOk;
    SameTxn(s, Dismissed(s, j), u, except);
  }

  lemma {:induction false} DismissedOk(s: Sys, j: JobId, except: set<JobId>)
    requires SysOk(s, except) && j in s.jobs && Dismissable(s.jobs[j])
    ensures SysOk(Dismissed(s, j), except)
  {
    hide SysOk, JobOk, LinksOk, CountsOk, TxnOk, OrderOk, PathsOk, Dismissed;
    Books(s, except);
    assert j in s.txnOf;
    hide JobsOk;
    DismissedJobs(s, j);
    DismissedLinks(s, j);
    DismissedCounts(s, j);
    DismissedOrder(s, j);
    DismissedPaths(s, j);
    assert Dismissed(s, j).txns == s.txns by { DismissedTxns(s, j); }
    forall u | u in s.txns ensures TxnOk(Dismissed(s, j), u, except) {
      Parts(s, except, u);
      DismissedTxn(s, j, except, u);
    }
    SysOkBy(Dismissed(s, j), except);
  }

  lemma {:induction false} DismissedTxns(s: Sys, j: JobId)
    requires j in s.jobs
    ensures Dismissed(s, j).txns == s.txns
  {}

  /** job_finalize_single of a job of t: commit or abort, leave t, conclude, and
      dismiss when nobody else will. */
  function Finalized(s: Sys, j: JobId, t: TxnId): Sys
    requires j in s.jobs && t in s.txns
  {
    var s' := ConcludedSys(Put(s, j, RcUpdated(s.jobs[j])), j, t);
    if s.jobs[j].autoDismiss || s.jobs[j].phase.NoCo? then Dismissed(s', j) else s'
  }

  /** When a completed job may be finalized. */
  ghost predicate Finalizable(s: Sys, j: JobId, t: TxnId) {
    && j in s.jobs && s.jobs[j].txn == Some(t) && t in s.txns && IsCompleted(s.jobs[j].status)
    && (s.txns[t].aborting || s.txns[t].finalizing)
  }

  lemma {:induction false} FinalizableJob(s: Sys, j: JobId, t: TxnId)
    requires SysOk(s, {}) && Finalizable(s, j, t)
    ensures JobOk(s.jobs[j]) && MemberOk(RoleOf(s, t, j), s.jobs[j])
  {
    hide SysOk, CountsOk, AllAlike, HistoryOk, MemberOk, JobOk;
    Parts(s, {}, t);
  }

  lemma {:induction false} FinalizableUpdate(s: Sys, j: JobId, t: TxnId)
    requires SysOk(s, {}) && Finalizable(s, j, t)
    ensures s.jobs[j].ret != 0 || s.jobs[j].forceCancel ==> Allowed(s.jobs[j].status, Aborting)
    ensures SysOk(Put(s, j, RcUpdated(s.jobs[j])), {})
    ensures Concludable(Put(s, j, RcUpdated(s.jobs[j])), j, t)
    ensures (RcUpdated(s.jobs[j]).ret == 0) == !Doomed(s.jobs[j])
  {
    hide SysOk, LinksOk, Entered;
    var b := s.jobs[j];
    FinalizableJob(s, j, t);
    if b.ret != 0 || b.forceCancel {
      RcUpdatedOk(b);
      PutOk(s, j, RcUpdated(b), {});
    } else {
      assert Put(s, j, RcUpdated(b)) == s;
    }
  }

  lemma {:induction false} FinalizedOk(s: Sys, j: JobId, t: TxnId)
    requires SysOk(s, {}) && Finalizable(s, j, t)
    ensures SysOk(Finalized(s, j, t), {})
  {
    hide SysOk, Concludable;
    FinalizableUpdate(s, j, t);
    var s1 := Put(s, j, RcUpdated(s.jobs[j]));
    ConcludedOk(s1, j, t, {});
    var s2 := ConcludedSys(s1, j, t);
    assert s2.jobs[j].refcnt > 0 by { ConcludedRefs(s2, j); }
    if s.jobs[j].autoDismiss || s.jobs[j].phase.NoCo? { DismissedOk(s2, j, {}); }
  }

  lemma {:induction false} ConcludedRefs(s: Sys, j: JobId)
    requires SysOk(s, {}) && j in s.jobs
    ensures s.jobs[j].refcnt > 0
  {}

  // ----- references held by running functions -----

  function Reffed(s: Sys, j: JobId): Sys
    requires j in s.jobs
  {
    s.(jobs := s.jobs[j := s.jobs[j].(refcnt := s.jobs[j].refcnt + 1)], holds := s.holds + multiset{j})
  }

  function Unreffed(s: Sys, j: JobId): Sys
    requires j in s.jobs
  {
    s.(jobs := if s.jobs[j].refcnt == 1 then s.jobs - {j} else s.jobs[j := s.jobs[j].(refcnt := s.jobs[j].refcnt - 1)],
       holds := s.holds - multiset{j})
  }

  lemma {:induction false} ReffedJobs(s: Sys, j: JobId)
    requires JobsOk(s) && j in s.jobs
    ensures JobsOk(Reffed(s, j))
  {
    hide JobOk;
    HeldRecord(s.jobs[j]);
  }

  lemma {:induction false} HeldLinks(s: Sys, j: JobId, n: int, h: multiset<JobId>)
    requires j in s.jobs && LinksOk(s)
    ensures LinksOk(Put(s, j, s.jobs[j].(refcnt := n)).(holds := h))
  {
    PutLinks(s, j, s.jobs[j].(refcnt := n));
    assert LinksOk(Put(s, j, s.jobs[j].(refcnt := n)));
  }

  lemma {:induction false} HeldCounts(s: Sys, j: JobId, n: int, h: multiset<JobId>)
    requires j in s.jobs && CountsOk(s)
    ensures CountsOk(Put(s, j, s.jobs[j].(refcnt := n)).(holds := h))
  {
    PutCounts(s, j, s.jobs[j].(refcnt := n));
  }

  lemma {:induction false} HeldBooks(s: Sys, j: JobId, n: int, h: multiset<JobId>)
    requires j in s.jobs && OrderOk(s) && PathsOk(s)
    ensures OrderOk(Put(s, j, s.jobs[j].(refcnt := n)).(holds := h)) && PathsOk(Put(s, j, s.jobs[j].(refcnt := n)).(holds := h))
  {
    hide PathOk, ListOk;
  }

  lemma {:induction false} HeldTxn(s: Sys, j: JobId, n: int, h: multiset<JobId>, t: TxnId, except: set<JobId>)
    requires j in s.jobs && LinksOk(s) && LinksOk(Put(s, j, s.jobs[j].(refcnt := n)).(holds := h))
    requires t in s.txns && TxnOk(s, t, except)
    ensures TxnOk(Put(s, j, s.jobs[j].(refcnt := n)).(holds := h), t, except)
  {
    var b := s.jobs[j].(refcnt := n);
    var s' := Put(s, j, b);
    PutLinks(s, j, b);
    if b.txn == Some(t) && j !in except { SameFits(s, j, b, except); }
    hide Fits, TxnOk;
    PutTxn(s, j, b, except, t);
    assert SameMembers(s', s'.(holds := h), t);
    hide LinksOk, Put;
    SameTxn(s', s'.(holds := h), t, except);
  }

  lemma {:induction false} HeldOk(s: Sys, j: JobId, n: int, h: multiset<JobId>, except: set<JobId>)
    requires SysOk(s, except) && j in s.jobs && JobsOk(Put(s, j, s.jobs[j].(refcnt := n)).(holds := h))
    ensures SysOk(Put(s, j, s.jobs[j].(refcnt := n)).(holds := h), except)
  {
    hide SysOk, JobsOk, LinksOk, CountsOk, TxnOk, OrderOk, PathsOk;
    Books(s, except);
    HeldLinks(s, j, n, h);
    HeldCounts(s, j, n, h);
    HeldBooks(s, j, n, h);
    var s' := Put(s, j, s.jobs[j].(refcnt := n)).(holds := h);
    forall t | t in s.txns ensures TxnOk(s', t, except) {
      Parts(s, except, t);
      HeldTxn(s, j, n, h, t, except);
    }
    SysOkBy(s', except);
  }

  lemma {:induction false} ReffedOk(s: Sys, j: JobId, except: set<JobId>)
    requires SysOk(s, except) && j in s.jobs
    ensures SysOk(Reffed(s, j), except)
  {
    hide SysOk, JobsOk;
    Books(s, except);
    ReffedJobs(s, j);
    HeldOk(s, j, s.jobs[j].refcnt + 1, s.holds + multiset{j}, except);
  }

  lemma {:induction false} HeldRecord(b: Job)
    requires JobOk(b)
    ensures JobOk(b.(refcnt := b.refcnt - 1)) && JobOk(b.(refcnt := b.refcnt + 1)) && (b.status.Null? ==> b.txn.None?)
  {}

  lemma {:induction false} UnreffedJobs(s: Sys, j: JobId)
    requires JobsOk(s) && j in s.jobs && s.holds[j] > 0
    ensures JobsOk(Unreffed(s, j))
    ensures s.jobs[j].refcnt == 1 ==> s.jobs[j].status.Null? && s.jobs[j].txn.None?
  {
    hide JobOk;
    var b := s.jobs[j];
    HeldRecord(b);
    var s' := Unreffed(s, j);
    forall k | k in s'.jobs
      ensures JobOk(s'.jobs[k]) && k in s'.txnOf && s'.jobs[k].refcnt > 0
      ensures s'.jobs[k].refcnt == s'.holds[k] + Bit(!s'.jobs[k].status.Null?)
    {
      if k != j { assert s'.jobs[k] == s.jobs[k]; }
    }
  }

  lemma {:induction false} FreedTxn(s: Sys, j: JobId, h: multiset<JobId>, except: set<JobId>, u: TxnId)
    requires j in s.jobs && s.jobs[j].txn.None? && LinksOk(s) && LinksOk(s.(jobs := s.jobs - {j}, holds := h))
    requires u in s.txns && TxnOk(s, u, except)
    ensures TxnOk(s.(jobs := s.jobs - {j}, holds := h), u, except)
  {
    hide TxnOk;
    assert j !in s.txns[u].members;
    SameTxn(s, s.(jobs := s.jobs - {j}, holds := h), u, except);
  }

  lemma {:induction false} FreedLinks(s: Sys, j: JobId, h: multiset<JobId>)
    requires j in s.jobs && s.jobs[j].txn.None? && LinksOk(s)
    ensures LinksOk(s.(jobs := s.jobs - {j}, holds := h))
  {}

  lemma {:induction false} FreedCounts(s: Sys, j: JobId, h: multiset<JobId>)
    requires CountsOk(s)
    ensures CountsOk(s.(jobs := s.jobs - {j}, holds := h))
  {}

  lemma {:induction false} FreedBooks(s: Sys, j: JobId, h: multiset<JobId>)
    requires OrderOk(s) && PathsOk(s) && j in s.jobs && s.jobs[j].status.Null?
    ensures OrderOk(s.(jobs := s.jobs - {j}, holds := h)) && PathsOk(s.(jobs := s.jobs - {j}, holds := h))
  {
    hide PathOk, ListOk;
  }

  lemma {:induction false} UnreffedOk(s: Sys, j: JobId, except: set<JobId>)
    requires SysOk(s, except) && j in s.jobs && s.holds[j] > 0
    ensures SysOk(Unreffed(s, j), except)
    ensures s.jobs[j].refcnt == 1 ==> s.jobs[j].status.Null? && s.jobs[j].txn.None?
  {
    hide SysOk, JobsOk, TxnOk, LinksOk, CountsOk, OrderOk, PathsOk;
    Books(s, except);
    UnreffedJobs(s, j);
    var h := s.holds - multiset{j};
    if s.jobs[j].refcnt == 1 {
      FreedLinks(s, j, h);
      FreedCounts(s, j, h);
      FreedBooks(s, j, h);
      forall u | u in s.txns ensures TxnOk(Unreffed(s, j), u, except) {
        Parts(s, except, u);
        FreedTxn(s, j, h, except, u);
      }
      SysOkBy(Unreffed(s, j), except);
    } else {
      HeldOk(s, j, s.jobs[j].refcnt - 1, h, except);
    }
  }

  // ----- a transaction turning to abort -----

  /** txn->aborting = true; `blame` tells, if the job giving up is itself good, why. */
  function Aborted(s: Sys, t: TxnId, blame: Option<Blame>): Sys
    requires t in s.txns
  {
    s.(txns := s.txns[t := s.txns[t].(aborting := true)],
       mixed := if blame.Some? then s.mixed[t := blame.value] else s.mixed)
  }

  lemma {:induction false} AbortedLinks(s: Sys, t: TxnId, blame: Option<Blame>)
    requires LinksOk(s) && t in s.txns
    ensures LinksOk(Aborted(s, t, blame))
  {
    var s' := Aborted(s, t, blame);
    assert forall u :: u in s'.txns ==> u in s.txns && s'.txns[u].members == s.txns[u].members;
  }

  lemma {:induction false} AbortedMembersFit(s: Sys, t: TxnId, blame: Option<Blame>, except: set<JobId>, u: TxnId)
    requires t in s.txns && LinksOk(s) && LinksOk(Aborted(s, t, blame)) && u in s.txns && MembersFit(s, u, except)
    requires except <= s.txns[t].members
    ensures MembersFit(Aborted(s, t, blame), u, s.txns[t].members)
  {
    hide MemberOk, Alike;
    var s' := Aborted(s, t, blame);
    if u != t { assert forall m :: RoleOf(s', u, m) == RoleOf(s, u, m); }
  }

  lemma {:induction false} AbortedHistory(s: Sys, t: TxnId, blame: Option<Blame>, u: TxnId)
    requires t in s.txns && u in s.txns && HistoryOk(s, u) && s.txns[t].members != {}
    requires !s.txns[t].aborting && !s.txns[t].finalizing && (blame.Some? ==> BlameOk(s, t, blame.value))
    ensures HistoryOk(Aborted(s, t, blame), u)
  {
    var s' := Aborted(s, t, blame);
    forall k | k in s.txnOf && s.txnOf[k] == u ensures SideOk(s', u, k) {
      assert SideOk(s, u, k);
    }
  }

  lemma {:induction false} AbortedJobs(s: Sys, t: TxnId, blame: Option<Blame>)
    requires JobsOk(s) && CountsOk(s) && t in s.txns
    ensures JobsOk(Aborted(s, t, blame)) && CountsOk(Aborted(s, t, blame))
  {
    hide JobOk;
  }

  lemma {:induction false} AbortedBooks(s: Sys, t: TxnId, blame: Option<Blame>)
    requires OrderOk(s) && PathsOk(s) && t in s.txns
    ensures OrderOk(Aborted(s, t, blame)) && PathsOk(Aborted(s, t, blame))
  {
    hide PathOk, ListOk;
  }

  lemma {:induction false} AbortedOk(s: Sys, t: TxnId, blame: Option<Blame>, except: set<JobId>)
    requires SysOk(s, except) && t in s.txns && except <= s.txns[t].members && s.txns[t].members != {}
    requires !s.txns[t].aborting && !s.txns[t].finalizing && (blame.Some? ==> BlameOk(s, t, blame.value))
    ensures SysOk(Aborted(s, t, blame), s.txns[t].members)
  {
    hide SysOk, JobsOk, LinksOk, CountsOk, OrderOk, PathsOk, MembersFit, HistoryOk, BlameOk;
    Books(s, except);
    AbortedLinks(s, t, blame);
    AbortedJobs(s, t, blame);
    AbortedBooks(s, t, blame);
    forall u | u in s.txns ensures TxnOk(Aborted(s, t, blame), u, s.txns[t].members) {
      Parts(s, except, u);
      AbortedMembersFit(s, t, blame, except, u);
      AbortedHistory(s, t, blame, u);
    }
    SysOkBy(Aborted(s, t, blame), s.txns[t].members);
  }

  /** Once a member of an aborting transaction fits, it is no exception any more. */
  lemma {:induction false} Settle(s: Sys, t: TxnId, except: set<JobId>, m: JobId)
    requires SysOk(s, except) && t in s.txns && s.txns[t].aborting && m in s.txns[t].members && m in s.jobs
    requires MemberOk(RoleOf(s, t, m), s.jobs[m])
    ensures SysOk(s, except - {m})
  {
    hide SysOk, JobsOk, LinksOk, CountsOk, OrderOk, PathsOk, HistoryOk, MembersFit, MemberOk;
    Books(s, except);
    forall u | u in s.txns ensures TxnOk(s, u, except - {m}) {
      Parts(s, except, u);
      SettleFit(s, t, except, m, u);
    }
    SysOkBy(s, except - {m});
  }

  lemma {:induction false} SettleFit(s: Sys, t: TxnId, except: set<JobId>, m: JobId, u: TxnId)
    requires LinksOk(s) && t in s.txns && s.txns[t].aborting && m in s.txns[t].members && MemberOk(RoleOf(s, t, m), s.jobs[m])
    requires u in s.txns && MembersFit(s, u, except)
    ensures MembersFit(s, u, except - {m})
  {
    assert s.jobs[m].txn == Some(t);
    assert u != t ==> m !in s.txns[u].members;
    hide MemberOk, Alike, LinksOk;
  }
}
