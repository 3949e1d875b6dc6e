/**
 Lemmas for the operations that span a whole transaction: its abort, its commit,
 and what the event loop may do in between.
 */
module JobAbort {
  import opened Basics
  import opened JobState
  import opened JobOps
  import opened JobSteps

  // ----- the coroutine of one job -----

  datatype CoEvent = Park | Unpark | BecomeReady | Return(ret: int)

  predicate CoEnabled(b: Job, e: CoEvent) {
    match e
    case Park => b.phase.Inside? && b.pauseCount > 0 && !b.forceCancel
    case Unpark => b.phase.AtPause?
    case BecomeReady => b.phase.Inside? && b.status.Running?
    case Return(_) => b.phase.Inside?
  }

  function CoAfter(b: Job, e: CoEvent): Job
    requires CoEnabled(b, e)
  {
    match e
    case Park => b.(status := if b.status.Ready? then Standby else Paused, phase := AtPause(b.status), paused := true)
    case Unpark => b.(status := b.phase.saved, phase := Inside, paused := false)
    case BecomeReady => b.(status := Ready)
    case Return(ret) => b.(phase := Returned, ret := ret)
  }

  /** Every move of a running job is in the transition table, and a job leaving a
      pause point has the status it entered with. */
  lemma {:induction false} CoAfterOk(b: Job, e: CoEvent)
    requires JobOk(b) && CoEnabled(b, e)
    ensures JobOk(CoAfter(b, e)) && !IsCompleted(b.status) && !IsCompleted(CoAfter(b, e).status)
    ensures if e.Return? then CoAfter(b, e).status == b.status else Allowed(b.status, CoAfter(b, e).status)
    ensures e.Park? ==> CoEnabled(CoAfter(b, e), Unpark) && CoAfter(CoAfter(b, e), Unpark) == b
  {}

  /** Transactions that may still turn to abort. */
  ghost function Live(txns: map<TxnId, Txn>): set<TxnId> { set t | t in txns && !txns[t].aborting }

  lemma {:induction false} LiveShrinks(s: Sys, s': Sys, skip: set<TxnId>)
    requires Frame(s, s', skip) && forall t :: t in skip && t in s.txns && t in s'.txns && s.txns[t].aborting ==> s'.txns[t].aborting
    ensures |Live(s'.txns)| <= |Live(s.txns)|
  {
    forall t | t in Live(s'.txns) ensures t in Live(s.txns) { assert t !in skip ==> Kept(s, s', t); }
    Smaller(Live(s'.txns), Live(s.txns));
  }

  lemma {:induction false} Smaller(a: set<TxnId>, b: set<TxnId>)
    requires a <= b
    ensures |a| <= |b| && (a != b ==> |a| < |b|)
  {
    assert |b - a| == |b| - |b * a|;
    assert b * a == a;
    if a != b { var x :| x in b && x !in a; assert x in b - a; }
  }

  lemma {:induction false} AbortedLive(s: Sys, t: TxnId, blame: Option<Blame>)
    requires t in s.txns && !s.txns[t].aborting
    ensures |Live(Aborted(s, t, blame).txns)| < |Live(s.txns)|
  {
    assert t in Live(s.txns) && t !in Live(Aborted(s, t, blame).txns);
    Smaller(Live(Aborted(s, t, blame).txns), Live(s.txns));
  }

  // ----- steps of an abort -----

  /** What makes the abort of t started by j run to its end: j is doomed and the
      others have been started; or all have run, and j is good, but another one failed. */
  ghost predicate Abortable(s: Sys, j: JobId, t: TxnId, except: set<JobId>, blame: Option<Blame>) {
    && SysOk(s, except) && (forall u :: u in s.txns ==> !s.txns[u].finalizing)
    && j in s.jobs && s.jobs[j].txn == Some(t) && t in s.txns && !s.txns[t].aborting
    && except <= s.txns[t].members
    && AllCanEnd(s, j, t, blame)
  }

  ghost predicate AllCanEnd(s: Sys, j: JobId, t: TxnId, blame: Option<Blame>)
    requires j in s.jobs && t in s.txns
  {
    if blame.None? then
      && Doomed(s.jobs[j]) && (s.jobs[j].phase.NoCo? ==> IsCompleted(s.jobs[j].status))
      && forall m :: m in s.txns[t].members && m != j ==> m in s.jobs && !s.jobs[m].phase.NoCo?
    else
      && !Doomed(s.jobs[j]) && s.jobs[j].status.Pending? && blame.value.asked == j && BlameOk(s, t, blame.value)
      && forall m :: m in s.txns[t].members && m != j ==> m in s.jobs && IsCompleted(s.jobs[m].status)
  }

  lemma {:induction false} CancelRecord(b: Job, r: Role)
    requires JobOk(b) && (r.Ending? || r.Fallen?) && (r.Fallen? || b.phase.NoCo? ==> IsCompleted(b.status))
    ensures JobOk(Cancelled(b, true)) && MemberOk(r, Cancelled(b, true)) && Doomed(Cancelled(b, true))
    ensures Cancelled(b, true).status == b.status
  {}

  /** job_cancel_async(other, true) on a member of an aborting transaction. */
  lemma {:induction false} CancelStep(s: Sys, t: TxnId, except: set<JobId>, m: JobId)
    requires SysOk(s, except) && t in s.txns && s.txns[t].aborting && m in s.txns[t].members && m in except && m in s.jobs
    requires RoleOf(s, t, m).Ending? || RoleOf(s, t, m).Fallen?
    requires RoleOf(s, t, m).Fallen? || s.jobs[m].phase.NoCo? ==> IsCompleted(s.jobs[m].status)
    ensures SysOk(Put(s, m, Cancelled(s.jobs[m], true)), except - {m})
  {
    hide SysOk, JobOk, MemberOk, Fits, LinksOk;
    Sound(s, except, m);
    Linked(s, except, m);
    var b := Cancelled(s.jobs[m], true);
    CancelRecord(s.jobs[m], RoleOf(s, t, m));
    PutOk(s, m, b, except);
    assert RoleOf(Put(s, m, b), t, m) == RoleOf(s, t, m);
    Settle(Put(s, m, b), t, except, m);
  }

  /** What finalizing job m of t does to t: m is aborted if it is doomed, else
      committed, and the other members are as before. */
  lemma {:induction false} FinalizedEffect(s: Sys, m: JobId, t: TxnId)
    requires m in s.jobs && t in s.txns && (RcUpdated(s.jobs[m]).ret == 0) == !Doomed(s.jobs[m])
    ensures Finalized(s, m, t).txns == s.txns[t := s.txns[t].(members := s.txns[t].members - {m})]
    ensures Finalized(s, m, t).mixed == s.mixed && Finalized(s, m, t).holds == s.holds
    ensures Finalized(s, m, t).aborts == if Doomed(s.jobs[m]) then s.aborts + multiset{m} else s.aborts
    ensures Finalized(s, m, t).commits == if Doomed(s.jobs[m]) then s.commits else s.commits + multiset{m}
    ensures forall k :: k in s.jobs && k != m ==> k in Finalized(s, m, t).jobs && Finalized(s, m, t).jobs[k] == s.jobs[k]
  {
    var s2 := ConcludedSys(Put(s, m, RcUpdated(s.jobs[m])), m, t);
    hide Dismissed, Doomed, Entered, Without;
    DismissedEffect(s2, m);
    assert forall k :: k in s.jobs && k != m ==> k in s2.jobs && s2.jobs[k] == s.jobs[k];
  }

  /** Each of the jobs has been aborted, but the good ones committed. */
  ghost predicate Undone(s: Sys, ms: set<JobId>, good: set<JobId>) {
    forall m :: m in ms ==> if m in good then s.commits[m] > 0 else s.aborts[m] > 0
  }

  lemma {:induction false} Reflexive(s: Sys, t: TxnId)
    ensures Only(s, s, t) && Frame(s, s, {}) && Frame(s, s, {t})
  {}

  lemma {:induction false} InTxn(s: Sys, except: set<JobId>, m: JobId, t: TxnId)
    requires SysOk(s, except) && t in s.txns && m in s.txns[t].members
    ensures m in s.jobs && s.jobs[m].txn == Some(t) && LinksOk(s)
  {
    hide SysOk, JobsOk, CountsOk, TxnOk;
    Parts(s, except, t);
  }

  lemma {:induction false} FinalizableParts(s: Sys, j: JobId, t: TxnId)
    requires SysOk(s, {}) && Finalizable(s, j, t)
    ensures j in s.jobs && t in s.txns && s.jobs[j].refcnt > 0
  {
    hide SysOk;
    ConcludedRefs(s, j);
  }

  lemma {:induction false} FinalizedSteps(s: Sys, j: JobId, t: TxnId)
    requires j in s.jobs && t in s.txns
    ensures var b := RcUpdated(s.jobs[j]);
      && b.autoDismiss == s.jobs[j].autoDismiss && b.phase.NoCo? == s.jobs[j].phase.NoCo? && b.refcnt == s.jobs[j].refcnt
      && Finalized(s, j, t) == (if s.jobs[j].autoDismiss || s.jobs[j].phase.NoCo? then Dismissed(ConcludedSys(Put(s, j, b), j, t), j)
                                else ConcludedSys(Put(s, j, b), j, t))
  {}

  /** Leaving the transaction and concluding, taken one after the other. */
  lemma {:induction false} Concluding(s1: Sys, s2: Sys, j: JobId, t: TxnId)
    requires Concludable(s1, j, t) && j in s2.jobs
    requires s2.jobs == s1.jobs[j := s1.jobs[j].(txn := None)]
    requires s2.txns == s1.txns[t := s1.txns[t].(members := s1.txns[t].members - {j})]
    requires s2.order == s1.order[t := Without(Listed(s1, t), j)] && s2.history == s1.history && s2.rcs == s1.rcs
    requires s2.commits == if s1.jobs[j].ret == 0 then s1.commits + multiset{j} else s1.commits
    requires s2.aborts == if s1.jobs[j].ret != 0 then s1.aborts + multiset{j} else s1.aborts
    requires s2.txnOf == s1.txnOf && s2.mixed == s1.mixed && s2.holds == s1.holds
    ensures Allowed(s2.jobs[j].status, Concluded)
    ensures Put(s2, j, Transitioned(s2.jobs[j], Concluded)) == ConcludedSys(s1, j, t)
  {
    var b := Transitioned(s2.jobs[j], Concluded);
    assert b == Transitioned(s1.jobs[j], Concluded).(txn := None);
    assert s2.jobs[j := b] == s1.jobs[j := b];
  }

  lemma {:induction false} UndoneMore(s: Sys, s': Sys, ms: set<JobId>, good: set<JobId>, m: JobId)
    requires Undone(s, ms, good) && s.commits <= s'.commits && s.aborts <= s'.aborts
    requires if m in good then s'.commits[m] > 0 else s'.aborts[m] > 0
    ensures Undone(s', ms + {m}, good)
  {
    assert forall k :: s.commits[k] <= s'.commits[k] && s.aborts[k] <= s'.aborts[k];
  }

  /** What is known of a member of a transaction while the event loop may run. */
  lemma {:induction false} CalmParts(s: Sys, t: TxnId, m: JobId)
    requires Calm(s) && t in s.txns && m in s.txns[t].members
    ensures SysOk(s, {}) && LinksOk(s) && m in s.jobs && s.jobs[m].txn == Some(t) && JobOk(s.jobs[m]) && !s.txns[t].finalizing
    ensures MemberOk(RoleOf(s, t, m), s.jobs[m])
    ensures s.txns[t].aborting && !IsCompleted(s.jobs[m].status) ==> t !in s.mixed && s.jobs[m].cancelled && !s.jobs[m].phase.NoCo?
  {
    hide SysOk, LinksOk;
    Parts(s, {}, t);
    MemberTxn(s, t, m);
    Member(s, m, t);
  }

  lemma {:induction false} FinalizedCalm(s: Sys, m: JobId, t: TxnId)
    requires Calm(s) && m in s.jobs && t in s.txns && SysOk(Finalized(s, m, t), {})
    requires Finalized(s, m, t).txns == s.txns[t := s.txns[t].(members := s.txns[t].members - {m})]
    ensures Calm(Finalized(s, m, t))
  {
    hide SysOk, Finalized;
  }

  lemma {:induction false} FrameCalm(s: Sys, s': Sys, t: TxnId, ms: set<JobId>, good: set<JobId>)
    requires Frame(s, s', {}) && t in s.txns && s.txns[t].aborting && Undone(s, ms, good)
    ensures t in s'.txns && s'.txns[t] == s.txns[t] && SameBlame(s, s', t)
    ensures Undone(s', ms, good)
  {
    assert Kept(s, s', t);
    assert forall k :: s.commits[k] <= s'.commits[k] && s.aborts[k] <= s'.aborts[k];
  }

  lemma {:induction false} AbortedOnly(s: Sys, t: TxnId, blame: Option<Blame>)
    requires t in s.txns
    ensures Only(s, Aborted(s, t, blame), t)
  {}

  /** An abort seen from outside: over. */
  lemma {:induction false} FrameClose(s: Sys, s': Sys, t: TxnId)
    requires Frame(s, s', {t}) && t in s.txns && !s.txns[t].aborting && (s'.txns[t].aborting ==> s'.txns[t].members == {})
    ensures Frame(s, s', {})
  {
    assert Kept(s, s', t);
  }

  lemma {:induction false} HeldIsThere(s: Sys, j: JobId)
    requires SysOk(s, {}) && s.holds[j] > 0
    ensures j in s.jobs
  {
    hide SysOk, LinksOk, CountsOk, JobOk, OrderOk, PathsOk;
    Books(s, {});
  }

  /** Setting `aborting` and taking a reference leaves the members ready to be cancelled. */
  lemma {:induction false} AbortReady(s: Sys, j: JobId, t: TxnId, except: set<JobId>, blame: Option<Blame>)
    requires Abortable(s, j, t, except, blame)
    ensures LinksOk(s) && j in s.txns[t].members && t !in s.mixed
    ensures SysOk(Reffed(Aborted(s, t, blame), j), s.txns[t].members)
    ensures MemberOk(if blame.None? then Ending else Spared, s.jobs[j].(refcnt := s.jobs[j].refcnt + 1))
  {
    hide SysOk, MembersFit, BlameOk;
    Parts(s, except, t);
    assert j in s.txns[t].members;
    hide LinksOk, HistoryOk;
    AbortedOk(s, t, blame, except);
    ReffedOk(Aborted(s, t, blame), j, s.txns[t].members);
  }

  lemma {:induction false} CalmOk(s: Sys)
    requires Calm(s)
    ensures SysOk(s, {}) && (forall u :: u in s.txns ==> !s.txns[u].finalizing)
  {
    hide SysOk;
  }

  lemma {:induction false} CalmBy(s: Sys)
    requires SysOk(s, {}) && forall u :: u in s.txns ==> !s.txns[u].finalizing
    ensures Calm(s)
  {
    hide SysOk;
  }

  lemma {:induction false} CoCalm(s: Sys, j: JobId, e: CoEvent)
    requires Calm(s) && j in s.jobs && CoEnabled(s.jobs[j], e)
    ensures JobOk(s.jobs[j]) && Calm(Put(s, j, CoAfter(s.jobs[j], e))) && Frame(s, Put(s, j, CoAfter(s.jobs[j], e)), {})
  {
    hide SysOk, Frame, JobOk;
    Sound(s, {}, j);
    CoAfterOk(s.jobs[j], e);
    CoOk(s, j, CoAfter(s.jobs[j], e));
    PutFrame(s, j, CoAfter(s.jobs[j], e));
  }

  /** The abort of t is under way, and if it is one that a good job started, by j. */
  ghost predicate StartedBy(s: Sys, j: JobId, t: TxnId) {
    t in s.txns && s.txns[t].aborting && (t in s.mixed ==> s.mixed[t].asked == j)
  }

  function Good(s: Sys, j: JobId, t: TxnId): set<JobId> { if t in s.mixed then {j} else {} }

  /** Where the abort of t stands, s0 being its start. */
  ghost predicate Undoing(s0: Sys, s: Sys, j: JobId, t: TxnId) {
    && Calm(s) && Frame(s0, s, {t}) && LinksOk(s0) && s.holds == s0.holds
    && t in s0.txns && s0.txns[t].aborting && StartedBy(s, j, t) && SameBlame(s0, s, t)
    && s.txns[t].members <= s0.txns[t].members
    && Undone(s, s0.txns[t].members - s.txns[t].members, Good(s, j, t))
  }

  /** Waiting for a job leaves the abort where it stood. */
  lemma {:induction false} UndoWait(s0: Sys, s: Sys, s': Sys, j: JobId, t: TxnId)
    requires Undoing(s0, s, j, t) && Calm(s') && Frame(s, s', {}) && s'.holds == s.holds
    ensures Undoing(s0, s', j, t) && s'.txns[t] == s.txns[t]
  {
    hide Calm, Frame, Undone, LinksOk;
    FrameTrans(s0, s, s', {t}, {});
    FrameCalm(s, s', t, s0.txns[t].members - s.txns[t].members, Good(s, j, t));
  }

  lemma {:induction false} FinalizedFrame(s0: Sys, s: Sys, m: JobId, t: TxnId)
    requires Frame(s0, s, {t}) && LinksOk(s0) && LinksOk(s) && m in s.jobs && t in s.txns && s.jobs[m].txn == Some(t)
    ensures Frame(s0, Finalized(s, m, t), {t})
  {
    hide Frame, LinksOk, Only, Finalized;
    FinalizedOnly(s, m, t);
    OnlyFrame(s, Finalized(s, m, t), t);
    FrameTrans(s0, s, Finalized(s, m, t), {t}, {t});
  }

  /** Finalizing a completed member takes the abort one job further. */
  lemma {:induction false} UndoOne(s0: Sys, s: Sys, j: JobId, t: TxnId, m: JobId)
    requires Undoing(s0, s, j, t) && m in s.txns[t].members && m in s.jobs && IsCompleted(s.jobs[m].status)
    ensures SysOk(s, {}) && Finalizable(s, m, t)
    ensures Undoing(s0, Finalized(s, m, t), j, t) && Finalized(s, m, t).txns[t].members == s.txns[t].members - {m}
  {
    hide Calm, Frame, Undone, LinksOk, Finalized, SysOk, Doomed, JobOk, Only;
    CalmParts(s, t, m);
    FinalizableUpdate(s, m, t);
    FinalizedEffect(s, m, t);
    FinalizedOk(s, m, t);
    var s' := Finalized(s, m, t);
    FinalizedCalm(s, m, t);
    FinalizedFrame(s0, s, m, t);
    var done := s0.txns[t].members - s.txns[t].members;
    assert !Doomed(s.jobs[m]) <==> m in Good(s, j, t) by { DoomedBy(s, j, t, m); }
    UndoneMore(s, s', done, Good(s, j, t), m);
    assert done + {m} == s0.txns[t].members - s'.txns[t].members;
  }

  lemma {:induction false} DoomedBy(s: Sys, j: JobId, t: TxnId, m: JobId)
    requires StartedBy(s, j, t) && m in s.txns[t].members && m in s.jobs && MemberOk(RoleOf(s, t, m), s.jobs[m])
    ensures !Doomed(s.jobs[m]) <==> m in Good(s, j, t)
  {}

  /** The members are sorted out once t is aborting and the others are cancelled. */
  lemma {:induction false} UndoStart(s: Sys, s': Sys, j: JobId, t: TxnId, except: set<JobId>, blame: Option<Blame>)
    requires Abortable(s, j, t, except, blame) && t !in s.mixed
    requires SysOk(s', {}) && s'.txns == s.txns[t := s.txns[t].(aborting := true)]
    requires s'.mixed == if blame.None? then s.mixed else s.mixed[t := blame.value]
    ensures Undoing(s', s', j, t) && Good(s', j, t) == (if blame.None? then {} else {j})
  {
    hide SysOk, Doomed, LinksOk;
    CalmBy(s');
    Reflexive(s', t);
    SysLinks(s', {});
  }

  lemma {:induction false} SysLinks(s: Sys, except: set<JobId>)
    requires SysOk(s, except)
    ensures LinksOk(s)
  {
    hide SysOk, LinksOk, JobsOk, CountsOk;
    Books(s, except);
  }

  lemma {:induction false} UndoParts(s0: Sys, s: Sys, j: JobId, t: TxnId)
    requires Undoing(s0, s, j, t)
    ensures t in s.txns && |Live(s.txns)| <= |Live(s0.txns)|
  {
    hide Calm, Frame, Undone, LinksOk;
    LiveShrinks(s0, s, {t});
  }

  lemma {:induction false} UndoMember(s0: Sys, s: Sys, j: JobId, t: TxnId, m: JobId)
    requires Undoing(s0, s, j, t) && m in s.txns[t].members
    ensures m in s.jobs && Calm(s) && s.jobs[m].txn == Some(t) && s.txns[t].aborting && |Live(s.txns)| <= |Live(s0.txns)|
    ensures !IsCompleted(s.jobs[m].status) ==> s.jobs[m].cancelled
  {
    hide Calm, Frame, Undone, LinksOk, MemberOk, JobOk;
    UndoParts(s0, s, j, t);
    CalmParts(s, t, m);
  }

  lemma {:induction false} AbortFrame(s: Sys, j: JobId, t: TxnId, blame: Option<Blame>)
    requires LinksOk(s) && t in s.txns && j in s.jobs
    ensures Frame(s, Reffed(Aborted(s, t, blame), j), {t})
  {
    hide LinksOk, Only, Frame;
    var s1 := Aborted(s, t, blame);
    AbortedOnly(s, t, blame);
    OnlyFrame(s, s1, t);
    RefFrame(s1, j);
    FrameTrans(s, s1, Reffed(s1, j), {t}, {});
  }

  lemma {:induction false} BeginFrame(s: Sys, s': Sys, j: JobId, t: TxnId, blame: Option<Blame>, except: set<JobId>)
    requires t in s.txns && j in s.jobs && SysOk(s, except) && !s.txns[t].aborting
    requires SysOk(Reffed(Aborted(s, t, blame), j), s.txns[t].members) && Only(Reffed(Aborted(s, t, blame), j), s', t)
    requires s'.txns == Aborted(s, t, blame).txns
    ensures Frame(s, s', {t}) && |Live(s'.txns)| < |Live(s.txns)|
  {
    hide SysOk, LinksOk, Only, Frame;
    var s2 := Reffed(Aborted(s, t, blame), j);
    SysLinks(s, except);
    SysLinks(s2, s.txns[t].members);
    AbortFrame(s, j, t, blame);
    OnlyFrame(s2, s', t);
    FrameTrans(s, s2, s', {t}, {t});
    AbortedLive(s, t, blame);
  }

  /** The other members may be cancelled, and will then fit. */
  ghost predicate Cancellable(s: Sys, j: JobId, t: TxnId)
    requires t in s.txns
  {
    forall m :: m in s.txns[t].members && m != j ==>
      && m in s.jobs && (RoleOf(s, t, m).Ending? || RoleOf(s, t, m).Fallen?)
      && (RoleOf(s, t, m).Fallen? || s.jobs[m].phase.NoCo? ==> IsCompleted(s.jobs[m].status))
  }

  lemma {:induction false} CancellableIn(s: Sys, j: JobId, t: TxnId)
    requires t in s.txns && Cancellable(s, j, t)
    ensures forall m :: m in s.txns[t].members - {j} ==> m in s.jobs
  {
    hide RoleOf;
  }

  /** One turn of the loop that cancels the other members. */
  lemma {:induction false} CancelOne(s0: Sys, s: Sys, j: JobId, t: TxnId, except: set<JobId>, m: JobId)
    requires t in s0.txns && s0.txns[t].aborting && Cancellable(s0, j, t) && s.txns == s0.txns && s.mixed == s0.mixed && Only(s0, s, t)
    requires SysOk(s, except) && m in except && m in s0.txns[t].members && m != j && m in s.jobs && m in s0.jobs && s.jobs[m] == s0.jobs[m]
    ensures var s' := Put(s, m, Cancelled(s.jobs[m], true));
      JobOk(s.jobs[m]) && SysOk(s', except - {m}) && Only(s0, s', t) && Doomed(Cancelled(s.jobs[m], true))
  {
    hide SysOk, Cancellable, Only, JobOk, MemberOk, Cancelled, Put, Doomed;
    Sound(s, except, m);
    InTxn(s, except, m, t);
    CancellableAt(s0, s, j, t, m);
    CancelStep(s, t, except, m);
    CancelRecord(s.jobs[m], RoleOf(s, t, m));
    PutOnlyMore(s0, s, m, Cancelled(s.jobs[m], true), t);
  }

  lemma {:induction false} CancellableAt(s0: Sys, s: Sys, j: JobId, t: TxnId, m: JobId)
    requires t in s0.txns && Cancellable(s0, j, t) && s.txns == s0.txns && s.mixed == s0.mixed
    requires m in s0.txns[t].members && m != j && m in s.jobs && m in s0.jobs && s.jobs[m] == s0.jobs[m]
    ensures RoleOf(s, t, m).Ending? || RoleOf(s, t, m).Fallen?
    ensures RoleOf(s, t, m).Fallen? || s.jobs[m].phase.NoCo? ==> IsCompleted(s.jobs[m].status)
  {
    SameRole(s0, s, t, m);
    hide RoleOf;
  }

  lemma {:induction false} SameRole(s: Sys, s': Sys, t: TxnId, m: JobId)
    requires t in s.txns && s'.txns == s.txns && s'.mixed == s.mixed
    ensures RoleOf(s', t, m) == RoleOf(s, t, m)
  {}

  lemma {:induction false} AbortedMembers(s: Sys, j: JobId, t: TxnId, blame: Option<Blame>)
    requires j in s.jobs && t in s.txns && AllCanEnd(s, j, t, blame) && t !in s.mixed
    ensures var s2 := Reffed(Aborted(s, t, blame), j);
      Cancellable(s2, j, t) && RoleOf(s2, t, j) == if blame.None? then Ending else Spared
  {
    hide Doomed, BlameOk;
  }

  lemma {:induction false} AbortableParts(s: Sys, j: JobId, t: TxnId, except: set<JobId>, blame: Option<Blame>)
    requires Abortable(s, j, t, except, blame)
    ensures LinksOk(s) && t in s.txns && !s.txns[t].aborting
  {
    hide SysOk, AllCanEnd, LinksOk;
    SysLinks(s, except);
  }

  lemma {:induction false} UndoingParts(s0: Sys, s: Sys, j: JobId, t: TxnId)
    requires Undoing(s0, s, j, t)
    ensures Calm(s) && Frame(s0, s, {t}) && s.holds == s0.holds && t in s.txns && s.txns[t].aborting && t in s0.txns
    ensures SameBlame(s0, s, t) && Good(s, j, t) == Good(s0, j, t) && Undone(s, s0.txns[t].members - s.txns[t].members, Good(s, j, t))
  {
    hide Calm, Frame, Undone, LinksOk, Doomed;
  }

  lemma {:induction false} UndoneSame(s: Sys, s': Sys, ms: set<JobId>, good: set<JobId>)
    requires Undone(s, ms, good) && s'.commits == s.commits && s'.aborts == s.aborts
    ensures Undone(s', ms, good)
  {}

  /** The abort is over once the reference taken at its start is given back. */
  lemma {:induction false} UndoEnd(s0: Sys, s1: Sys, s2: Sys, j: JobId, t: TxnId, except: set<JobId>, blame: Option<Blame>)
    requires Abortable(s0, j, t, except, blame) && Frame(s0, s1, {t}) && s1.holds == s0.holds + multiset{j} && t in s1.txns
    requires Undoing(s1, s2, j, t) && s2.txns[t].members == {} && s1.txns[t].members == s0.txns[t].members
    ensures SysOk(s2, {}) && j in s2.jobs && s2.holds[j] > 0
    ensures SysOk(Unreffed(s2, j), {}) ==> Calm(Unreffed(s2, j)) && Frame(s0, Unreffed(s2, j), {})
    ensures Unreffed(s2, j).holds == s0.holds
    ensures Undone(Unreffed(s2, j), s0.txns[t].members, Good(s1, j, t)) && s2.txns[t].aborting
  {
    hide SysOk, Calm, Frame, Undoing, Abortable, LinksOk, Undone;
    AbortableParts(s0, j, t, except, blame);
    UndoingParts(s1, s2, j, t);
    FrameTrans(s0, s1, s2, {t}, {t});
    CalmOk(s2);
    HeldIsThere(s2, j);
    UnreffedOk(s2, j, {});
    var s3 := Unreffed(s2, j);
    SysLinks(s2, {});
    UnrefFrame(s2, j);
    FrameTrans(s0, s2, s3, {t}, {});
    FrameClose(s0, s3, t);
    CalmBy(s3);
    UndoneSame(s2, s3, s1.txns[t].members - s2.txns[t].members, Good(s2, j, t));
    assert s1.txns[t].members - s2.txns[t].members == s0.txns[t].members;
  }

  // ----- the end of a job's run -----

  /** A job that failed, or was cancelled, can start the abort of its transaction. */
  lemma {:induction false} FailAbortable(s: Sys, j: JobId, t: TxnId)
    requires Calm(s) && j in s.jobs && s.jobs[j].txn == Some(t) && t in s.txns && !s.txns[t].aborting
    requires (s.jobs[j].ret != 0 || s.jobs[j].forceCancel) && Ended(s, j, t)
    ensures Allowed(s.jobs[j].status, Aborting) && RcUpdated(s.jobs[j]).status.Aborting?
    ensures Abortable(Put(s, j, RcUpdated(s.jobs[j])), j, t, {j}, None)
  {
    hide SysOk, Calm, MemberOk, JobOk;
    CalmOk(s);
    FailStarted(s, j, t);
    Member(s, j, t);
    FailAlone(s, j, t);
    AbortableBy(Put(s, j, RcUpdated(s.jobs[j])), j, t);
  }

  lemma {:induction false} AbortableBy(s: Sys, j: JobId, t: TxnId)
    requires SysOk(s, {j}) && (forall u :: u in s.txns ==> !s.txns[u].finalizing)
    requires j in s.jobs && s.jobs[j].txn == Some(t) && t in s.txns && !s.txns[t].aborting && j in s.txns[t].members
    requires s.jobs[j].status.Aborting? && forall m :: m in s.txns[t].members && m != j ==> m in s.jobs && !s.jobs[m].phase.NoCo?
    ensures Abortable(s, j, t, {j}, None)
  {
    hide SysOk;
  }

  /** The job's coroutine has returned; or the job never had one, and is alone and
      cancelled. */
  ghost predicate Ended(s: Sys, j: JobId, t: TxnId)
    requires j in s.jobs && t in s.txns
  {
    && !IsCompleted(s.jobs[j].status)
    && (s.jobs[j].phase.Returned? || (s.jobs[j].phase.NoCo? && s.jobs[j].forceCancel && s.txns[t].members == {j}))
  }

  lemma {:induction false} FailStarted(s: Sys, j: JobId, t: TxnId)
    requires SysOk(s, {}) && j in s.jobs && s.jobs[j].txn == Some(t) && t in s.txns && !s.txns[t].aborting && Ended(s, j, t)
    ensures forall m :: m in s.txns[t].members && m != j ==> m in s.jobs && !s.jobs[m].phase.NoCo?
  {
    hide SysOk, CountsOk, HistoryOk, EachFits, JobOk;
    Parts(s, {}, t);
    forall m | m in s.txns[t].members && m != j ensures m in s.jobs && !s.jobs[m].phase.NoCo? {
      assert Alike(s.jobs[m], s.jobs[j]);
    }
  }

  lemma {:induction false} CompletedCases(s: Sys, j: JobId, t: TxnId)
    requires Calm(s) && j in s.jobs && s.jobs[j].txn == Some(t) && t in s.txns && Ended(s, j, t)
    ensures s.jobs[j].ret != 0 || s.jobs[j].forceCancel ==> Allowed(s.jobs[j].status, Aborting)
    ensures RcUpdated(s.jobs[j]).ret != 0 <==> s.jobs[j].ret != 0 || s.jobs[j].forceCancel
    ensures RcUpdated(s.jobs[j]).txn == Some(t)
    ensures LinksOk(s) && Frame(s, Put(s, j, RcUpdated(s.jobs[j])), {})
    ensures s.txns[t].aborting ==> RcUpdated(s.jobs[j]).status.Aborting? && Calm(Put(s, j, RcUpdated(s.jobs[j])))
    ensures RcUpdated(s.jobs[j]).ret != 0 && !s.txns[t].aborting ==>
              RcUpdated(s.jobs[j]).status.Aborting? && Abortable(Put(s, j, RcUpdated(s.jobs[j])), j, t, {j}, None)
    ensures RcUpdated(s.jobs[j]).ret == 0 ==>
              Put(s, j, RcUpdated(s.jobs[j])) == s && !s.txns[t].aborting && !s.jobs[j].forceCancel && s.jobs[j].ret == 0
  {
    hide SysOk, Calm, Frame, JobOk, Abortable, LinksOk, MemberOk, Allowed, Entered, RcUpdated;
    CalmOk(s);
    SysLinks(s, {});
    RcCases(s.jobs[j]);
    if s.txns[t].aborting {
      Member(s, j, t);
      AbortedHasCo(RoleOf(s, t, j), s.jobs[j]);
      FailInAbort(s, j, t);
      CalmBy(Put(s, j, RcUpdated(s.jobs[j])));
    } else if s.jobs[j].ret != 0 || s.jobs[j].forceCancel {
      FailAbortable(s, j, t);
    } else {
      assert Put(s, j, s.jobs[j]) == s;
    }
    PutFrame(s, j, RcUpdated(s.jobs[j]));
  }

  lemma {:induction false} AbortedHasCo(r: Role, b: Job)
    requires MemberOk(r, b) && !r.Free? && !r.Closing? && !IsCompleted(b.status)
    ensures !b.phase.NoCo?
  {}

  lemma {:induction false} RcCases(b: Job)
    ensures RcUpdated(b).ret != 0 <==> b.ret != 0 || b.forceCancel
    ensures if b.ret != 0 || b.forceCancel then RcUpdated(b).status.Aborting? else RcUpdated(b) == b
    ensures RcUpdated(b).txn == b.txn
  {}

  // ----- holding a reference across an operation -----

  lemma {:induction false} Hold(s: Sys, j: JobId)
    requires Calm(s) && j in s.jobs
    ensures Calm(Reffed(s, j)) && Frame(s, Reffed(s, j), {}) && LinksOk(s)
  {
    hide SysOk, Frame, LinksOk, Calm;
    CalmOk(s);
    SysLinks(s, {});
    ReffedOk(s, j, {});
    CalmBy(Reffed(s, j));
    RefFrame(s, j);
  }

  lemma {:induction false} Release(s0: Sys, s: Sys, j: JobId)
    requires Calm(s0) && j in s0.jobs && Calm(s) && Frame(Reffed(s0, j), s, {}) && s.holds == s0.holds + multiset{j}
    ensures SysOk(s, {}) && j in s.jobs && s.holds[j] > 0
    ensures Calm(Unreffed(s, j)) && Frame(s0, Unreffed(s, j), {}) && Unreffed(s, j).holds == s0.holds
    ensures s.jobs[j].txn.Some? ==> j in Unreffed(s, j).jobs && Unreffed(s, j).jobs[j].status == s.jobs[j].status
  {
    hide SysOk, Frame, LinksOk, Calm;
    CalmOk(s);
    HeldIsThere(s, j);
    Hold(s0, j);
    FrameTrans(s0, Reffed(s0, j), s, {}, {});
    UnreffedOk(s, j, {});
    SysLinks(s, {});
    UnrefFrame(s, j);
    FrameTrans(s0, s, Unreffed(s, j), {}, {});
    CalmBy(Unreffed(s, j));
  }

  lemma {:induction false} ReturnedTxn(s: Sys, j: JobId)
    requires Calm(s) && j in s.jobs && s.jobs[j].phase.Returned?
    ensures s.jobs[j].txn.Some? && s.jobs[j].txn.value in s.txns && !IsCompleted(s.jobs[j].status)
  {
    hide SysOk, LinksOk;
    Sound(s, {}, j);
    Linked(s, {}, j);
  }

  /** A job of an aborting transaction stays in it while the event loop runs. */
  lemma {:induction false} SyncLoop(s0: Sys, s: Sys, j: JobId, t: TxnId)
    requires Calm(s0) && j in s0.jobs && s0.jobs[j].txn == Some(t) && t in s0.txns && s0.txns[t].aborting
    requires Calm(s) && Frame(s0, s, {})
    ensures j in s.jobs && s.jobs[j].txn == Some(t) && t in s.txns && s.txns[t].aborting && |Live(s.txns)| <= |Live(s0.txns)|
    ensures !IsCompleted(s.jobs[j].status) ==> s.jobs[j].phase.AtPause? || s.jobs[j].phase.Inside? || s.jobs[j].phase.Returned?
  {
    LiveShrinks(s0, s, {});
    hide SysOk, Calm, LinksOk;
    CalmOk(s0);
    Member(s0, j, t);
    assert Kept(s0, s, t);
    CalmParts(s, t, j);
  }

  lemma {:induction false} EndedRef(s: Sys, j: JobId, t: TxnId)
    requires j in s.jobs && t in s.txns && s.jobs[j].phase.Returned? && !IsCompleted(s.jobs[j].status)
    ensures Ended(Reffed(s, j), j, t)
  {}

  function PhaseRank(p: Phase): nat {
    match p
    case AtPause(_) => 3
    case Inside => 2
    case _ => 1
  }

  lemma {:induction false} HoldLinks(s: Sys)
    requires Calm(s)
    ensures LinksOk(s)
  {
    hide SysOk, LinksOk;
    SysLinks(s, {});
  }

  // ----- a transaction whose jobs all ran well -----

  lemma {:induction false} CompletedRet(s: Sys, t: TxnId, m: JobId)
    requires SysOk(s, {}) && t in s.txns && !s.txns[t].aborting && m in s.txns[t].members
    ensures m in s.jobs && s.jobs[m].txn == Some(t) && JobOk(s.jobs[m])
    ensures IsCompleted(s.jobs[m].status) ==>
              s.jobs[m].ret == 0 && !s.jobs[m].forceCancel && (s.jobs[m].status.Waiting? || s.jobs[m].status.Pending?)
  {
    hide SysOk;
    InTxn(s, {}, m, t);
    Member(s, m, t);
  }

  lemma {:induction false} WaitCalm(s: Sys, j: JobId, t: TxnId)
    requires Calm(s) && j in s.jobs && s.jobs[j].txn == Some(t)
    requires s.jobs[j].phase.Returned? && s.jobs[j].ret == 0 && !s.jobs[j].forceCancel
    ensures Allowed(s.jobs[j].status, Waiting) && t in s.txns && !s.txns[t].aborting && LinksOk(s)
    ensures SysOk(Put(s, j, Transitioned(s.jobs[j], Waiting)), {}) && Calm(Put(s, j, Transitioned(s.jobs[j], Waiting)))
    ensures Frame(s, Put(s, j, Transitioned(s.jobs[j], Waiting)), {})
  {
    hide SysOk, Calm, Frame, LinksOk;
    CalmOk(s);
    HoldLinks(s);
    WaitOk(s, j, t);
    CalmBy(Put(s, j, Transitioned(s.jobs[j], Waiting)));
    PutFrame(s, j, Transitioned(s.jobs[j], Waiting));
  }

  lemma {:induction false} AlikeIn(s: Sys, t: TxnId, a: JobId, b: JobId)
    requires SysOk(s, {}) && t in s.txns && !s.txns[t].aborting && a in s.txns[t].members && b in s.txns[t].members
    ensures a in s.jobs && b in s.jobs && Alike(s.jobs[a], s.jobs[b])
  {
    hide SysOk, JobOk, CountsOk, HistoryOk, EachFits, Alike;
    Parts(s, {}, t);
  }

  lemma {:induction false} AllRipe(s: Sys, j: JobId, t: TxnId)
    requires Calm(s) && j in s.jobs && s.jobs[j].txn == Some(t) && t in s.txns && !s.txns[t].aborting && s.jobs[j].status.Waiting?
    requires forall m :: m in s.txns[t].members ==> m in s.jobs && IsCompleted(s.jobs[m].status)
    ensures Ripe(s, t) && j in s.txns[t].members && forall m :: m in s.txns[t].members ==> m in s.jobs && s.jobs[m].status.Waiting?
  {
    hide SysOk, Calm, JobOk, MemberOk, Ripe;
    CalmOk(s);
    RipeBy(s, t);
    Member(s, j, t);
    forall m | m in s.txns[t].members ensures s.jobs[m].status.Waiting? {
      AlikeIn(s, t, j, m);
      CompletedRet(s, t, m);
    }
  }

  lemma {:induction false} PendingEnd(s0: Sys, s: Sys, t: TxnId)
    requires Calm(s0) && s.txns == s0.txns && t in s.txns && SysOk(s, s.txns[t].members) && Ripe(s, t) && !s.txns[t].aborting
    requires forall m :: m in s.txns[t].members ==> m in s.jobs && m in s0.jobs && s.jobs[m] == Transitioned(s0.jobs[m], Pending)
    ensures Calm(s) && forall m :: m in s.txns[t].members ==> m in s.jobs && s.jobs[m].txn == Some(t)
  {
    hide SysOk, Ripe, Transitioned;
    forall m | m in s.txns[t].members ensures s.jobs[m].status.Pending? { TransitionedStatus(s0.jobs[m], Pending); }
    PendingDone(s, t);
    forall m | m in s.txns[t].members ensures m in s.jobs && s.jobs[m].txn == Some(t) { InTxn(s, {}, m, t); }
  }

  lemma {:induction false} PendingFrame(s0: Sys, s1: Sys, s2: Sys, t: TxnId)
    requires LinksOk(s0) && Calm(s1) && Frame(s0, s1, {}) && Only(s1, s2, t) && s2.txns == s1.txns && t in s1.txns && !s1.txns[t].aborting
    ensures Frame(s0, s2, {})
  {
    hide Calm, Frame, LinksOk, Only;
    HoldLinks(s1);
    OnlyFrame(s1, s2, t);
    FrameClose(s1, s2, t);
    FrameTrans(s0, s1, s2, {}, {});
  }

  lemma {:induction false} FailedRecord(b: Job, rc: int)
    requires JobOk(b) && b.status.Pending? && rc != 0
    ensures JobOk(RcUpdated(b.(ret := rc))) && RcUpdated(b.(ret := rc)).status.Aborting?
    ensures RcUpdated(b.(ret := rc)).txn == b.txn && RcUpdated(b.(ret := rc)).refcnt == b.refcnt && Allowed(b.status, Aborting)
  {}

  /** Whom a failed .prepare of m lets job j off for, if anyone. */
  function BlameFor(j: JobId, m: JobId): Option<Blame> { if j == m then None else Some(Blame(j, m)) }

  /** A failed .prepare leaves a transaction that its finalizing job j can abort; j
      itself is doomed only if it is the one that failed. */
  lemma {:induction false} PrepareFailed(s: Sys, s': Sys, j: JobId, t: TxnId, m: JobId)
    requires Calm(s) && j in s.jobs && s.jobs[j].txn == Some(t) && t in s.txns && !s.txns[t].aborting
    requires forall k :: k in s.txns[t].members ==> k in s.jobs && s.jobs[k].status.Pending?
    requires Prepared(s, s', t, Some(m)) && s.rcs(m) != 0
    ensures Frame(s, s', {}) && Abortable(s', j, t, {m}, BlameFor(j, m)) && s'.txns == s.txns
    ensures j in s'.jobs && (Doomed(s'.jobs[j]) <==> j == m) && s'.jobs[j].txn == Some(t)
  {
    hide SysOk, Calm, Frame, JobOk, MemberOk, Fits, LinksOk, Entered;
    CalmOk(s);
    CompletedRet(s, t, m);
    Linked(s, {}, m);
    Widen(s, {}, {m});
    FailedRecord(s.jobs[m], s.rcs(m));
    var b := RcUpdated(s.jobs[m].(ret := s.rcs(m)));
    hide RcUpdated;
    PutOk(s, m, b, {m});
    PutFrame(s, m, b);
    Member(s, j, t);
    FailedAbortable(s, j, t, m, b);
  }

  /** What asking the drivers of t to prepare does: only the failing job changes. */
  ghost predicate Prepared(s: Sys, s': Sys, t: TxnId, failed: Option<JobId>) {
    if failed.None? then s' == s
    else && t in s.txns && failed.value in s.txns[t].members && failed.value in s.jobs
         && s' == Put(s, failed.value, RcUpdated(s.jobs[failed.value].(ret := s.rcs(failed.value))))
  }

  lemma {:induction false} FailedAbortable(s: Sys, j: JobId, t: TxnId, m: JobId, b: Job)
    requires SysOk(s, {}) && SysOk(Put(s, m, b), {m}) && (forall u :: u in s.txns ==> !s.txns[u].finalizing)
    requires j in s.jobs && s.jobs[j].txn == Some(t) && t in s.txns && !s.txns[t].aborting && j in s.txns[t].members
    requires forall k :: k in s.txns[t].members ==> k in s.jobs && s.jobs[k].status.Pending?
    requires m in s.txns[t].members && b.status.Aborting? && b.txn == Some(t) && s.rcs(m) != 0
    ensures Abortable(Put(s, m, b), j, t, {m}, BlameFor(j, m)) && (Doomed(Put(s, m, b).jobs[j]) <==> j == m)
  {
    hide SysOk, Entered;
    CompletedRet(s, t, j);
    CompletedRet(s, t, m);
    Member(s, j, t);
    Member(s, m, t);
    forall k | k in s.txns[t].members ensures !s.jobs[k].phase.NoCo? { CompletedRet(s, t, k); }
    hide JobOk, MemberOk;
  }

  lemma {:induction false} CommitOne(s: Sys, t: TxnId, m: JobId)
    requires SysOk(s, {}) && t in s.txns && !s.txns[t].aborting && s.txns[t].finalizing && m in s.txns[t].members
    ensures Finalizable(s, m, t) && !Doomed(s.jobs[m]) && Only(s, Finalized(s, m, t), t)
    ensures Finalized(s, m, t).txns == s.txns[t := s.txns[t].(members := s.txns[t].members - {m})]
    ensures Finalized(s, m, t).holds == s.holds && s.commits <= Finalized(s, m, t).commits
  {
    hide SysOk, JobOk, Only, Finalized;
    InTxn(s, {}, m, t);
    Member(s, m, t);
    FinalizableUpdate(s, m, t);
    FinalizedEffect(s, m, t);
    FinalizedOnly(s, m, t);
  }

  lemma {:induction false} CommitReady(s: Sys, j: JobId, t: TxnId)
    requires Calm(s) && j in s.jobs && t in s.txns && !s.txns[t].aborting
    requires forall m :: m in s.txns[t].members ==> m in s.jobs && s.jobs[m].status.Pending?
    ensures SysOk(Marked(Reffed(s, j), t, true), {})
  {
    hide SysOk, Calm;
    CalmOk(s);
    ReffedOk(s, j, {});
    MarkedOk(Reffed(s, j), t, true);
  }

  lemma {:induction false} MarkedOnly(s: Sys, t: TxnId, v: bool)
    requires t in s.txns
    ensures Only(s, Marked(s, t, v), t)
  {}

  lemma {:induction false} CommitDone(s0: Sys, s2: Sys, j: JobId, t: TxnId)
    requires Calm(s0) && j in s0.jobs && t in s0.txns && !s0.txns[t].aborting && SysOk(Marked(Reffed(s0, j), t, true), {})
    requires SysOk(s2, {}) && Only(Marked(Reffed(s0, j), t, true), s2, t) && s2.holds == s0.holds + multiset{j}
    requires s2.txns == s0.txns[t := s0.txns[t].(members := {}, finalizing := true)]
    ensures SysOk(Marked(s2, t, false), {}) && Calm(Marked(s2, t, false)) && Frame(Reffed(s0, j), Marked(s2, t, false), {})
  {
    hide SysOk, Calm, Frame, Only, LinksOk;
    MarkedOk(s2, t, false);
    CalmOk(s0);
    CalmBy(Marked(s2, t, false));
    var a := Reffed(s0, j);
    Hold(s0, j);
    HoldLinks(a);
    MarkedOnly(a, t, true);
    MarkedOnly(s2, t, false);
    OnlyTrans(a, Marked(a, t, true), s2, t);
    OnlyTrans(a, s2, Marked(s2, t, false), t);
    OnlyFrame(a, Marked(s2, t, false), t);
    FrameClose(a, Marked(s2, t, false), t);
  }

  lemma {:induction false} OnceEach(s: Sys)
    requires Calm(s)
    ensures forall m :: s.commits[m] + s.aborts[m] <= 1
  {
    hide SysOk, JobsOk, LinksOk, OrderOk, PathsOk;
    Books(s, {});
  }

  // ----- outcomes -----

  /** The first job of a list whose .prepare fails. */
  function FirstFailing(list: seq<JobId>, rcs: JobId -> int): (r: Option<JobId>)
    ensures r.None? <==> forall m :: m in list ==> rcs(m) == 0
    ensures r.Some? ==> r.value in list && rcs(r.value) != 0
  {
    if list == [] then None
    else
      assert list == [list[0]] + list[1..];
      if rcs(list[0]) != 0 then Some(list[0]) else FirstFailing(list[1..], rcs)
  }

  lemma {:induction false} FirstFailingAt(list: seq<JobId>, rcs: JobId -> int, k: nat)
    requires k < |list| && rcs(list[k]) != 0 && forall i :: 0 <= i < k ==> rcs(list[i]) == 0
    ensures FirstFailing(list, rcs) == Some(list[k])
    decreases k
  {
    if k > 0 { FirstFailingAt(list[1..], rcs, k - 1); }
  }

  /** How the jobs ms of t ended when finalization was asked of j: all committed, or,
      with a failed .prepare, all aborted but for a j that did not fail itself. */
  ghost predicate Finalization(s: Sys, ms: set<JobId>, t: TxnId, j: JobId, failed: Option<JobId>) {
    && t in s.txns && s.txns[t].members == {} && s.txns[t].aborting == failed.Some? && (failed.Some? ==> failed.value in ms)
    && forall m :: m in ms ==>
         if failed.None? || (m == j && failed.value != j) then s.commits[m] == 1 && s.aborts[m] == 0
         else s.aborts[m] == 1 && s.commits[m] == 0
  }

  /** The jobs all ended the same way. */
  ghost predicate OneSided(s: Sys, ms: set<JobId>) {
    || (forall m :: m in ms ==> s.commits[m] == 1 && s.aborts[m] == 0)
    || (forall m :: m in ms ==> s.aborts[m] == 1 && s.commits[m] == 0)
  }

  lemma {:induction false} OneSidedIff(s: Sys, ms: set<JobId>, t: TxnId, j: JobId, failed: Option<JobId>)
    requires Finalization(s, ms, t, j, failed) && j in ms
    ensures OneSided(s, ms) <==> failed == None || failed == Some(j)
  {
    if failed.Some? && failed.value != j {
      assert s.commits[j] == 1 && s.aborts[failed.value] == 1;
    }
  }

  lemma {:induction false} OrderThere(s: Sys, t: TxnId)
    requires SysOk(s, {}) && t in s.txns
    ensures t in s.order && Listed(s, t) == s.order[t] && ListOk(s.order[t], s.txns[t].members)
  {
    hide SysOk, JobsOk, LinksOk, CountsOk, PathsOk, ListOk;
    Books(s, {});
  }

  lemma {:induction false} ListedMember(s: Sys, t: TxnId, m: JobId)
    requires SysOk(s, {}) && t in s.txns && t in s.order && m in s.order[t]
    ensures m in s.txns[t].members && m in s.jobs
  {
    hide SysOk;
    OrderThere(s, t);
    InTxn(s, {}, m, t);
  }

  /** None fails to prepare exactly when the drivers of all members answer 0. */
  lemma {:induction false} NoneFailsIff(s: Sys, t: TxnId)
    requires SysOk(s, {}) && t in s.txns
    ensures FirstFailing(Listed(s, t), s.rcs).None? <==> forall m :: m in s.txns[t].members ==> s.rcs(m) == 0
  {
    hide SysOk;
    OrderThere(s, t);
  }

  lemma {:induction false} FailingRc(list: seq<JobId>, rcs: JobId -> int)
    ensures FirstFailing(list, rcs).Some? ==> rcs(FirstFailing(list, rcs).value) != 0
  {}

  lemma {:induction false} NoneFailing(list: seq<JobId>, rcs: JobId -> int)
    requires forall k :: 0 <= k < |list| ==> rcs(list[k]) == 0
    ensures FirstFailing(list, rcs) == None
  {}

  lemma {:induction false} RcSteps(s: Sys, j: JobId)
    requires j in s.jobs
    ensures var b := s.jobs[j];
      var b1 := if b.ret == 0 && b.forceCancel then b.(ret := -ECANCELED) else b;
      && RcUpdated(b) == (if b1.ret != 0 then Transitioned(b1, Aborting) else b1) && Put(s, j, b) == s && s.jobs[j := b] == s.jobs
      && Put(Put(s, j, b1), j, Transitioned(b1, Aborting)) == Put(s, j, Transitioned(b1, Aborting))
      && s.jobs[j := b1][j := Transitioned(b1, Aborting)] == s.jobs[j := Transitioned(b1, Aborting)]
  {
    hide Entered, Transitioned;
  }

  lemma {:induction false} PreparePut(s: Sys, m: JobId)
    requires m in s.jobs
    ensures var b := s.jobs[m].(ret := s.rcs(m)); Put(Put(s, m, b), m, RcUpdated(b)) == Put(s, m, RcUpdated(b))
  {
    hide RcUpdated, Entered;
    var b := s.jobs[m].(ret := s.rcs(m));
    assert s.jobs[m := b][m := RcUpdated(b)] == s.jobs[m := RcUpdated(b)];
  }

  lemma {:induction false} PrepareSame(s: Sys, m: JobId)
    requires m in s.jobs && s.rcs(m) == 0 && s.jobs[m].ret == 0 && !s.jobs[m].forceCancel
    ensures var b := s.jobs[m].(ret := s.rcs(m)); Put(Put(s, m, b), m, RcUpdated(b)) == s
  {
    PreparePut(s, m);
    assert s.jobs[m := s.jobs[m]] == s.jobs;
  }

  /** The other jobs of t have run. */
  ghost predicate OthersRan(s: Sys, j: JobId, t: TxnId) {
    t in s.txns && forall m :: m in s.txns[t].members && m != j ==> m in s.jobs && IsCompleted(s.jobs[m].status)
  }

  ghost predicate Manual(s: Sys, t: TxnId) {
    t in s.txns && exists m :: m in s.txns[t].members && m in s.jobs && !s.jobs[m].autoFinalize
  }

  /** What the good end of job j's run leads to: it waits for the others; or all are
      pending; or, if nobody has to finalize by hand, they are finalized. */
  ghost predicate RanWell(s: Sys, s': Sys, j: JobId, t: TxnId, failed: Option<JobId>)
    requires j in s.jobs && t in s.txns
  {
    if !OthersRan(s, j, t) then s' == Put(s, j, Transitioned(s.jobs[j], Waiting))
    else if Manual(s, t) then
      && s'.txns == s.txns && s'.order == s.order
      && forall m :: m in s.txns[t].members ==> m in s'.jobs && s'.jobs[m].status.Pending?
    else failed == FirstFailing(Listed(s, t), s.rcs) && Finalization(s', s.txns[t].members, t, j, failed)
  }

  lemma {:induction false} StillThere(s: Sys, s': Sys, j: JobId, t: TxnId, failed: Option<JobId>)
    requires Calm(s) && j in s.jobs && s.jobs[j].txn == Some(t) && t in s.txns && j in s'.jobs && Calm(s')
    requires RanWell(Reffed(s, j), s', j, t, failed)
    ensures s.jobs[j].refcnt > 0 && (Manual(s, t) && OthersRan(s, j, t) ==> s'.jobs[j].txn.Some?)
  {
    hide SysOk, FirstFailing, Finalization, Entered;
    Sound(s, {}, j);
    Member(s, j, t);
    assert OthersRan(Reffed(s, j), j, t) == OthersRan(s, j, t);
    ManualHeld(s, j, t);
    if Manual(s, t) && OthersRan(s, j, t) { InTxn(s', {}, j, t); }
  }

  /** The reference that job_exit holds makes no difference. */
  lemma {:induction false} RanWellHeld(s: Sys, s': Sys, j: JobId, t: TxnId, failed: Option<JobId>)
    requires j in s.jobs && t in s.txns && s.jobs[j].refcnt > 0 && RanWell(Reffed(s, j), s', j, t, failed) && j in s'.jobs
    requires s'.jobs[j].txn.Some? ==> j in Unreffed(s', j).jobs && Unreffed(s', j).jobs[j].status == s'.jobs[j].status
    requires Manual(s, t) && OthersRan(s, j, t) ==> s'.jobs[j].txn.Some?
    ensures RanWell(s, Unreffed(s', j), j, t, failed)
  {
    hide FirstFailing, Entered;
    assert OthersRan(Reffed(s, j), j, t) == OthersRan(s, j, t);
    assert Manual(Reffed(s, j), t) == Manual(s, t) by { ManualHeld(s, j, t); }
    if !OthersRan(s, j, t) { WaitHeld(s, j); }
  }

  lemma {:induction false} ManualHeld(s: Sys, j: JobId, t: TxnId)
    requires j in s.jobs
    ensures Manual(Reffed(s, j), t) == Manual(s, t)
  {
    if m: JobId :| t in s.txns && m in s.txns[t].members && m in s.jobs && !s.jobs[m].autoFinalize {
      assert !Reffed(s, j).jobs[m].autoFinalize;
    }
    if m: JobId :| t in s.txns && m in s.txns[t].members && m in s.jobs && !Reffed(s, j).jobs[m].autoFinalize {
      assert !s.jobs[m].autoFinalize;
    }
  }

  lemma {:induction false} WaitHeld(s: Sys, j: JobId)
    requires j in s.jobs && s.jobs[j].refcnt > 0
    ensures var a := Reffed(s, j);
      Unreffed(Put(a, j, Transitioned(a.jobs[j], Waiting)), j) == Put(s, j, Transitioned(s.jobs[j], Waiting))
  {
    hide Entered, Transitioned;
    var a := Reffed(s, j);
    WaitRecordHeld(s.jobs[j]);
    var w, w' := Transitioned(s.jobs[j], Waiting), Transitioned(a.jobs[j], Waiting);
    assert a.jobs[j := w'] == s.jobs[j := w'] && s.jobs[j := w'][j := w] == s.jobs[j := w];
    assert s.holds + multiset{j} - multiset{j} == s.holds;
  }

  lemma {:induction false} WaitRecordHeld(b: Job)
    ensures var w, w' := Transitioned(b, Waiting), Transitioned(b.(refcnt := b.refcnt + 1), Waiting);
      w.status == w'.status == Waiting && w'.refcnt == b.refcnt + 1 && w'.(refcnt := b.refcnt) == w
  {}

  /** A job that left its transaction, if still there, is completed. */
  lemma {:induction false} OutIsCompleted(s: Sys, j: JobId, t: TxnId)
    requires Calm(s) && j in s.jobs && j in s.txnOf && s.txnOf[j] == t && t in s.txns && s.txns[t].members == {}
    ensures IsCompleted(s.jobs[j].status)
  {
    hide SysOk, CountsOk, OrderOk, PathsOk;
    Books(s, {});
    assert s.jobs[j].txn.None?;
    assert JobOk(s.jobs[j]);
  }

  lemma {:induction false} RanIsCompleted(s: Sys, s': Sys, j: JobId, t: TxnId, failed: Option<JobId>)
    requires Calm(s) && j in s.jobs && s.jobs[j].txn == Some(t) && t in s.txns && RanWell(s, s', j, t, failed)
    requires Calm(s') && s'.txnOf == s.txnOf
    ensures j in s'.jobs ==> IsCompleted(s'.jobs[j].status)
  {
    hide Calm, SysOk, JobOk, MemberOk, OthersRan, Manual;
    CalmOk(s);
    Member(s, j, t);
    if OthersRan(s, j, t) && !Manual(s, t) && j in s'.jobs { OutIsCompleted(s', j, t); }
  }

  lemma {:induction false} FrameSame(s: Sys, s': Sys)
    requires Frame(s, s', {})
    ensures s'.txnOf == s.txnOf
  {}

  lemma {:induction false} AbortIsCompleted(s: Sys, s': Sys, j: JobId, t: TxnId)
    requires Calm(s) && j in s.jobs && s.jobs[j].txn == Some(t) && Frame(s, s', {}) && Calm(s')
    requires j in s'.jobs && t in s'.txns && s'.txns[t].members == {}
    ensures IsCompleted(s'.jobs[j].status)
  {
    hide Calm, SysOk, JobOk, MemberOk, Frame;
    FrameSame(s, s');
    CalmOk(s);
    Member(s, j, t);
    OutIsCompleted(s', j, t);
  }
}
