/**
 How single steps of jobs and of whole transactions keep the invariant, and what
 they leave alone in the other transactions.
 */
module JobSteps {
  import opened Basics
  import opened JobState
  import opened JobOps

  // ----- a job whose coroutine moves on -----

  lemma {:induction false} CoFits(s: Sys, j: JobId, b: Job)
    requires LinksOk(s) && j in s.jobs && s.jobs[j].txn.Some? && TxnOk(s, s.jobs[j].txn.value, {})
    requires !IsCompleted(s.jobs[j].status) && !IsCompleted(b.status) && b.forceCancel == s.jobs[j].forceCancel
    requires b.phase.NoCo? == s.jobs[j].phase.NoCo? && b.txn == s.jobs[j].txn
    ensures Fits(s, j, b, {})
  {
    hide HistoryOk;
    var t := b.txn.value;
    assert MemberOk(RoleOf(s, t, j), s.jobs[j]);
  }

  /** A step of an unfinished job that does not finish it. */
  lemma {:induction false} CoOk(s: Sys, j: JobId, b: Job)
    requires SysOk(s, {}) && j in s.jobs && JobOk(b) && b.txn == s.jobs[j].txn && b.refcnt == s.jobs[j].refcnt
    requires !IsCompleted(s.jobs[j].status) && !IsCompleted(b.status) && b.forceCancel == s.jobs[j].forceCancel
    requires b.phase.NoCo? == s.jobs[j].phase.NoCo? && (b.status == s.jobs[j].status || Allowed(s.jobs[j].status, b.status))
    ensures SysOk(Put(s, j, b), {})
  {
    hide SysOk, LinksOk, TxnOk, Fits, Allowed;
    Sound(s, {}, j);
    Linked(s, {}, j);
    Parts(s, {}, s.jobs[j].txn.value);
    CoFits(s, j, b);
    PutOk(s, j, b, {});
  }

  lemma {:induction false} Linked(s: Sys, except: set<JobId>, j: JobId)
    requires SysOk(s, except) && j in s.jobs
    ensures LinksOk(s) && (s.jobs[j].txn.Some? ==> s.jobs[j].txn.value in s.txns)
  {
    hide SysOk, JobsOk, CountsOk, OrderOk, PathsOk;
    Books(s, except);
  }

  /** A change that touches neither status, phase nor force_cancel. */
  lemma {:induction false} SameOk(s: Sys, j: JobId, b: Job)
    requires SysOk(s, {}) && j in s.jobs && JobOk(b) && b.txn == s.jobs[j].txn && b.refcnt == s.jobs[j].refcnt
    requires b.status == s.jobs[j].status && b.phase == s.jobs[j].phase && b.forceCancel == s.jobs[j].forceCancel
    ensures SysOk(Put(s, j, b), {})
  {
    hide SysOk, LinksOk, JobOk, TxnOk, Fits;
    Linked(s, {}, j);
    if b.txn.Some? {
      Parts(s, {}, b.txn.value);
      SameFits(s, j, b, {});
    }
    PutOk(s, j, b, {});
  }

  lemma {:induction false} Sound(s: Sys, except: set<JobId>, j: JobId)
    requires SysOk(s, except) && j in s.jobs
    ensures JobOk(s.jobs[j]) && j in s.txnOf && s.jobs[j].refcnt > 0
  {
    hide SysOk, JobOk, LinksOk, CountsOk, OrderOk, PathsOk;
    Books(s, except);
  }

  /** What the invariant says of a job that has not been finalized. */
  lemma {:induction false} Member(s: Sys, j: JobId, t: TxnId)
    requires SysOk(s, {}) && j in s.jobs && s.jobs[j].txn == Some(t)
    ensures JobOk(s.jobs[j]) && t in s.txns && j in s.txns[t].members && j in s.txnOf && s.txnOf[j] == t
    ensures MemberOk(RoleOf(s, t, j), s.jobs[j])
  {
    hide SysOk, JobOk, MemberOk, CountsOk, HistoryOk, AllAlike, OrderOk, PathsOk;
    Books(s, {});
    Parts(s, {}, t);
  }

  /** A job whose run failed or was cancelled, in a transaction that is already aborting. */
  lemma {:induction false} FailInAbort(s: Sys, j: JobId, t: TxnId)
    requires SysOk(s, {}) && j in s.jobs && s.jobs[j].txn == Some(t) && t in s.txns && s.txns[t].aborting
    requires !IsCompleted(s.jobs[j].status) && s.jobs[j].phase.Returned?
    ensures s.jobs[j].forceCancel && RcUpdated(s.jobs[j]).status.Aborting? && Allowed(s.jobs[j].status, Aborting)
    ensures SysOk(Put(s, j, RcUpdated(s.jobs[j])), {})
  {
    hide SysOk, LinksOk;
    Member(s, j, t);
    Linked(s, {}, j);
    RcUpdatedOk(s.jobs[j]);
    PutOk(s, j, RcUpdated(s.jobs[j]), {});
  }

  lemma {:induction false} Widen(s: Sys, except: set<JobId>, more: set<JobId>)
    requires SysOk(s, except) && except <= more
    ensures SysOk(s, more)
  {
    hide SysOk, JobsOk, LinksOk, CountsOk, OrderOk, PathsOk, HistoryOk, MemberOk, Alike;
    Books(s, except);
    forall t | t in s.txns ensures TxnOk(s, t, more) { Parts(s, except, t); }
    SysOkBy(s, more);
  }

  /** ... in a transaction that is not aborting yet: the job becomes an exception. */
  lemma {:induction false} FailAlone(s: Sys, j: JobId, t: TxnId)
    requires SysOk(s, {}) && j in s.jobs && s.jobs[j].txn == Some(t) && (s.jobs[j].ret != 0 || s.jobs[j].forceCancel)
    requires !s.jobs[j].phase.Inside? && !s.jobs[j].phase.AtPause?
    ensures RcUpdated(s.jobs[j]).status.Aborting? && Allowed(s.jobs[j].status, Aborting)
    ensures SysOk(Put(s, j, RcUpdated(s.jobs[j])), {j})
  {
    hide SysOk, LinksOk;
    Member(s, j, t);
    RcUpdatedOk(s.jobs[j]);
    hide JobOk, MemberOk;
    Linked(s, {}, j);
    Widen(s, {}, {j});
    PutOk(s, j, RcUpdated(s.jobs[j]), {j});
  }

  lemma {:induction false} WaitRecord(b: Job)
    requires JobOk(b) && b.ret == 0 && b.phase.Returned?
    ensures JobOk(Transitioned(b, Waiting)) && Allowed(b.status, Waiting) && !IsCompleted(b.status)
  {}

  lemma {:induction false} WaitFits(s: Sys, j: JobId, b: Job)
    requires LinksOk(s) && j in s.jobs && s.jobs[j].txn.Some? && b.txn == s.jobs[j].txn && TxnOk(s, b.txn.value, {})
    requires !s.jobs[j].forceCancel && !IsCompleted(s.jobs[j].status) && !s.jobs[j].phase.NoCo?
    requires b.status.Waiting? && b.phase.Gone? && !b.forceCancel
    ensures !s.txns[b.txn.value].aborting && Fits(s, j, b, {})
  {
    hide HistoryOk;
    var t := b.txn.value;
    assert MemberOk(RoleOf(s, t, j), s.jobs[j]);
  }

  /** A job that ran to a good end waits for the rest of its transaction. */
  lemma {:induction false} WaitOk(s: Sys, j: JobId, t: TxnId)
    requires SysOk(s, {}) && j in s.jobs && s.jobs[j].txn == Some(t) && s.jobs[j].ret == 0 && !s.jobs[j].forceCancel
    requires s.jobs[j].phase.Returned?
    ensures t in s.txns && !s.txns[t].aborting && Allowed(s.jobs[j].status, Waiting)
    ensures SysOk(Put(s, j, Transitioned(s.jobs[j], Waiting)), {})
  {
    hide SysOk, JobsOk, LinksOk, CountsOk, TxnOk, MemberOk, JobOk, Fits;
    Member(s, j, t);
    Parts(s, {}, t);
    WaitRecord(s.jobs[j]);
    var b := Transitioned(s.jobs[j], Waiting);
    WaitFits(s, j, b);
    PutOk(s, j, b, {});
  }

  // ----- all jobs of a transaction together -----

  /** The jobs of t wait or are pending. */
  ghost predicate Ripe(s: Sys, t: TxnId) {
    t in s.txns && forall m :: m in s.txns[t].members ==>
      m in s.jobs && !s.jobs[m].forceCancel && (s.jobs[m].status.Waiting? || s.jobs[m].status.Pending?)
  }

  lemma {:induction false} RipeBy(s: Sys, t: TxnId)
    requires SysOk(s, {}) && t in s.txns && !s.txns[t].aborting
    requires forall m :: m in s.txns[t].members ==> m in s.jobs && IsCompleted(s.jobs[m].status)
    ensures Ripe(s, t)
  {
    hide SysOk, LinksOk;
    forall m | m in s.txns[t].members
      ensures !s.jobs[m].forceCancel && (s.jobs[m].status.Waiting? || s.jobs[m].status.Pending?)
    {
      Parts(s, {}, t);
      MemberTxn(s, t, m);
      Member(s, m, t);
    }
  }

  lemma {:induction false} MemberTxn(s: Sys, t: TxnId, m: JobId)
    requires LinksOk(s) && t in s.txns && m in s.txns[t].members
    ensures m in s.jobs && s.jobs[m].txn == Some(t)
  {}

  lemma {:induction false} PendingRecord(b: Job)
    requires JobOk(b) && b.status.Waiting?
    ensures JobOk(Transitioned(b, Pending)) && Allowed(b.status, Pending)
  {}

  lemma {:induction false} PendingStep(s: Sys, t: TxnId, m: JobId)
    requires t in s.txns && SysOk(s, s.txns[t].members) && Ripe(s, t) && m in s.txns[t].members && s.jobs[m].status.Waiting?
    ensures SysOk(Put(s, m, Transitioned(s.jobs[m], Pending)), s.txns[t].members)
    ensures Ripe(Put(s, m, Transitioned(s.jobs[m], Pending)), t)
  {
    hide SysOk, JobsOk, LinksOk, CountsOk, TxnOk, Fits, MemberOk, JobOk;
    Sound(s, s.txns[t].members, m);
    Linked(s, s.txns[t].members, m);
    PendingRecord(s.jobs[m]);
    PutOk(s, m, Transitioned(s.jobs[m], Pending), s.txns[t].members);
  }

  lemma {:induction false} PendingFit(s: Sys, t: TxnId)
    requires JobsOk(s) && LinksOk(s) && Ripe(s, t) && !s.txns[t].aborting
    requires forall m :: m in s.txns[t].members ==> s.jobs[m].status.Pending?
    ensures MembersFit(s, t, {})
  {
    forall m | m in s.txns[t].members ensures MemberOk(RoleOf(s, t, m), s.jobs[m]) && s.jobs[m].phase.Gone? {
      assert JobOk(s.jobs[m]);
    }
    hide MemberOk, JobsOk, LinksOk;
  }

  /** When all of them are pending they fit each other again. */
  lemma {:induction false} PendingDone(s: Sys, t: TxnId)
    requires t in s.txns && SysOk(s, s.txns[t].members) && Ripe(s, t) && !s.txns[t].aborting
    requires forall m :: m in s.txns[t].members ==> s.jobs[m].status.Pending?
    ensures SysOk(s, {})
  {
    hide SysOk, JobsOk, LinksOk, CountsOk, OrderOk, PathsOk, HistoryOk, MembersFit, Ripe;
    Books(s, s.txns[t].members);
    PendingFit(s, t);
    TogetherOk(s, t);
  }

  /** If the members of t fit, they need not be exceptions. */
  lemma {:induction false} TogetherOk(s: Sys, t: TxnId)
    requires t in s.txns && SysOk(s, s.txns[t].members) && LinksOk(s) && MembersFit(s, t, {})
    ensures SysOk(s, {})
  {
    hide SysOk, JobsOk, LinksOk, CountsOk, OrderOk, PathsOk, HistoryOk, MembersFit;
    Books(s, s.txns[t].members);
    forall u | u in s.txns ensures TxnOk(s, u, {}) {
      Parts(s, s.txns[t].members, u);
      if u != t { Others(s, t, u); }
    }
    SysOkBy(s, {});
  }

  lemma {:induction false} Others(s: Sys, t: TxnId, u: TxnId)
    requires LinksOk(s) && t in s.txns && u in s.txns && u != t && MembersFit(s, u, s.txns[t].members)
    ensures MembersFit(s, u, {})
  {
    hide MemberOk, Alike;
    forall m | m in s.txns[u].members ensures m !in s.txns[t].members {
      assert s.jobs[m].txn == Some(u);
    }
  }

  // ----- the mark of a transaction being committed -----

  function Marked(s: Sys, t: TxnId, v: bool): Sys
    requires t in s.txns
  {
    s.(txns := s.txns[t := s.txns[t].(finalizing := v)])
  }

  lemma {:induction false} MarkedFit(s: Sys, t: TxnId, v: bool, u: TxnId)
    requires LinksOk(s) && t in s.txns && u in s.txns && MembersFit(s, u, {}) && !s.txns[t].aborting && LinksOk(Marked(s, t, v))
    requires if v then forall m :: m in s.txns[t].members ==> s.jobs[m].status.Pending? else s.txns[t].members == {}
    ensures MembersFit(Marked(s, t, v), u, {})
  {
    hide Alike, LinksOk;
    if u != t {
      hide MemberOk;
      assert forall m :: RoleOf(Marked(s, t, v), u, m) == RoleOf(s, u, m);
    }
  }

  lemma {:induction false} MarkedHistory(s: Sys, t: TxnId, v: bool, u: TxnId)
    requires t in s.txns && u in s.txns && HistoryOk(s, u) && !s.txns[t].aborting
    requires v || s.txns[t].members == {}
    ensures HistoryOk(Marked(s, t, v), u)
  {
    var s' := Marked(s, t, v);
    forall k | k in s.txnOf && s.txnOf[k] == u ensures SideOk(s', u, k) { assert SideOk(s, u, k); }
  }

  /** A transaction of pending jobs starts (or, empty, ends) to be committed. */
  lemma {:induction false} MarkedOk(s: Sys, t: TxnId, v: bool)
    requires SysOk(s, {}) && t in s.txns && !s.txns[t].aborting
    requires if v then forall m :: m in s.txns[t].members ==> m in s.jobs && s.jobs[m].status.Pending? else s.txns[t].members == {}
    ensures SysOk(Marked(s, t, v), {})
  {
    hide SysOk, JobsOk, LinksOk, CountsOk, OrderOk, PathsOk, MembersFit, HistoryOk;
    var s' := Marked(s, t, v);
    Books(s, {});
    MarkedLinks(s, t, v);
    MarkedJobs(s, t, v);
    MarkedBooks(s, t, v);
    forall u | u in s'.txns ensures TxnOk(s', u, {}) {
      Parts(s, {}, u);
      MarkedFit(s, t, v, u);
      MarkedHistory(s, t, v, u);
    }
    SysOkBy(s', {});
  }

  lemma {:induction false} MarkedLinks(s: Sys, t: TxnId, v: bool)
    requires t in s.txns && LinksOk(s)
    ensures LinksOk(Marked(s, t, v))
  {
    var s' := Marked(s, t, v);
    assert forall u :: u in s'.txns ==> s'.txns[u].members == s.txns[u].members;
  }

  lemma {:induction false} MarkedJobs(s: Sys, t: TxnId, v: bool)
    requires t in s.txns && JobsOk(s) && CountsOk(s)
    ensures JobsOk(Marked(s, t, v)) && CountsOk(Marked(s, t, v))
  {
    hide JobOk;
  }

  lemma {:induction false} MarkedBooks(s: Sys, t: TxnId, v: bool)
    requires t in s.txns && OrderOk(s) && PathsOk(s)
    ensures OrderOk(Marked(s, t, v)) && PathsOk(Marked(s, t, v))
  {
    hide ListOk, PathOk;
  }

  // ----- what an operation leaves alone -----

  /** An aborting transaction keeps its members, who stay completed once they are;
      a transaction that turns to abort is seen only with the abort over. */
  ghost predicate Kept(s: Sys, s': Sys, u: TxnId)
    requires u in s.txns && u in s'.txns
  {
    && (s.txns[u].aborting ==>
          && s'.txns[u] == s.txns[u] && SameBlame(s, s', u)
          && forall m :: m in s.txns[u].members && m in s.jobs ==>
               m in s'.jobs && (IsCompleted(s.jobs[m].status) ==> IsCompleted(s'.jobs[m].status)))
    && (!s.txns[u].aborting && s'.txns[u].aborting ==> s'.txns[u].members == {})
  }

  /** Histories only grow. */
  ghost predicate Grew(h: map<JobId, seq<Status>>, h': map<JobId, seq<Status>>) {
    forall j :: j in h ==> j in h' && h[j] <= h'[j]
  }

  lemma {:induction false} GrewSelf(h: map<JobId, seq<Status>>)
    ensures Grew(h, h)
  {}

  lemma {:induction false} GrewTrans(a: map<JobId, seq<Status>>, b: map<JobId, seq<Status>>, c: map<JobId, seq<Status>>)
    requires Grew(a, b) && Grew(b, c)
    ensures Grew(a, c)
  {}

  ghost predicate Frame(s: Sys, s': Sys, skip: set<TxnId>) {
    && s'.txns.Keys == s.txns.Keys && s'.txnOf == s.txnOf && Grew(s.history, s'.history)
    && s.commits <= s'.commits && s.aborts <= s'.aborts
    && s'.jobs.Keys <= s.jobs.Keys
    && forall u :: u in s.txns && u !in skip ==> Kept(s, s', u)
  }

  lemma {:induction false} FrameTrans(s1: Sys, s2: Sys, s3: Sys, a: set<TxnId>, b: set<TxnId>)
    requires Frame(s1, s2, a) && Frame(s2, s3, b) && LinksOk(s1) && b <= a
    ensures Frame(s1, s3, a)
  {
    forall u | u in s1.txns && u !in a ensures Kept(s1, s3, u) {
      assert Kept(s1, s2, u) && Kept(s2, s3, u);
    }
  }

  /** The two states differ only in transaction t, its jobs, and jobs in no transaction. */
  ghost predicate Only(s: Sys, s': Sys, t: TxnId) {
    && s'.txns.Keys == s.txns.Keys && s'.txnOf == s.txnOf && Grew(s.history, s'.history)
    && s.commits <= s'.commits && s.aborts <= s'.aborts
    && s'.jobs.Keys <= s.jobs.Keys
    && (forall u :: u in s.txns && u != t ==> s'.txns[u] == s.txns[u] && SameBlame(s, s', u))
    && forall k :: k in s.jobs && s.jobs[k].txn.Some? && s.jobs[k].txn != Some(t) ==>
         k in s'.jobs && s'.jobs[k] == s.jobs[k]
  }

  lemma {:induction false} OnlyGrew(s: Sys, s': Sys, t: TxnId)
    requires Only(s, s', t)
    ensures Grew(s.history, s'.history)
  {
    hide Grew;
  }

  lemma {:induction false} FrameGrew(s: Sys, s': Sys)
    requires Frame(s, s', {})
    ensures Grew(s.history, s'.history)
  {
    hide Grew, Kept;
  }

  lemma {:induction false} DismissedGrew(s: Sys, j: JobId)
    requires j in s.jobs
    ensures Grew(s.history, Dismissed(s, j).history)
  {
    hide Dismissed;
    DismissedEffect(s, j);
  }

  lemma {:induction false} OnlyFrame(s: Sys, s': Sys, t: TxnId)
    requires LinksOk(s) && Only(s, s', t)
    ensures Frame(s, s', {t})
  {
    forall u | u in s.txns && u != t ensures Kept(s, s', u) {
      assert forall m :: m in s.txns[u].members ==> m in s.jobs && s.jobs[m].txn == Some(u);
    }
  }

  lemma {:induction false} OnlyTrans(s1: Sys, s2: Sys, s3: Sys, t: TxnId)
    requires Only(s1, s2, t) && Only(s2, s3, t)
    ensures Only(s1, s3, t)
  {}

  lemma {:induction false} PutOnly(s: Sys, j: JobId, b: Job, t: TxnId)
    requires j in s.jobs && (s.jobs[j].txn.None? || s.jobs[j].txn == Some(t))
    ensures Only(s, Put(s, j, b), t)
  {}

  lemma {:induction false} PutOnlyMore(s0: Sys, s: Sys, j: JobId, b: Job, t: TxnId)
    requires Only(s0, s, t) && j in s.jobs && s.jobs[j].txn == Some(t)
    ensures Only(s0, Put(s, j, b), t)
  {
    hide Only;
    PutOnly(s, j, b, t);
    OnlyTrans(s0, s, Put(s, j, b), t);
  }

  lemma {:induction false} ConcludedOnly(s: Sys, j: JobId, t: TxnId)
    requires j in s.jobs && t in s.txns && s.jobs[j].txn == Some(t)
    ensures Only(s, ConcludedSys(s, j, t), t)
  {}

  lemma {:induction false} DismissedOnly(s: Sys, j: JobId, t: TxnId)
    requires j in s.jobs && s.jobs[j].txn.None?
    ensures Only(s, Dismissed(s, j), t)
  {
    hide Dismissed;
    DismissedEffect(s, j);
  }

  lemma {:induction false} FinalizedOnly(s: Sys, j: JobId, t: TxnId)
    requires j in s.jobs && t in s.txns && s.jobs[j].txn == Some(t)
    ensures Only(s, Finalized(s, j, t), t)
  {
    hide Only;
    var s1 := Put(s, j, RcUpdated(s.jobs[j]));
    PutOnly(s, j, RcUpdated(s.jobs[j]), t);
    var s2 := ConcludedSys(s1, j, t);
    ConcludedOnly(s1, j, t);
    OnlyTrans(s, s1, s2, t);
    DismissedOnly(s2, j, t);
    OnlyTrans(s, s2, Dismissed(s2, j), t);
  }

  lemma {:induction false} PutFrame(s: Sys, j: JobId, b: Job)
    requires j in s.jobs && (IsCompleted(s.jobs[j].status) ==> IsCompleted(b.status))
    ensures Frame(s, Put(s, j, b), {})
  {}

  lemma {:induction false} RefFrame(s: Sys, j: JobId)
    requires j in s.jobs
    ensures Frame(s, Reffed(s, j), {})
  {}

  lemma {:induction false} UnrefFrame(s: Sys, j: JobId)
    requires j in s.jobs && LinksOk(s) && (s.jobs[j].refcnt == 1 ==> s.jobs[j].txn.None?)
    ensures Frame(s, Unreffed(s, j), {})
  {
    var s' := Unreffed(s, j);
    assert Grew(s.history, s'.history);
    forall u | u in s.txns ensures Kept(s, s', u) {
      assert forall m :: m in s.txns[u].members ==> m in s.jobs && s.jobs[m].txn == Some(u);
    }
    hide LinksOk;
  }
}
