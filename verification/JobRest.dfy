/**
 Lemmas for the operations that users, block nodes and drivers call between two
 turns of the event loop.
 */
module JobRest {
  import opened Basics
  import opened JobState
  import opened JobOps
  import opened JobSteps
  import opened JobAbort

  /** An operation that leaves the other transactions alone ends at rest. */
  lemma {:induction false} RestAgain(s: Sys, s': Sys)
    requires AtRest(s) && Calm(s') && Frame(s, s', {}) && s'.holds == s.holds
    ensures AtRest(s')
  {
    hide Calm;
    forall t | t in s'.txns && s'.txns[t].aborting ensures s'.txns[t].members == {} {
      assert Kept(s, s', t);
    }
  }

  /** What is known of any job at rest. */
  lemma {:induction false} Resting(s: Sys, j: JobId)
    requires AtRest(s) && j in s.jobs
    ensures Calm(s) && SysOk(s, {}) && JobOk(s.jobs[j]) && !s.jobs[j].status.Null? && s.jobs[j].refcnt == 1
    ensures s.jobs[j].txn.Some? ==>
              var t := s.jobs[j].txn.value;
              t in s.txns && j in s.txns[t].members && !s.txns[t].aborting && MemberOk(Free, s.jobs[j])
  {
    hide SysOk, LinksOk, CountsOk, OrderOk, PathsOk, JobOk, MemberOk;
    Books(s, {});
    assert s.holds[j] == 0;
    if s.jobs[j].txn.Some? {
      Member(s, j, s.jobs[j].txn.value);
    }
  }

  // ----- the pause ledger -----

  datatype LedgerEvent = UserPause | UserResume | DrainBegin | DrainEnd | ErrorStop

  /** The checks of job_user_pause, job_user_resume, and of callers in block.c and
      the drivers: only open drained sections are ended, only running jobs have
      I/O errors. */
  predicate LedgerEnabled(b: Job, e: LedgerEvent) {
    match e
    case UserPause => VerbAllowed(VPause, b.status) && !b.userPaused
    case UserResume => b.userPaused && b.pauseCount > 0 && VerbAllowed(VResume, b.status)
    case DrainBegin => true
    case DrainEnd => b.drained > 0
    case ErrorStop => b.phase.Inside?
  }

  function LedgerAfter(b: Job, e: LedgerEvent): Job {
    match e
    case UserPause => b.(userPaused := true, pauseCount := b.pauseCount + 1)
    case UserResume => b.(ioError := false, userPaused := false, pauseCount := b.pauseCount - 1)
    case DrainBegin => b.(drained := b.drained + 1, pauseCount := b.pauseCount + 1)
    case DrainEnd => if b.drained > 0 then b.(drained := b.drained - 1, pauseCount := b.pauseCount - 1) else b
    case ErrorStop => if b.userPaused then b.(ioError := true)
                      else b.(ioError := true, userPaused := true, pauseCount := b.pauseCount + 1)
  }

  /** Every pause has one owner: resuming, by whoever paused, never finds the
      counter at zero, and an error is reset only under a user pause. */
  lemma {:induction false} LedgerAfterOk(b: Job, e: LedgerEvent)
    requires JobOk(b) && LedgerEnabled(b, e)
    ensures JobOk(LedgerAfter(b, e))
    ensures e.UserResume? || e.DrainEnd? ==> b.pauseCount > 0
    ensures e.UserResume? && b.ioError ==> b.userPaused && b.pauseCount > 0
    ensures LedgerAfter(b, e).pauseCount == Bit(b.phase.NoCo?) + Bit(LedgerAfter(b, e).userPaused) + LedgerAfter(b, e).drained
  {}

  lemma {:induction false} LedgerCalm(s: Sys, j: JobId, e: LedgerEvent)
    requires Calm(s) && j in s.jobs && LedgerEnabled(s.jobs[j], e)
    ensures var s' := Put(s, j, LedgerAfter(s.jobs[j], e));
      JobOk(s.jobs[j]) && Calm(s') && Frame(s, s', {})
  {
    hide SysOk, JobOk, Frame, Calm;
    CalmOk(s);
    Sound(s, {}, j);
    LedgerAfterOk(s.jobs[j], e);
    var b := LedgerAfter(s.jobs[j], e);
    SameOk(s, j, b);
    CalmBy(Put(s, j, b));
    PutFrame(s, j, b);
  }

  lemma {:induction false} LedgerRest(s: Sys, j: JobId, e: LedgerEvent)
    requires AtRest(s) && j in s.jobs && LedgerEnabled(s.jobs[j], e)
    ensures AtRest(Put(s, j, LedgerAfter(s.jobs[j], e)))
  {
    hide AtRest, Calm, Frame, LedgerAfter;
    RestCalm(s);
    LedgerCalm(s, j, e);
    RestAgain(s, Put(s, j, LedgerAfter(s.jobs[j], e)));
  }

  /** What can happen to a job while the event loop runs, but for its own exit. */
  ghost predicate Moves(b: Job, b': Job) {
    || (exists e :: CoEnabled(b, e) && b' == CoAfter(b, e))
    || (exists e :: LedgerEnabled(b, e) && b' == LedgerAfter(b, e))
  }

  /** A job that was never started does not get anywhere, and waiting for it to complete,
      as the abort of its transaction would, never ends. */
  lemma {:induction false} UnstartedStays(b: Job, b': Job)
    requires b.phase.NoCo? && Moves(b, b')
    ensures b'.phase == b.phase && b'.status == b.status
  {
    if e :| CoEnabled(b, e) && b' == CoAfter(b, e) {
      assert false;
    }
  }

  lemma {:induction false} UnstartedWaits(bs: seq<Job>, k: nat)
    requires k < |bs| && bs[0].phase.NoCo? && !IsCompleted(bs[0].status)
    requires forall i :: 0 < i < |bs| ==> Moves(bs[i - 1], bs[i])
    ensures bs[k].phase.NoCo? && !IsCompleted(bs[k].status)
    decreases k
  {
    if k > 0 {
      UnstartedWaits(bs, k - 1);
      assert Moves(bs[k - 1], bs[k]);
      hide Moves;
      UnstartedStays(bs[k - 1], bs[k]);
    }
  }

  // ----- dismissing -----

  lemma {:induction false} DismissRest(s: Sys, j: JobId)
    requires AtRest(s) && j in s.jobs && s.jobs[j].status.Concluded?
    ensures Dismissable(s.jobs[j]) && AtRest(Dismissed(s, j)) && j !in Dismissed(s, j).jobs
  {
    hide Calm, SysOk, MemberOk, Dismissed, Entered;
    Resting(s, j);
    hide JobOk;
    DismissedEffect(s, j);
    DismissedOk(s, j, {});
    CalmOk(s);
    CalmBy(Dismissed(s, j));
  }

  // ----- cancelling -----

  /** A job that is neither concluded nor done. */
  lemma {:induction false} CancelGoing(s: Sys, j: JobId, answer: bool)
    requires AtRest(s) && j in s.jobs && !IsCompleted(s.jobs[j].status)
    ensures Calm(Put(s, j, Cancelled(s.jobs[j], answer))) && Frame(s, Put(s, j, Cancelled(s.jobs[j], answer)), {})
    ensures s.jobs[j].txn.Some? && s.jobs[j].txn.value in s.txns
  {
    hide AtRest, Calm, SysOk, Frame, Fits, Cancelled, LinksOk, MemberOk;
    Resting(s, j);
    StatusFacts(s.jobs[j]);
    hide JobOk;
    var b := Cancelled(s.jobs[j], answer);
    CancelledOk(s.jobs[j], answer);
    CancelledSame(s.jobs[j], answer);
    CancelFits(s, j, b);
    PutOk(s, j, b, {});
    CalmOk(s);
    CalmBy(Put(s, j, b));
    PutFrame(s, j, b);
  }

  lemma {:induction false} CancelFits(s: Sys, j: JobId, b: Job)
    requires SysOk(s, {}) && j in s.jobs && s.jobs[j].txn.Some? && s.jobs[j].txn.value in s.txns
    requires !s.txns[s.jobs[j].txn.value].aborting && !IsCompleted(s.jobs[j].status)
    requires b.status == s.jobs[j].status && b.phase == s.jobs[j].phase && b.txn == s.jobs[j].txn
    ensures LinksOk(s) && Fits(s, j, b, {})
  {
    var t := s.jobs[j].txn.value;
    hide SysOk, JobOk, LinksOk;
    SysLinks(s, {});
    Member(s, j, t);
    assert MemberOk(RoleOf(s, t, j), b);
    hide MemberOk;
    forall m | m in s.txns[t].members && m != j ensures m in s.jobs && Alike(s.jobs[m], b) {
      AlikeIn(s, t, m, j);
    }
  }

  /** A job whose run is over, cancelled by force, takes its transaction down. */
  lemma {:induction false} CancelDone(s: Sys, j: JobId, answer: bool)
    requires AtRest(s) && j in s.jobs && Deferred(s.jobs[j]) && !s.jobs[j].status.Concluded?
    ensures s.jobs[j].txn.Some? && s.jobs[j].txn.value in s.txns && !s.txns[s.jobs[j].txn.value].aborting
    ensures Frame(s, Put(s, j, Cancelled(s.jobs[j], answer)), {}) && LinksOk(s) && Calm(s)
    ensures !answer && !s.jobs[j].forceCancel ==> Calm(Put(s, j, Cancelled(s.jobs[j], answer)))
    ensures answer || s.jobs[j].forceCancel ==>
              Abortable(Put(s, j, Cancelled(s.jobs[j], answer)), j, s.jobs[j].txn.value, {j}, None)
              && Doomed(Put(s, j, Cancelled(s.jobs[j], answer)).jobs[j])
  {
    hide AtRest, Calm, SysOk, Frame, Abortable, LinksOk;
    Resting(s, j);
    var b := Cancelled(s.jobs[j], answer);
    CancelledOk(s.jobs[j], answer);
    PutFrame(s, j, b);
    CalmOk(s);
    SysLinks(s, {});
    if answer || s.jobs[j].forceCancel {
      Widen(s, {}, {j});
      PutOk(s, j, b, {j});
      assert Doomed(b) && !b.phase.NoCo?;
      hide JobOk, MemberOk, Cancelled;
      DoneAbortable(s, j, s.jobs[j].txn.value, b);
    } else {
      SameOk(s, j, b);
      CalmBy(Put(s, j, b));
    }
  }

  /** What job_cancel does to a job: a concluded one is dismissed, one that never
      started is aborted, one whose run is over takes its transaction down if the
      cancellation is by force, and any other one is told. */
  ghost predicate CancelOutcome(s: Sys, s': Sys, j: JobId, answer: bool)
    requires j in s.jobs
  {
    var b := s.jobs[j];
    if b.status.Concluded? then s' == Dismissed(s, j)
    else if b.phase.NoCo? then s'.aborts[j] > 0
    else if Deferred(b) && (answer || b.forceCancel) then
      b.txn.Some? && b.txn.value in s.txns && Undone(s', s.txns[b.txn.value].members, {})
    else s' == Put(s, j, Cancelled(b, answer))
  }

  lemma {:induction false} DoneAbortable(s: Sys, j: JobId, t: TxnId, b: Job)
    requires SysOk(s, {}) && SysOk(Put(s, j, b), {j}) && (forall u :: u in s.txns ==> !s.txns[u].finalizing)
    requires j in s.jobs && t in s.txns && !s.txns[t].aborting && j in s.txns[t].members
    requires b.txn == Some(t) && Doomed(b) && !b.phase.NoCo? && !s.jobs[j].phase.NoCo? && b.status == s.jobs[j].status
    ensures Abortable(Put(s, j, b), j, t, {j}, None)
  {
    hide SysOk, Entered;
    forall m | m in s.txns[t].members && m != j ensures m in s.jobs && !s.jobs[m].phase.NoCo? {
      AlikeIn(s, t, m, j);
    }
  }

  // ----- starting the jobs of a transaction -----

  function Started(b: Job): Job { Transitioned(b, Running).(phase := Inside, pauseCount := b.pauseCount - 1, paused := false) }

  lemma {:induction false} StartedOk(b: Job)
    requires JobOk(b) && b.status.Created?
    ensures JobOk(Started(b)) && Allowed(b.status, Running) && b.phase.NoCo? && b.paused
  {}

  lemma {:induction false} StartedStatus(b: Job)
    ensures Started(b).status.Running? && Started(b).phase.Inside?
  {}

  lemma {:induction false} StartStep(s: Sys, t: TxnId, m: JobId)
    requires t in s.txns && SysOk(s, s.txns[t].members) && m in s.txns[t].members && m in s.jobs && s.jobs[m].status.Created?
    ensures SysOk(Put(s, m, Started(s.jobs[m])), s.txns[t].members) && JobOk(s.jobs[m])
  {
    hide SysOk, JobOk, Fits, LinksOk;
    Sound(s, s.txns[t].members, m);
    Linked(s, s.txns[t].members, m);
    StartedOk(s.jobs[m]);
    PutOk(s, m, Started(s.jobs[m]), s.txns[t].members);
  }

  lemma {:induction false} StartDone(s: Sys, t: TxnId)
    requires t in s.txns && SysOk(s, s.txns[t].members) && !s.txns[t].aborting && !s.txns[t].finalizing
    requires forall m :: m in s.txns[t].members ==> m in s.jobs && s.jobs[m].status.Running? && s.jobs[m].phase.Inside?
    ensures SysOk(s, {})
  {
    hide SysOk, JobsOk, LinksOk, CountsOk, OrderOk, PathsOk, HistoryOk;
    Books(s, s.txns[t].members);
    Parts(s, s.txns[t].members, t);
    assert MembersFit(s, t, {});
    hide MembersFit;
    TogetherOk(s, t);
  }

  lemma {:induction false} StartReady(s: Sys, t: TxnId)
    requires AtRest(s) && t in s.txns
    ensures SysOk(s, s.txns[t].members) && Only(s, s, t)
  {
    hide AtRest, SysOk, Calm, Only;
    RestCalm(s);
    CalmOk(s);
    Widen(s, {}, s.txns[t].members);
    Reflexive(s, t);
  }

  lemma {:induction false} StartEnd(s0: Sys, s: Sys, t: TxnId)
    requires AtRest(s0) && t in s.txns && SysOk(s, s.txns[t].members) && Only(s0, s, t) && s.txns == s0.txns && s.holds == s0.holds
    requires forall m :: m in s.txns[t].members ==> m in s.jobs && m in s0.jobs && s.jobs[m] == Started(s0.jobs[m])
    requires !s.txns[t].aborting
    ensures AtRest(s) && Grew(s0.history, s.history)
  {
    hide SysOk, Only, Started, Grew;
    forall m | m in s.txns[t].members ensures s.jobs[m].status.Running? && s.jobs[m].phase.Inside? { StartedStatus(s0.jobs[m]); }
    StartDone(s, t);
    StartRest(s0, s);
    OnlyGrew(s0, s, t);
  }

  // ----- creating a job -----

  function NewJob(t: TxnId, autoFinalize: bool, autoDismiss: bool): Job {
    Job(Created, 0, NoCo, true, 1, false, false, false, autoFinalize, autoDismiss, Some(t), 1, 0, false)
  }

  /** job_create and job_txn_add_job, which puts the job in front of the others. */
  function Joined(s: Sys, j: JobId, t: TxnId, b: Job): Sys {
    s.(jobs := s.jobs[j := b],
       txns := s.txns[t := if t in s.txns then s.txns[t].(members := s.txns[t].members + {j}) else Txn(false, false, {j})],
       order := s.order[t := [j] + Listed(s, t)],
       txnOf := s.txnOf[j := t],
       history := s.history[j := [Undefined, b.status]])
  }

  /** A transaction that is new or still being filled. */
  ghost predicate Filling(s: Sys, t: TxnId) {
    t in s.txns ==>
      && !s.txns[t].aborting && !s.txns[t].finalizing
      && (forall k :: k in s.txnOf && s.txnOf[k] == t ==> k in s.txns[t].members)
      && (forall m :: m in s.txns[t].members ==> m in s.jobs && s.jobs[m].status.Created? && s.jobs[m].phase.NoCo?)
  }

  ghost predicate Fresh(s: Sys, j: JobId, t: TxnId) {
    j !in s.txnOf && j !in s.jobs && Filling(s, t) && t !in s.mixed && s.holds[j] == 0
  }

  lemma {:induction false} JoinedJobs(s: Sys, j: JobId, t: TxnId, b: Job)
    requires JobsOk(s) && Fresh(s, j, t) && JobOk(b) && b.refcnt == 1 && b.status.Created?
    ensures JobsOk(Joined(s, j, t, b))
  {
    hide JobOk, Filling, Listed;
  }

  lemma {:induction false} JoinedLinks(s: Sys, j: JobId, t: TxnId, b: Job)
    requires LinksOk(s) && Fresh(s, j, t) && b.txn == Some(t)
    ensures LinksOk(Joined(s, j, t, b))
  {
    hide Listed;
  }

  lemma {:induction false} JoinedCounts(s: Sys, j: JobId, t: TxnId, b: Job)
    requires CountsOk(s) && Fresh(s, j, t) && b.status.Created?
    ensures CountsOk(Joined(s, j, t, b))
  {
    hide Filling, Listed;
    assert s.commits[j] + s.aborts[j] == 0;
  }

  lemma {:induction false} JoinedOrder(s: Sys, j: JobId, t: TxnId, b: Job)
    requires OrderOk(s) && LinksOk(s) && Fresh(s, j, t)
    ensures OrderOk(Joined(s, j, t, b))
  {
    var members := if t in s.txns then s.txns[t].members else {};
    assert j !in members;
    assert ListOk(Listed(s, t), members);
    hide ListOk, LinksOk, Filling;
    ConsOk(Listed(s, t), members, j);
    assert {} + {j} == {j};
  }

  lemma {:induction false} JoinedPaths(s: Sys, j: JobId, t: TxnId, b: Job)
    requires PathsOk(s) && Fresh(s, j, t) && b.status.Created?
    ensures PathsOk(Joined(s, j, t, b))
  {
    assert PathOk([Undefined, Created]) by { assert Allowed(Undefined, Created); }
    hide PathOk, Filling, Listed;
  }

  lemma {:induction false} JoinedOther(s: Sys, j: JobId, t: TxnId, b: Job, u: TxnId)
    requires LinksOk(s) && LinksOk(Joined(s, j, t, b)) && Fresh(s, j, t) && u != t && u in s.txns && MembersFit(s, u, {})
    ensures MembersFit(Joined(s, j, t, b), u, {})
  {
    hide MembersFit, Filling, Listed;
    assert j !in s.txns[u].members;
    assert forall m :: m in s.txns[u].members ==> m in s.jobs;
    hide LinksOk;
    SameMembersFit(s, Joined(s, j, t, b), u, {});
  }

  lemma {:induction false} JoinedSelf(s: Sys, j: JobId, t: TxnId, b: Job)
    requires LinksOk(Joined(s, j, t, b)) && Fresh(s, j, t) && b.status.Created? && b.phase.NoCo?
    ensures MembersFit(Joined(s, j, t, b), t, {})
  {
    hide Listed;
    var s' := Joined(s, j, t, b);
    assert forall m :: m in s'.txns[t].members ==> s'.jobs[m].status.Created? && s'.jobs[m].phase.NoCo?;
    assert !s'.txns[t].aborting && !s'.txns[t].finalizing;
    hide LinksOk, Filling, Joined;
  }

  lemma {:induction false} JoinedHistory(s: Sys, j: JobId, t: TxnId, b: Job, u: TxnId)
    requires LinksOk(s) && CountsOk(s) && Fresh(s, j, t)
    requires if u == t then t in s.txns ==> HistoryOk(s, t) else u in s.txns && HistoryOk(s, u)
    ensures HistoryOk(Joined(s, j, t, b), u)
  {
    hide Listed;
    var s' := Joined(s, j, t, b);
    assert s.commits[j] + s.aborts[j] == 0;
    forall k | k in s'.txnOf && s'.txnOf[k] == u ensures SideOk(s', u, k) {
      if k != j {
        assert u in s.txns && SideOk(s, u, k);
        if u == t { assert k in s.jobs && s.jobs[k].txn == Some(t) && s.commits[k] + s.aborts[k] == 0; }
      }
    }
    hide LinksOk, CountsOk, Filling, SideOk;
  }

  lemma {:induction false} JoinedOk(s: Sys, j: JobId, t: TxnId, b: Job)
    requires SysOk(s, {}) && Fresh(s, j, t)
    requires JobOk(b) && b.status.Created? && b.phase.NoCo? && b.txn == Some(t) && b.refcnt == 1
    ensures SysOk(Joined(s, j, t, b), {})
  {
    hide SysOk, Fresh, JobOk, JobsOk, LinksOk, CountsOk, OrderOk, PathsOk, MembersFit, HistoryOk, Listed;
    Books(s, {});
    JoinedJobs(s, j, t, b);
    JoinedLinks(s, j, t, b);
    JoinedCounts(s, j, t, b);
    JoinedOrder(s, j, t, b);
    JoinedPaths(s, j, t, b);
    var s' := Joined(s, j, t, b);
    forall u | u in s'.txns ensures TxnOk(s', u, {}) {
      if u in s.txns { Parts(s, {}, u); }
      if u == t { JoinedSelf(s, j, t, b); } else { JoinedOther(s, j, t, b, u); }
      JoinedHistory(s, j, t, b, u);
    }
    SysOkBy(s', {});
  }

  lemma {:induction false} JoinedRest(s: Sys, j: JobId, t: TxnId, b: Job)
    requires AtRest(s) && j !in s.txnOf && Filling(s, t)
    requires JobOk(b) && b.status.Created? && b.phase.NoCo? && b.txn == Some(t) && b.refcnt == 1
    ensures AtRest(Joined(s, j, t, b))
  {
    hide Filling, JobOk, SysOk;
    FreshBy(s, j, t);
    JoinedOk(s, j, t, b);
    JoinedMarks(s, j, t, b);
  }

  lemma {:induction false} JoinedGrew(s: Sys, j: JobId, t: TxnId, b: Job)
    requires AtRest(s) && j !in s.txnOf
    ensures Grew(s.history, Joined(s, j, t, b).history)
  {
    hide SysOk, JobsOk, LinksOk, CountsOk, OrderOk, Listed, PathOk;
    Books(s, {});
  }

  lemma {:induction false} JoinedFields(s: Sys, j: JobId, t: TxnId, b: Job)
    requires b.status.Created?
    ensures var s' := Joined(s, j, t, b);
      && s'.jobs == s.jobs[j := b] && s'.txnOf == s.txnOf[j := t] && s'.history == s.history[j := [Undefined, Created]]
      && s'.txns == s.txns[t := if t in s.txns then s.txns[t].(members := s.txns[t].members + {j}) else Txn(false, false, {j})]
      && s'.order == s.order[t := [j] + if t in s.order then s.order[t] else []]
      && s'.rcs == s.rcs && s'.commits == s.commits && s'.aborts == s.aborts && s'.mixed == s.mixed && s'.holds == s.holds
  {}

  lemma {:induction false} JoinedMarks(s: Sys, j: JobId, t: TxnId, b: Job)
    requires AtRest(s) && Fresh(s, j, t)
    ensures forall u :: u in Joined(s, j, t, b).txns ==> !Joined(s, j, t, b).txns[u].finalizing
    ensures forall u :: u in Joined(s, j, t, b).txns && Joined(s, j, t, b).txns[u].aborting ==> Joined(s, j, t, b).txns[u].members == {}
  {
    hide SysOk;
  }

  lemma {:induction false} FreshBy(s: Sys, j: JobId, t: TxnId)
    requires AtRest(s) && j !in s.txnOf && Filling(s, t)
    ensures Fresh(s, j, t) && SysOk(s, {})
  {
    hide SysOk, CountsOk, JobOk, OrderOk, PathsOk, MembersFit;
    Books(s, {});
    assert j !in s.jobs;
    if t in s.txns { Parts(s, {}, t); }
  }

  // ----- facts at rest -----

  lemma {:induction false} StatusFacts(b: Job)
    requires JobOk(b) && !b.status.Null?
    ensures b.status.Concluded? || b.txn.Some?
    ensures b.status.Pending? ==> b.txn.Some?
    ensures b.status.Created? ==> b.phase.NoCo? && b.txn.Some?
    ensures Deferred(b) && b.txn.Some? ==> !b.status.Concluded?
    ensures !b.phase.NoCo? && !Deferred(b) ==> !IsCompleted(b.status)
  {}

  lemma {:induction false} RestNoCo(s: Sys, j: JobId)
    requires AtRest(s) && j in s.jobs && s.jobs[j].phase.NoCo?
    ensures s.jobs[j].status.Created? || s.jobs[j].status.Concluded?
  {
    hide AtRest, SysOk, Calm;
    Resting(s, j);
  }

  lemma {:induction false} NewJobOk(t: TxnId, autoFinalize: bool, autoDismiss: bool)
    ensures var b := NewJob(t, autoFinalize, autoDismiss);
      JobOk(b) && b.status.Created? && b.phase.NoCo? && b.txn == Some(t) && b.refcnt == 1
  {}

  lemma {:induction false} StartRest(s: Sys, s': Sys)
    requires AtRest(s) && SysOk(s', {}) && s'.txns == s.txns && s'.holds == s.holds
    ensures AtRest(s')
  {
    hide SysOk;
  }

  /** A job cancelled before it was started has run its course. */
  lemma {:induction false} CancelEnds(s: Sys, j: JobId, answer: bool)
    requires AtRest(s) && j in s.jobs && s.jobs[j].status.Created? && s.jobs[j].txn.Some? && answer
    requires s.jobs[j].txn.value in s.txns && s.txns[s.jobs[j].txn.value].members == {j}
    ensures Ended(Put(s, j, Cancelled(s.jobs[j], answer)), j, s.jobs[j].txn.value)
    ensures Cancelled(s.jobs[j], answer).forceCancel && Cancelled(s.jobs[j], answer).txn == s.jobs[j].txn
    ensures !s.txns[s.jobs[j].txn.value].aborting
  {
    hide AtRest, SysOk, Calm;
    Resting(s, j);
  }

  lemma {:induction false} PendingAll(s: Sys, j: JobId)
    requires AtRest(s) && j in s.jobs && s.jobs[j].status.Pending? && s.jobs[j].txn.Some? && s.jobs[j].txn.value in s.txns
    ensures forall m :: m in s.txns[s.jobs[j].txn.value].members ==> m in s.jobs && s.jobs[m].status.Pending?
  {
    hide AtRest, SysOk, Calm, JobOk, MemberOk;
    Resting(s, j);
    forall m | m in s.txns[s.jobs[j].txn.value].members ensures m in s.jobs && s.jobs[m].status.Pending? {
      AlikeIn(s, s.jobs[j].txn.value, j, m);
    }
  }

  lemma {:induction false} RestCalm(s: Sys)
    requires AtRest(s)
    ensures Calm(s)
  {
    hide Calm;
  }

  /** How a transaction stands between operations: with jobs left, none of its jobs has
      been committed, aborted or has left; with none left, all are committed, or all
      aborted, or it has been split by a good job, exactly which is committed. */
  ghost predicate TxnStands(s: Sys, t: TxnId)
    requires t in s.txns
  {
    if s.txns[t].members != {} then
      forall k :: k in s.txnOf && s.txnOf[k] == t ==> k in s.txns[t].members && s.commits[k] == 0 && s.aborts[k] == 0
    else if t in s.mixed then Split(s, t)
    else if s.txns[t].aborting then AllAborted(s, t)
    else AllCommitted(s, t)
  }

  /** How a job's history stands: a path through the table to its status, or to NULL if
      it has been freed; completed from some point on, if ever. */
  ghost predicate PathStands(s: Sys, j: JobId)
    requires j in s.history
  {
    var path := s.history[j];
    && PathOk(path) && path[|path| - 1] == (if j in s.jobs then s.jobs[j].status else Null)
    && forall i, k :: 0 <= i <= k < |path| && IsCompleted(path[i]) ==> IsCompleted(path[k])
  }

  lemma {:induction false} CompletedFrom(path: seq<Status>, i: nat, k: nat)
    requires AllowedRun(path) && i <= k < |path| && IsCompleted(path[i])
    ensures IsCompleted(path[k])
  {
    var tail := path[i..];
    forall x | 0 < x < |tail| ensures Allowed(tail[x - 1], tail[x]) {
      assert tail[x] == path[i + x] && tail[x - 1] == path[i + x - 1];
    }
    CompletedStays(tail, k - i);
  }

  lemma {:induction false} PathStandsBy(s: Sys, j: JobId)
    requires PathsOk(s) && j in s.history
    ensures PathStands(s, j)
  {
    var path := s.history[j];
    forall i, k | 0 <= i <= k < |path| && IsCompleted(path[i]) ensures IsCompleted(path[k]) {
      CompletedFrom(path, i, k);
    }
    hide PathOk, IsCompleted;
  }

  lemma {:induction false} TxnStandsBy(s: Sys, t: TxnId)
    requires AtRest(s) && t in s.txns
    ensures TxnStands(s, t)
  {
    hide SysOk, Split, AllAborted, AllCommitted;
    if s.txns[t].members == {} {
      AllOrNothing(s, t);
    } else {
      forall k | k in s.txnOf && s.txnOf[k] == t ensures k in s.txns[t].members && s.commits[k] == 0 && s.aborts[k] == 0 {
        NothingYet(s, t, k);
      }
    }
  }

  lemma {:induction false} RestFacts(s: Sys)
    requires AtRest(s)
    ensures forall j :: s.commits[j] + s.aborts[j] <= 1
    ensures forall t :: t in s.txns ==> TxnStands(s, t)
    ensures forall j :: j in s.history ==> PathStands(s, j)
    ensures forall j :: j in s.jobs ==>
              s.jobs[j].pauseCount == Bit(s.jobs[j].phase.NoCo?) + Bit(s.jobs[j].userPaused) + s.jobs[j].drained
  {
    hide AtRest, Calm, SysOk, JobOk, MemberOk, JobsOk, LinksOk, CountsOk, OrderOk, PathsOk, TxnStands, PathStands;
    RestCalm(s);
    CalmOk(s);
    OnceEach(s);
    Books(s, {});
    forall t | t in s.txns ensures TxnStands(s, t) { TxnStandsBy(s, t); }
    forall j | j in s.history ensures PathStands(s, j) { PathStandsBy(s, j); }
    forall j | j in s.jobs
      ensures s.jobs[j].pauseCount == Bit(s.jobs[j].phase.NoCo?) + Bit(s.jobs[j].userPaused) + s.jobs[j].drained
    {
      Resting(s, j);
      LedgerExact(s.jobs[j]);
    }
  }

  lemma {:induction false} LedgerExact(b: Job)
    requires JobOk(b)
    ensures b.pauseCount == Bit(b.phase.NoCo?) + Bit(b.userPaused) + b.drained
  {}
}
