/**
 The job operations themselves (job.c, blockjob.c), on a table of jobs and their
 transactions.  What a driver's callback answers, and what the event loop does
 while an operation waits, is left open.
 */
module Jobs {
  import opened Basics
  import opened JobState
  import opened JobOps
  import opened JobSteps
  import opened JobAbort
  import opened JobRest

  /** What can happen to the jobs from outside, one event at a time. */
  datatype Event =
    | Create(j: JobId, t: TxnId, autoFinalize: bool, autoDismiss: bool)
    | Start(t: TxnId)
    | Co(j: JobId, step: CoEvent)
    | ExitBh(j: JobId)
    | Ledger(j: JobId, change: LedgerEvent)
    | Cancel(j: JobId, force: bool, answer: bool)
    | UserCancel(j: JobId, force: bool, answer: bool)
    | Finalize(j: JobId)
    | Dismiss(j: JobId)

  class JobTable {
    var jobs: map<JobId, Job>
    var txns: map<TxnId, Txn>
    var order: map<TxnId, seq<JobId>>
    var txnOf: map<JobId, TxnId>
    const rcs: JobId -> int
    ghost var history: map<JobId, seq<Status>>
    ghost var commits: multiset<JobId>
    ghost var aborts: multiset<JobId>
    ghost var mixed: map<TxnId, Blame>
    ghost var holds: multiset<JobId>

    ghost function S(): Sys
      reads this
    {
      Sys(jobs, txns, order, rcs, txnOf, history, commits, aborts, mixed, holds)
    }

    constructor (prepare: JobId -> int)
      ensures AtRest(S()) && jobs == map[] && txns == map[] && order == map[] && txnOf == map[] && rcs == prepare
      ensures commits == aborts == multiset{}
    {
      jobs, txns, order, txnOf, rcs := map[], map[], map[], map[], prepare;
      history, commits, aborts, mixed, holds := map[], multiset{}, multiset{}, map[], multiset{};
    }

    // ----- one job -----

    /** A change of a job that leaves its status. */
    method Store(j: JobId, b: Job)
      requires j in jobs && b.status == jobs[j].status
      modifies this`jobs
      ensures S() == Put(old(S()), j, b) && jobs == old(jobs)[j := b]
    {
      jobs := jobs[j := b];
    }

    /** A change of a job's status and of other fields with it. */
    method Move(j: JobId, b: Job)
      requires j in jobs && Allowed(jobs[j].status, b.status) && !IsCompleted(b.status)
      modifies this`jobs, this`history
      ensures S() == Put(old(S()), j, b) && jobs == old(jobs)[j := b]
    {
      hide Put, Transitioned, Allowed, IsCompleted;
      ghost var s0 := S();
      TransitionedStatus(jobs[j], b.status);
      PutPut(s0, j, Transitioned(jobs[j], b.status), b);
      assert jobs[j := Transitioned(jobs[j], b.status)][j := b] == jobs[j := b];
      StateTransition(j, b.status);
      Store(j, b);
    }

    method StateTransition(j: JobId, s1: Status)
      requires j in jobs && Allowed(jobs[j].status, s1)
      modifies this`jobs, this`history
      ensures S() == Put(old(S()), j, Transitioned(old(jobs[j]), s1)) && jobs == old(jobs)[j := Transitioned(old(jobs[j]), s1)]
    {
      hide Entered, Transitioned, Allowed;
      TransitionedStatus(jobs[j], s1);
      history := if jobs[j].status == s1 then history else Entered(history, j, s1);
      jobs := jobs[j := Transitioned(jobs[j], s1)];
    }

    method UpdateRc(j: JobId)
      requires j in jobs && (jobs[j].ret != 0 || jobs[j].forceCancel ==> Allowed(jobs[j].status, Aborting))
      modifies this`jobs, this`history
      ensures S() == Put(old(S()), j, RcUpdated(old(jobs[j]))) && jobs == old(jobs)[j := RcUpdated(old(jobs[j]))]
    {
      hide Put, Transitioned, Allowed, RcUpdated;
      ghost var s0 := S();
      RcSteps(s0, j);
      if jobs[j].ret == 0 && jobs[j].forceCancel {
        Store(j, jobs[j].(ret := -ECANCELED));
      }
      if jobs[j].ret != 0 {
        StateTransition(j, Aborting);
      }
    }

    /** The driver's .cancel has answered; a user pause is taken back, which needs
        a pause to be there. */
    method CancelAsync(j: JobId, answer: bool)
      requires j in jobs && JobOk(jobs[j])
      modifies this`jobs
      ensures S() == Put(old(S()), j, Cancelled(old(jobs[j]), answer)) && jobs == old(jobs)[j := Cancelled(old(jobs[j]), answer)]
    {
      hide Put;
      CancelledOk(jobs[j], answer);
      var b := jobs[j];
      if b.userPaused {
        assert b.ioError ==> b.userPaused && b.pauseCount > 0;
        b := b.(ioError := false, userPaused := false);
        assert b.pauseCount > 0;
        b := b.(pauseCount := b.pauseCount - 1);
      }
      if answer || !Deferred(b) {
        b := b.(cancelled := true, forceCancel := b.forceCancel || answer);
      }
      assert b == Cancelled(jobs[j], answer);
      Store(j, b);
    }

    method Ref(j: JobId)
      requires j in jobs
      modifies this
      ensures S() == Reffed(old(S()), j)
    {
      jobs := jobs[j := jobs[j].(refcnt := jobs[j].refcnt + 1)];
      holds := holds + multiset{j};
    }

    /** Giving back a reference taken by Ref: the job is freed with its last
        reference, and then it is NULL and in no transaction. */
    method Unref(j: JobId, ghost except: set<JobId>)
      requires j in jobs && SysOk(S(), except) && holds[j] > 0
      modifies this
      ensures S() == Unreffed(old(S()), j) && SysOk(S(), except)
    {
      hide SysOk;
      UnreffedOk(S(), j, except);
      var n := jobs[j].refcnt - 1;
      if n == 0 {
        assert jobs[j].status.Null? && jobs[j].txn.None?;
        jobs := jobs - {j};
      } else {
        jobs := jobs[j := jobs[j].(refcnt := n)];
      }
      holds := holds - multiset{j};
    }

    method TxnDelJob(j: JobId)
      requires j in jobs && (jobs[j].txn.Some? ==> jobs[j].txn.value in txns)
      modifies this`jobs, this`txns, this`order
      ensures jobs == old(jobs)[j := old(jobs[j]).(txn := None)]
      ensures order == match old(jobs[j].txn)
                       case None => old(order)
                       case Some(t) => old(order)[t := Without(old(Listed(S(), t)), j)]
      ensures txns == match old(jobs[j].txn)
                      case None => old(txns)
                      case Some(t) => old(txns)[t := old(txns[t]).(members := old(txns[t]).members - {j})]
    {
      if jobs[j].txn.Some? {
        var t := jobs[j].txn.value;
        txns := txns[t := txns[t].(members := txns[t].members - {j})];
        order := order[t := Without(if t in order then order[t] else [], j)];
        jobs := jobs[j := jobs[j].(txn := None)];
      } else {
        assert jobs[j].(txn := None) == jobs[j];
        assert jobs == jobs[j := jobs[j]];
      }
    }

    method DoDismiss(j: JobId)
      requires j in jobs && Dismissable(jobs[j])
      modifies this`jobs, this`history
      ensures S() == Dismissed(old(S()), j)
    {
      hide Entered;
      assert Allowed(jobs[j].status, Null);
      jobs := jobs[j := jobs[j].(paused := false)];
      StateTransition(j, Null);
      var b := jobs[j].(refcnt := jobs[j].refcnt - 1);
      assert b == Nulled(old(jobs[j]));
      if b.refcnt == 0 {
        assert b.status.Null? && b.txn.None?;
        jobs := jobs - {j};
        assert jobs == old(jobs) - {j};
      } else {
        jobs := jobs[j := b];
        assert jobs == old(jobs)[j := b];
      }
    }

    method Conclude(j: JobId)
      requires j in jobs && jobs[j].txn.None? && jobs[j].refcnt > 0 && Allowed(jobs[j].status, Concluded)
      modifies this`jobs, this`history
      ensures var s := Put(old(S()), j, Transitioned(old(jobs[j]), Concluded));
        S() == if old(jobs[j].autoDismiss || jobs[j].phase.NoCo?) then Dismissed(s, j) else s
    {
      StateTransition(j, Concluded);
      if jobs[j].autoDismiss || jobs[j].phase.NoCo? {
        DoDismiss(j);
      }
    }

    /** Commits a job that is not doomed and aborts one that is. */
    method FinalizeSingle(j: JobId, t: TxnId)
      requires SysOk(S(), {}) && Finalizable(S(), j, t)
      modifies this
      ensures S() == Finalized(old(S()), j, t) && SysOk(S(), {})
      ensures commits[j] == old(commits[j]) + Bit(!old(Doomed(jobs[j]))) && aborts[j] == old(aborts[j]) + Bit(old(Doomed(jobs[j])))
    {
      hide SysOk, Finalized, Finalizable, Concludable, Doomed, Dismissed, RcUpdated, ConcludedSys, Allowed;
      ghost var s0 := S();
      FinalizableParts(s0, j, t);
      FinalizedOk(s0, j, t);
      FinalizableUpdate(s0, j, t);
      FinalizedEffect(s0, j, t);
      FinalizedSteps(s0, j, t);
      UpdateRc(j);
      CommitOrAbort(j, t);
    }

    /** The driver's .commit, or its .abort. */
    method TellDriver(j: JobId)
      requires j in jobs
      modifies this`commits, this`aborts
      ensures commits == if jobs[j].ret == 0 then old(commits) + multiset{j} else old(commits)
      ensures aborts == if jobs[j].ret != 0 then old(aborts) + multiset{j} else old(aborts)
    {
      if jobs[j].ret == 0 {
        commits := commits + multiset{j};
      } else {
        aborts := aborts + multiset{j};
      }
    }

    /** job_commit or job_abort, and the job leaves its transaction. */
    method CommitOrAbort(j: JobId, t: TxnId)
      requires j in jobs && t in txns && Concludable(S(), j, t) && jobs[j].refcnt > 0
      modifies this
      ensures var s := ConcludedSys(old(S()), j, t);
        S() == if old(jobs[j].autoDismiss || jobs[j].phase.NoCo?) then Dismissed(s, j) else s
    {
      hide Dismissed, ConcludedSys, Transitioned, Put, Allowed, Without, RoleOf;
      ghost var s1 := S();
      TellDriver(j);
      TxnDelJob(j);
      Concluding(s1, S(), j, t);
      Conclude(j);
    }

    // ----- aborting a transaction -----

    /** The first loop of job_completed_txn_abort: every other job is force-cancelled. */
    method CancelOthers(j: JobId, t: TxnId)
      requires t in txns && txns[t].aborting && SysOk(S(), txns[t].members) && j in txns[t].members && j in jobs
      requires MemberOk(RoleOf(S(), t, j), jobs[j]) && Cancellable(S(), j, t)
      modifies this`jobs
      ensures SysOk(S(), {}) && Only(old(S()), S(), t) && j in jobs && jobs[j] == old(jobs[j])
      ensures forall m :: m in txns[t].members && m != j ==> m in jobs && Doomed(jobs[m])
    {
      hide SysOk, MemberOk, JobOk, Only, Doomed, Put, Cancellable, RoleOf, Cancelled;
      ghost var s0 := S();
      Reflexive(s0, t);
      CancellableIn(s0, j, t);
      var todo := txns[t].members - {j};
      assert todo + {j} == txns[t].members;
      while todo != {}
        invariant todo <= txns[t].members - {j}
        invariant SysOk(S(), todo + {j}) && Only(old(S()), S(), t) && j in jobs && jobs[j] == old(jobs[j])
        invariant forall m :: m in todo ==> m in jobs && jobs[m] == old(jobs[m]) && m in old(jobs)
        invariant forall m :: m in txns[t].members && m != j && m !in todo ==> m in jobs && Doomed(jobs[m])
        decreases todo
      {
        var m :| m in todo;
        ghost var s := S();
        CancelOne(s0, s, j, t, todo + {j}, m);
        CancelAsync(m, true);
        assert todo + {j} - {m} == todo - {m} + {j};
        todo := todo - {m};
      }
      assert todo + {j} == {j};
      SameRole(s0, S(), t, j);
      Settle(S(), t, {j}, j);
      assert {j} - {j} == {};
    }

    /** The second loop: every job is brought to an end and finalized, whatever the
        event loop does while one of them is waited for. */
    method FinishMembers(j: JobId, t: TxnId)
      requires Undoing(S(), S(), j, t)
      modifies this
      ensures Undoing(old(S()), S(), j, t) && t in txns && txns[t].members == {}
      decreases |Live(txns)|, 8
    {
      hide Undoing, SysOk, Finalizable, Finalized, Doomed;
      ghost var s0 := S();
      UndoParts(s0, s0, j, t);
      while txns[t].members != {}
        invariant Undoing(s0, S(), j, t) && t in txns
        decreases |txns[t].members|
      {
        var m :| m in txns[t].members;
        ghost var s := S();
        UndoMember(s0, s, j, t, m);
        if !IsCompleted(jobs[m].status) {
          assert jobs[m].cancelled;
          FinishSync(m, t);
          UndoWait(s0, s, S(), j, t);
        }
        UndoOne(s0, S(), j, t, m);
        FinalizeSingle(m, t);
        UndoParts(s0, S(), j, t);
      }
    }

    /** Setting txn->aborting, and the first loop. */
    method BeginAbort(j: JobId, t: TxnId, ghost except: set<JobId>, ghost blame: Option<Blame>)
      requires Abortable(S(), j, t, except, blame)
      modifies this
      ensures Undoing(S(), S(), j, t) && t in txns && txns[t].members == old(txns[t].members)
      ensures Good(S(), j, t) == if blame.None? then {} else {j}
      ensures Frame(old(S()), S(), {t}) && holds == old(holds) + multiset{j} && |Live(txns)| < |Live(old(txns))|
    {
      hide SysOk, Undoing, Frame, Only, LinksOk, JobOk, Doomed, AllCanEnd, MemberOk, Cancellable;
      ghost var s0 := S();
      AbortReady(s0, j, t, except, blame);
      txns := txns[t := txns[t].(aborting := true)];
      mixed := if blame.Some? then mixed[t := blame.value] else mixed;
      assert S() == Aborted(s0, t, blame);
      Ref(j);
      AbortedMembers(s0, j, t, blame);
      CancelOthers(j, t);
      BeginFrame(s0, S(), j, t, blame, except);
      UndoStart(s0, S(), j, t, except, blame);
    }

    /** job_completed_txn_abort: if t is aborting already nothing happens; else
        every job of t is aborted exactly once, but a job that started the abort
        with a good result of its own is committed. */
    method TxnAbort(j: JobId, t: TxnId, ghost except: set<JobId>, ghost blame: Option<Blame>)
      requires j in jobs && jobs[j].txn == Some(t) && t in txns
      requires if txns[t].aborting then Calm(S()) else Abortable(S(), j, t, except, blame)
      modifies this
      ensures Calm(S()) && Frame(old(S()), S(), {}) && holds == old(holds)
      ensures old(txns[t].aborting) ==> S() == old(S())
      ensures !old(txns[t].aborting) ==>
                && t in txns && txns[t].aborting && txns[t].members == {}
                && Undone(S(), old(txns[t].members), if old(Doomed(jobs[j])) then {} else {j})
      decreases |Live(txns)|, 1
    {
      hide SysOk, Undoing, Calm, Frame, JobOk, Doomed;
      Reflexive(S(), t);
      if txns[t].aborting {
        return;
      }
      ghost var s0 := S();
      assert Doomed(jobs[j]) <==> blame.None?;
      hide Abortable;
      BeginAbort(j, t, except, blame);
      ghost var s1 := S();
      FinishMembers(j, t);
      ghost var s2 := S();
      UndoEnd(s0, s1, s2, j, t, except, blame);
      Unref(j, {});
    }

    /** The job's coroutine makes a move. */
    method CoStep(j: JobId, e: CoEvent)
      requires Calm(S()) && j in jobs && CoEnabled(jobs[j], e)
      modifies this`jobs, this`history
      ensures S() == Put(old(S()), j, CoAfter(old(jobs[j]), e)) && Calm(S()) && Frame(old(S()), S(), {})
    {
      hide Calm, Frame, JobOk, Put, Allowed;
      ghost var s0 := S();
      CoCalm(s0, j, e);
      CoAfterOk(jobs[j], e);
      match e {
        case Park =>
          var b := jobs[j];
          Move(j, b.(status := if b.status.Ready? then Standby else Paused, phase := AtPause(b.status), paused := true));
        case Unpark =>
          var b := jobs[j];
          Move(j, b.(status := b.phase.saved, phase := Inside, paused := false));
        case BecomeReady =>
          Move(j, jobs[j].(status := Ready));
        case Return(ret) =>
          Store(j, jobs[j].(ret := ret, phase := Returned));
      }
    }

    // ----- the end of a job's run -----

    /** job_completed: a job that failed or was cancelled takes its whole transaction
        down, unless that is under way; a good one waits for the others. */
    method Completed(j: JobId, t: TxnId) returns (failed: Option<JobId>)
      requires Calm(S()) && j in jobs && jobs[j].txn == Some(t) && t in txns && Ended(S(), j, t)
      modifies this
      ensures Calm(S()) && Frame(old(S()), S(), {}) && holds == old(holds)
      ensures old(txns[t].aborting) ==> j in jobs && IsCompleted(jobs[j].status)
      ensures !old(txns[t].aborting) && old(jobs[j].ret != 0 || jobs[j].forceCancel) ==>
                && t in txns && txns[t].aborting && txns[t].members == {} && Undone(S(), old(txns[t].members), {})
      ensures old(jobs[j].ret == 0 && !jobs[j].forceCancel) ==> RanWell(old(S()), S(), j, t, failed)
      ensures j in jobs ==> IsCompleted(jobs[j].status)
      decreases |Live(txns)|, 4
    {
      hide SysOk, Calm, Frame, JobOk, Abortable, Undone, MemberOk, LinksOk, RanWell, RcUpdated, Live;
      failed := None;
      ghost var s0 := S();
      CompletedCases(s0, j, t);
      UpdateRc(j);
      if jobs[j].ret != 0 {
        ghost var s1 := S();
        assert Doomed(jobs[j]);
        TxnAbort(j, t, {j}, None);
        FrameTrans(s0, s1, S(), {}, {});
        if !s0.txns[t].aborting && j in jobs { AbortIsCompleted(s0, S(), j, t); }
      } else {
        failed := TxnSuccess(j, t);
        FrameSame(s0, S());
        RanIsCompleted(s0, S(), j, t, failed);
      }
    }

    /** job_exit, run by the event loop after the coroutine returned. */
    method Exit(j: JobId, t: TxnId) returns (failed: Option<JobId>)
      requires Calm(S()) && j in jobs && jobs[j].txn == Some(t) && t in txns && jobs[j].phase.Returned?
      modifies this
      ensures Calm(S()) && Frame(old(S()), S(), {}) && holds == old(holds)
      ensures old(txns[t].aborting) ==> j in jobs && IsCompleted(jobs[j].status)
      ensures !old(txns[t].aborting) && old(jobs[j].ret != 0 || jobs[j].forceCancel) ==>
                && t in txns && txns[t].aborting && txns[t].members == {} && Undone(S(), old(txns[t].members), {})
      ensures old(jobs[j].ret == 0 && !jobs[j].forceCancel) ==> RanWell(old(S()), S(), j, t, failed)
      ensures j in jobs ==> IsCompleted(jobs[j].status)
      decreases |Live(txns)|, 5
    {
      hide SysOk, Calm, Frame, JobOk, Ended, RanWell, OthersRan, Manual;
      ghost var s0 := S();
      ReturnedTxn(s0, j);
      Hold(s0, j);
      Ref(j);
      EndedRef(s0, j, t);
      failed := Completed(j, t);
      ghost var s1 := S();
      Release(s0, s1, j);
      if s0.txns[t].aborting { SyncLoop(Reffed(s0, j), s1, j, t); }
      if s0.jobs[j].ret == 0 && !s0.jobs[j].forceCancel {
        StillThere(s0, s1, j, t, failed);
        RanWellHeld(s0, s1, j, t, failed);
      }
      Unref(j, {});
    }

    /** Some job moves on, is paused or resumed, or the event loop runs its exit. */
    method EnvStep()
      requires Calm(S())
      modifies this
      ensures Calm(S()) && Frame(old(S()), S(), {}) && holds == old(holds)
      decreases |Live(txns)|, 6
    {
      hide Calm, Frame, Undone, JobOk, RanWell, LedgerAfter, LedgerEnabled;
      Reflexive(S(), 0);
      var j: JobId := *;
      var e: CoEvent := *;
      var change: LedgerEvent := *;
      if j in jobs {
        if CoEnabled(jobs[j], e) {
          CoStep(j, e);
        } else if LedgerEnabled(jobs[j], change) {
          Ledger(j, change);
        } else if jobs[j].phase.Returned? {
          ReturnedTxn(S(), j);
          var _ := Exit(j, jobs[j].txn.value);
        }
      }
    }

    /** The awaited job's own next step: it is kicked out of its pause point, its
        driver returns, or its exit is run. */
    method Drive(j: JobId, t: TxnId)
      requires Calm(S()) && j in jobs && jobs[j].txn == Some(t) && t in txns && txns[t].aborting
      requires jobs[j].phase.AtPause? || jobs[j].phase.Inside? || jobs[j].phase.Returned?
      modifies this
      ensures Calm(S()) && Frame(old(S()), S(), {}) && holds == old(holds) && j in jobs
      ensures IsCompleted(jobs[j].status) || PhaseRank(jobs[j].phase) < PhaseRank(old(jobs[j].phase))
      decreases |Live(txns)|, 6
    {
      hide Calm, Frame, JobOk, Undone, RanWell;
      if jobs[j].phase.AtPause? {
        CoStep(j, Unpark);
      } else if jobs[j].phase.Inside? {
        var ret: int := *;
        CoStep(j, Return(ret));
      } else {
        var _ := Exit(j, t);
      }
    }

    /** AIO_WAIT_WHILE: the event loop runs until the job is completed. */
    method Await(j: JobId, t: TxnId)
      requires Calm(S()) && j in jobs && jobs[j].txn == Some(t) && t in txns && txns[t].aborting
      modifies this
      ensures Calm(S()) && Frame(old(S()), S(), {}) && holds == old(holds)
      ensures j in jobs && jobs[j].txn == Some(t) && IsCompleted(jobs[j].status)
      decreases |Live(txns)|, 7, 0
    {
      hide Calm, Frame, JobOk, LinksOk;
      ghost var s1 := S();
      Reflexive(s1, t);
      HoldLinks(s1);
      SyncLoop(s1, s1, j, t);
      var budget: nat := *;
      while !IsCompleted(jobs[j].status)
        invariant Calm(S()) && Frame(s1, S(), {}) && holds == s1.holds && j in jobs
        invariant jobs[j].txn == Some(t) && t in txns && txns[t].aborting && |Live(txns)| <= |Live(s1.txns)|
        invariant !IsCompleted(jobs[j].status) ==> jobs[j].phase.AtPause? || jobs[j].phase.Inside? || jobs[j].phase.Returned?
        decreases budget, if IsCompleted(jobs[j].status) then 0 else PhaseRank(jobs[j].phase)
      {
        ghost var s := S();
        if budget > 0 {
          budget := budget - 1;
          EnvStep();
        } else {
          Drive(j, t);
        }
        FrameTrans(s1, s, S(), {}, {});
        SyncLoop(s1, S(), j, t);
      }
    }

    /** job_finish_sync on a job being aborted.  A cancelled driver returns from its
        run sooner or later. */
    method FinishSync(j: JobId, t: TxnId)
      requires Calm(S()) && j in jobs && jobs[j].txn == Some(t) && t in txns && txns[t].aborting
      modifies this
      ensures Calm(S()) && Frame(old(S()), S(), {}) && holds == old(holds)
      ensures j in jobs && IsCompleted(jobs[j].status)
      decreases |Live(txns)|, 7, 1
    {
      hide Calm, Frame, JobOk, SysOk;
      ghost var s0 := S();
      Hold(s0, j);
      Ref(j);
      Await(j, t);
      Release(s0, S(), j);
      Unref(j, {});
    }

    // ----- a transaction whose jobs all ran well -----

    method AllCompleted(t: TxnId) returns (all: bool)
      requires SysOk(S(), {}) && t in txns && !txns[t].aborting
      ensures all <==> forall m :: m in txns[t].members ==> m in jobs && IsCompleted(jobs[m].status)
      ensures all ==> forall m :: m in txns[t].members ==> m in jobs && jobs[m].ret == 0 && !jobs[m].forceCancel
    {
      hide SysOk, MemberOk, JobOk;
      var todo := txns[t].members;
      while todo != {}
        invariant todo <= txns[t].members
        invariant forall m :: m in txns[t].members - todo ==>
                    m in jobs && IsCompleted(jobs[m].status) && jobs[m].ret == 0 && !jobs[m].forceCancel
        decreases todo
      {
        var m :| m in todo;
        InTxn(S(), {}, m, t);
        if !IsCompleted(jobs[m].status) {
          return false;
        }
        CompletedIsGood(S(), m);
        assert jobs[m].ret == 0;
        todo := todo - {m};
      }
      return true;
    }

    method AllPending(t: TxnId)
      requires Calm(S()) && t in txns && Ripe(S(), t) && !txns[t].aborting
      requires forall m :: m in txns[t].members ==> m in jobs && jobs[m].status.Waiting?
      modifies this`jobs, this`history
      ensures Calm(S()) && Only(old(S()), S(), t)
      ensures forall m :: m in txns[t].members ==> m in jobs && jobs[m].txn == Some(t) && m in old(jobs)
      ensures forall m :: m in txns[t].members ==> jobs[m] == Transitioned(old(jobs[m]), Pending)
    {
      hide SysOk, JobOk, Only, Ripe, Put, Transitioned, Calm;
      ghost var s0 := S();
      var members := txns[t].members;
      CalmOk(s0);
      Widen(s0, {}, members);
      Reflexive(s0, t);
      var todo := members;
      while todo != {}
        invariant todo <= members && SysOk(S(), members) && Ripe(S(), t) && Only(s0, S(), t)
        invariant forall m :: m in todo ==> m in jobs && jobs[m] == s0.jobs[m]
        invariant forall m :: m in members && m !in todo ==> m in jobs && jobs[m] == Transitioned(s0.jobs[m], Pending)
        decreases todo
      {
        var m :| m in todo;
        ghost var s := S();
        InTxn(s, members, m, t);
        PendingStep(s, t, m);
        PutOnlyMore(s0, s, m, Transitioned(s.jobs[m], Pending), t);
        StateTransition(m, Pending);
        todo := todo - {m};
      }
      PendingEnd(s0, S(), t);
    }

    method NeedsFinalize(t: TxnId) returns (needs: bool)
      requires t in txns && txns[t].members <= jobs.Keys
      ensures needs <==> exists m :: m in txns[t].members && !jobs[m].autoFinalize
    {
      var todo := txns[t].members;
      while todo != {}
        invariant todo <= txns[t].members
        invariant forall m :: m in txns[t].members - todo ==> jobs[m].autoFinalize
        decreases todo
      {
        var m :| m in todo;
        if !jobs[m].autoFinalize {
          return true;
        }
        todo := todo - {m};
      }
      return false;
    }

    /** job_completed_txn_success */
    method TxnSuccess(j: JobId, t: TxnId) returns (failed: Option<JobId>)
      requires Calm(S()) && j in jobs && jobs[j].txn == Some(t) && t in txns
      requires jobs[j].phase.Returned? && jobs[j].ret == 0 && !jobs[j].forceCancel
      modifies this
      ensures Calm(S()) && Frame(old(S()), S(), {}) && holds == old(holds)
      ensures RanWell(old(S()), S(), j, t, failed)
      decreases |Live(txns)|, 3
    {
      hide SysOk, Calm, JobOk, Frame, Only, Ripe, LinksOk, Finalization;
      failed := None;
      ghost var s0 := S();
      WaitCalm(s0, j, t);
      StateTransition(j, Waiting);
      ghost var s1 := S();
      var all := AllCompleted(t);
      if !all {
        return;
      }
      AllRipe(s1, j, t);
      AllPending(t);
      ghost var s2 := S();
      PendingFrame(s0, s1, s2, t);
      var needs := NeedsFinalize(t);
      if !needs {
        failed := DoFinalize(j, t);
        FrameTrans(s0, s2, S(), {}, {});
      }
    }

    /** Every job's driver is asked to prepare, in the order of the list, until one of
        them fails. */
    method PrepareAll(t: TxnId) returns (failed: Option<JobId>)
      requires SysOk(S(), {}) && t in txns && t in order && !txns[t].aborting
      requires forall m :: m in txns[t].members ==> m in jobs && jobs[m].status.Pending?
      modifies this`jobs, this`history
      ensures failed == FirstFailing(order[t], rcs) && Prepared(old(S()), S(), t, failed)
    {
      hide SysOk, JobOk, Put, FirstFailing, RcUpdated;
      ghost var s0 := S();
      for i := 0 to |order[t]|
        invariant S() == s0
        invariant forall k :: 0 <= k < i ==> rcs(order[t][k]) == 0
      {
        var m := order[t][i];
        ListedMember(s0, t, m);
        CompletedRet(s0, t, m);
        Store(m, jobs[m].(ret := rcs(m)));
        UpdateRc(m);
        if rcs(m) != 0 {
          PreparePut(s0, m);
          FirstFailingAt(order[t], rcs, i);
          return Some(m);
        }
        PrepareSame(s0, m);
      }
      NoneFailing(order[t], rcs);
      return None;
    }

    method CommitAll(t: TxnId)
      requires SysOk(S(), {}) && t in txns && !txns[t].aborting && txns[t].finalizing
      modifies this
      ensures SysOk(S(), {}) && Only(old(S()), S(), t) && holds == old(holds)
      ensures txns == old(txns)[t := old(txns[t]).(members := {})]
      ensures forall m :: m in old(txns[t].members) ==> commits[m] > 0
    {
      hide SysOk, Only, Finalized, Doomed, MemberOk;
      ghost var s0 := S();
      Reflexive(s0, t);
      while txns[t].members != {}
        invariant SysOk(S(), {}) && Only(s0, S(), t) && holds == s0.holds && t in txns
        invariant txns == s0.txns[t := s0.txns[t].(members := txns[t].members)] && txns[t].members <= s0.txns[t].members
        invariant forall m :: m in s0.txns[t].members - txns[t].members ==> commits[m] > 0
        decreases |txns[t].members|
      {
        var m :| m in txns[t].members;
        ghost var s := S();
        CommitOne(s, t, m);
        FinalizeSingle(m, t);
        OnlyTrans(s0, s, S(), t);
      }
      assert txns[t] == s0.txns[t].(members := {});
    }

    /** All jobs of t, prepared, are committed. */
    method CommitPending(j: JobId, t: TxnId)
      requires Calm(S()) && j in jobs && jobs[j].txn == Some(t) && t in txns && !txns[t].aborting
      requires forall m :: m in txns[t].members ==> m in jobs && jobs[m].status.Pending?
      modifies this
      ensures Calm(S()) && Frame(old(S()), S(), {}) && holds == old(holds)
      ensures Finalization(S(), old(txns[t].members), t, j, None)
    {
      hide SysOk, Calm, JobOk, Frame, Only, LinksOk, Doomed;
      ghost var s0 := S();
      CommitReady(s0, j, t);
      Ref(j);
      txns := txns[t := txns[t].(finalizing := true)];
      assert S() == Marked(Reffed(s0, j), t, true);
      CommitAll(t);
      CommitDone(s0, S(), j, t);
      txns := txns[t := txns[t].(finalizing := false)];
      Release(s0, S(), j);
      Unref(j, {});
      OnceEach(S());
    }

    /** job_do_finalize, for a transaction of pending jobs.  If no job fails to
        prepare, every job is committed and none aborted.  If one fails, every job
        is aborted, except that the job finalization was asked of is committed when
        it is not itself the one that failed. */
    method DoFinalize(j: JobId, t: TxnId) returns (failed: Option<JobId>)
      requires Calm(S()) && j in jobs && jobs[j].txn == Some(t) && t in txns && !txns[t].aborting
      requires forall m :: m in txns[t].members ==> m in jobs && jobs[m].status.Pending?
      modifies this
      ensures Calm(S()) && Frame(old(S()), S(), {}) && holds == old(holds)
      ensures failed == FirstFailing(old(Listed(S(), t)), rcs) && Finalization(S(), old(txns[t].members), t, j, failed)
      ensures failed.None? <==> forall m :: m in old(txns[t].members) ==> rcs(m) == 0
      decreases |Live(txns)|, 2
    {
      hide SysOk, Calm, JobOk, Frame, Only, Abortable, LinksOk, Doomed, FirstFailing, Put, Live;
      ghost var s0 := S();
      CalmOk(s0);
      HoldLinks(s0);
      OrderThere(s0, t);
      NoneFailsIff(s0, t);
      failed := PrepareAll(t);
      if failed.Some? {
        ghost var s1 := S();
        FailingRc(s0.order[t], rcs);
        PrepareFailed(s0, s1, j, t, failed.value);
        TxnAbort(j, t, {failed.value}, BlameFor(j, failed.value));
        FrameTrans(s0, s1, S(), {}, {});
        OnceEach(S());
      } else {
        CommitPending(j, t);
      }
    }

    // ----- operations called from outside -----

    /** job_create, in a transaction that is new or being filled. */
    method CreateJob(j: JobId, t: TxnId, autoFinalize: bool, autoDismiss: bool)
      requires AtRest(S()) && j !in txnOf && Filling(S(), t)
      modifies this
      ensures AtRest(S()) && S() == Joined(old(S()), j, t, NewJob(t, autoFinalize, autoDismiss)) && Grew(old(history), history)
    {
      hide AtRest, JobOk, Filling, NewJob, Grew, Listed;
      var b := NewJob(t, autoFinalize, autoDismiss);
      NewJobOk(t, autoFinalize, autoDismiss);
      JoinedRest(S(), j, t, b);
      JoinedGrew(S(), j, t, b);
      JoinedFields(S(), j, t, b);
      hide Joined;
      jobs := jobs[j := b];
      txns := txns[t := if t in txns then txns[t].(members := txns[t].members + {j}) else Txn(false, false, {j})];
      order := order[t := [j] + if t in order then order[t] else []];
      history := history[j := [Undefined, Created]];
      txnOf := txnOf[j := t];
    }

    method StartJob(j: JobId)
      requires j in jobs && JobOk(jobs[j]) && jobs[j].status.Created?
      modifies this`jobs, this`history
      ensures S() == Put(old(S()), j, Started(old(jobs[j]))) && jobs == old(jobs)[j := Started(old(jobs[j]))]
    {
      hide Put, Allowed;
      StartedOk(jobs[j]);
      assert jobs[j].phase.NoCo? && jobs[j].paused && Allowed(jobs[j].status, Running);
      var b := jobs[j];
      Move(j, b.(status := Running, phase := Inside, pauseCount := b.pauseCount - 1, paused := false));
    }

    /** job_start for every job of a transaction. */
    method StartAll(t: TxnId)
      requires AtRest(S()) && t in txns && !txns[t].aborting
      requires forall m :: m in txns[t].members ==> m in jobs && jobs[m].status.Created?
      modifies this`jobs, this`history
      ensures AtRest(S()) && Only(old(S()), S(), t) && Grew(old(history), history)
      ensures forall m :: m in txns[t].members ==> m in jobs && m in old(jobs) && jobs[m] == Started(old(jobs[m]))
    {
      hide SysOk, JobOk, Only, AtRest, Calm, Put, Started, Grew;
      ghost var s0 := S();
      var members := txns[t].members;
      StartReady(s0, t);
      var todo := members;
      while todo != {}
        invariant todo <= members && SysOk(S(), members) && Only(s0, S(), t)
        invariant forall m :: m in todo ==> m in jobs && m in s0.jobs && jobs[m] == s0.jobs[m]
        invariant forall m :: m in members && m !in todo ==> m in jobs && m in s0.jobs && jobs[m] == Started(s0.jobs[m])
        decreases todo
      {
        var m :| m in todo;
        ghost var s := S();
        InTxn(s, members, m, t);
        StartStep(s, t, m);
        PutOnlyMore(s0, s, m, Started(s.jobs[m]), t);
        StartJob(m);
        todo := todo - {m};
      }
      StartEnd(s0, S(), t);
    }

    /** Pausing and resuming, by the user, by a drained section, or by an error. */
    method Ledger(j: JobId, e: LedgerEvent)
      requires Calm(S()) && j in jobs && LedgerEnabled(jobs[j], e)
      modifies this`jobs
      ensures S() == Put(old(S()), j, LedgerAfter(old(jobs[j]), e)) && Calm(S()) && Frame(old(S()), S(), {})
    {
      hide JobOk, Calm, SysOk, Frame, Put;
      LedgerCalm(S(), j, e);
      LedgerAfterOk(jobs[j], e);
      var b := jobs[j];
      match e {
        case UserPause =>
          b := b.(userPaused := true);
          b := b.(pauseCount := b.pauseCount + 1);
        case UserResume =>
          assert b.ioError ==> b.userPaused && b.pauseCount > 0;
          b := b.(ioError := false);
          b := b.(userPaused := false);
          assert b.pauseCount > 0;
          b := b.(pauseCount := b.pauseCount - 1);
        case DrainBegin =>
          b := b.(drained := b.drained + 1, pauseCount := b.pauseCount + 1);
        case DrainEnd =>
          assert b.pauseCount > 0;
          b := b.(drained := b.drained - 1, pauseCount := b.pauseCount - 1);
        case ErrorStop =>
          if !b.userPaused {
            b := b.(pauseCount := b.pauseCount + 1);
            b := b.(userPaused := true);
          }
          b := b.(ioError := true);
      }
      Store(j, b);
    }

    method ChangeLedger(j: JobId, e: LedgerEvent)
      requires AtRest(S()) && j in jobs && LedgerEnabled(jobs[j], e)
      modifies this`jobs
      ensures AtRest(S()) && S() == Put(old(S()), j, LedgerAfter(old(jobs[j]), e)) && history == old(history)
    {
      hide AtRest, Calm, LedgerEnabled, LedgerAfter, Frame;
      RestCalm(S());
      LedgerRest(S(), j, e);
      Ledger(j, e);
    }

    method DismissJob(j: JobId) returns (ok: bool)
      requires AtRest(S()) && j in jobs
      modifies this
      ensures AtRest(S()) && ok == VerbAllowed(VDismiss, old(jobs[j].status))
      ensures if ok then S() == Dismissed(old(S()), j) && j !in jobs else S() == old(S())
      ensures Grew(old(history), history)
    {
      hide AtRest, Dismissed, Grew;
      GrewSelf(history);
      if !VerbAllowed(VDismiss, jobs[j].status) {
        return false;
      }
      DismissRest(S(), j);
      DismissedGrew(S(), j);
      DoDismiss(j);
      return true;
    }

    /** Cancelling a job that was never started. */
    method CancelUnstarted(j: JobId, t: TxnId)
      requires AtRest(S()) && j in jobs && jobs[j].status.Created? && jobs[j].txn == Some(t) && t in txns && txns[t].members == {j}
      modifies this
      ensures AtRest(S()) && aborts[j] > 0 && Grew(old(history), history)
    {
      hide AtRest, Calm, SysOk, JobOk, Frame, MemberOk, LinksOk, Put, Grew;
      ghost var s0 := S();
      Resting(s0, j);
      CancelGoing(s0, j, true);
      CancelEnds(s0, j, true);
      CancelAsync(j, true);
      ghost var s1 := S();
      var _ := Completed(j, t);
      HoldLinks(s0);
      FrameTrans(s0, s1, S(), {}, {});
      RestAgain(s0, S());
      FrameGrew(s0, S());
    }

    /** Cancelling a job whose coroutine has returned. */
    method CancelDeferred(j: JobId, t: TxnId, answer: bool)
      requires AtRest(S()) && j in jobs && Deferred(jobs[j]) && jobs[j].txn == Some(t) && t in txns
      modifies this
      ensures AtRest(S()) && Grew(old(history), history)
      ensures answer || old(jobs[j].forceCancel) ==> Undone(S(), old(txns[t].members), {})
      ensures !answer && !old(jobs[j].forceCancel) ==> S() == Put(old(S()), j, Cancelled(old(jobs[j]), answer))
    {
      hide AtRest, Calm, SysOk, JobOk, Frame, MemberOk, LinksOk, Abortable, Doomed, Put, Grew;
      ghost var s0 := S();
      Resting(s0, j);
      StatusFacts(jobs[j]);
      CancelDone(s0, j, answer);
      CancelAsync(j, answer);
      ghost var s1 := S();
      if jobs[j].forceCancel {
        TxnAbort(j, t, {j}, None);
        FrameTrans(s0, s1, S(), {}, {});
      }
      RestAgain(s0, S());
      FrameGrew(s0, S());
    }

    /** job_cancel.  A driver may soften a cancellation only of a job that is ready
        and not forced; a job that was never started must be alone in its
        transaction, whose other jobs would be waited for in vain.  Cancelling by
        force a job whose run is over aborts its whole transaction. */
    method CancelJob(j: JobId, force: bool, answer: bool)
      requires AtRest(S()) && j in jobs && (force || !IsReady(jobs[j].status) ==> answer)
      requires jobs[j].status.Created? && jobs[j].txn.Some? && jobs[j].txn.value in txns ==> txns[jobs[j].txn.value].members == {j}
      modifies this
      ensures AtRest(S()) && CancelOutcome(old(S()), S(), j, answer) && Grew(old(history), history)
    {
      hide AtRest, Calm, SysOk, JobOk, Frame, MemberOk, Undone, Put, Dismissed, Grew, Cancelled;
      ghost var s0 := S();
      Resting(s0, j);
      StatusFacts(jobs[j]);
      if jobs[j].status.Concluded? {
        DismissRest(s0, j);
        DismissedGrew(s0, j);
        DoDismiss(j);
      } else if jobs[j].phase.NoCo? {
        RestNoCo(s0, j);
        CancelUnstarted(j, jobs[j].txn.value);
      } else if Deferred(jobs[j]) {
        CancelDeferred(j, jobs[j].txn.value, answer);
      } else {
        CancelGoing(s0, j, answer);
        CancelAsync(j, answer);
        RestAgain(s0, S());
        FrameGrew(s0, S());
      }
    }

    method UserCancelJob(j: JobId, force: bool, answer: bool) returns (ok: bool)
      requires AtRest(S()) && j in jobs && (force || !IsReady(jobs[j].status) ==> answer)
      requires jobs[j].status.Created? && jobs[j].txn.Some? && jobs[j].txn.value in txns ==> txns[jobs[j].txn.value].members == {j}
      modifies this
      ensures AtRest(S()) && ok == VerbAllowed(VCancel, old(jobs[j].status)) && (!ok ==> S() == old(S()))
      ensures ok ==> CancelOutcome(old(S()), S(), j, answer)
      ensures Grew(old(history), history)
    {
      hide AtRest, CancelOutcome, Grew;
      GrewSelf(history);
      ok := VerbAllowed(VCancel, jobs[j].status);
      if ok {
        CancelJob(j, force, answer);
      }
    }

    /** job_finalize.  With every .prepare good all jobs of the transaction are
        committed; with a failure of j's own all are aborted; with a failure of
        another job the transaction ends with j committed and the others aborted. */
    method FinalizeJob(j: JobId) returns (ok: bool, failed: Option<JobId>)
      requires AtRest(S()) && j in jobs
      modifies this
      ensures AtRest(S()) && ok == VerbAllowed(VFinalize, old(jobs[j].status)) && (!ok ==> S() == old(S()))
      ensures ok ==> old(jobs[j].txn.Some? && jobs[j].txn.value in txns)
      ensures ok ==> Finalization(S(), old(txns[jobs[j].txn.value].members), old(jobs[j].txn.value), j, failed)
      ensures ok ==> failed == FirstFailing(old(Listed(S(), jobs[j].txn.value)), rcs)
      ensures ok ==> (failed.None? <==> forall m :: m in old(txns[jobs[j].txn.value].members) ==> rcs(m) == 0)
      ensures Grew(old(history), history) && txnOf == old(txnOf)
      ensures ok ==> (OneSided(S(), old(txns[jobs[j].txn.value].members)) <==> failed == None || failed == Some(j))
    {
      hide AtRest, Calm, SysOk, JobOk, Frame, MemberOk, FirstFailing, OneSided, Finalization, Grew;
      GrewSelf(history);
      failed := None;
      ok := VerbAllowed(VFinalize, jobs[j].status);
      if ok {
        ghost var s0 := S();
        Resting(s0, j);
        StatusFacts(jobs[j]);
        PendingAll(s0, j);
        ghost var t := jobs[j].txn.value;
        failed := DoFinalize(j, jobs[j].txn.value);
        RestAgain(s0, S());
        FrameGrew(s0, S());
        FrameSame(s0, S());
        OneSidedIff(S(), s0.txns[t].members, t, j, failed);
      }
    }

    /** A job's coroutine makes a move, between operations. */
    method MoveJob(j: JobId, e: CoEvent)
      requires AtRest(S()) && j in jobs && CoEnabled(jobs[j], e)
      modifies this`jobs, this`history
      ensures AtRest(S()) && S() == Put(old(S()), j, CoAfter(old(jobs[j]), e)) && Grew(old(history), history)
      ensures jobs == old(jobs)[j := CoAfter(old(jobs[j]), e)]
    {
      hide AtRest, Calm, Frame, Grew, CoAfter, CoEnabled;
      ghost var s0 := S();
      RestCalm(s0);
      CoStep(j, e);
      RestAgain(s0, S());
      FrameGrew(s0, S());
    }

    /** job_exit, between operations. */
    method ExitJob(j: JobId) returns (failed: Option<JobId>)
      requires AtRest(S()) && j in jobs && jobs[j].phase.Returned?
      modifies this
      ensures AtRest(S()) && (j in jobs ==> IsCompleted(jobs[j].status)) && Grew(old(history), history) && txnOf == old(txnOf)
      ensures old(jobs[j].txn.Some? && jobs[j].txn.value in txns)
      ensures old(jobs[j].ret != 0 || jobs[j].forceCancel) ==> Undone(S(), old(txns[jobs[j].txn.value].members), {})
      ensures old(jobs[j].ret == 0 && !jobs[j].forceCancel) ==> RanWell(old(S()), S(), j, old(jobs[j].txn.value), failed)
    {
      hide AtRest, Calm, Frame, Undone, JobOk, MemberOk, RanWell, Grew;
      Resting(S(), j);
      ghost var s0 := S();
      RestCalm(s0);
      ReturnedTxn(s0, j);
      failed := Exit(j, jobs[j].txn.value);
      RestAgain(s0, S());
      FrameGrew(s0, S());
      FrameSame(s0, S());
    }

    // ----- every run -----

    /** Any event, at any time; one that is not possible now does nothing. */
    method Handle(e: Event)
      requires AtRest(S())
      modifies this
      ensures AtRest(S()) && Grew(old(history), history)
    {
      hide AtRest, Calm, Frame, LedgerAfter, Only, Grew, RanWell, Finalization, CancelOutcome, Put, Dismissed, OneSided;
      GrewSelf(history);
      match e {
        case Create(j, t, autoFinalize, autoDismiss) =>
          if j !in txnOf && CanFill(t) { CreateJob(j, t, autoFinalize, autoDismiss); }
        case Start(t) =>
          if t in txns && !txns[t].aborting && forall m :: m in txns[t].members ==> m in jobs && jobs[m].status.Created? {
            StartAll(t);
          }
        case Co(j, step) =>
          if j in jobs && CoEnabled(jobs[j], step) { MoveJob(j, step); }
        case ExitBh(j) =>
          if j in jobs && jobs[j].phase.Returned? { var _ := ExitJob(j); }
        case Ledger(j, change) =>
          if j in jobs && LedgerEnabled(jobs[j], change) { ChangeLedger(j, change); }
        case Cancel(j, force, answer) =>
          if CanCancel(j, force, answer) { CancelJob(j, force, answer); }
        case UserCancel(j, force, answer) =>
          if CanCancel(j, force, answer) { var _ := UserCancelJob(j, force, answer); }
        case Finalize(j) =>
          if j in jobs { var _, _ := FinalizeJob(j); }
        case Dismiss(j) =>
          if j in jobs { var _ := DismissJob(j); }
      }
    }

    predicate CanFill(t: TxnId)
      reads this
    {
      t in txns ==>
        && !txns[t].aborting && !txns[t].finalizing
        && (forall k :: k in txnOf && txnOf[k] == t ==> k in txns[t].members)
        && (forall m :: m in txns[t].members ==> m in jobs && jobs[m].status.Created? && jobs[m].phase.NoCo?)
    }

    predicate CanCancel(j: JobId, force: bool, answer: bool)
      reads this
    {
      && j in jobs && (force || !IsReady(jobs[j].status) ==> answer)
      && (jobs[j].status.Created? && jobs[j].txn.Some? && jobs[j].txn.value in txns ==> txns[jobs[j].txn.value].members == {j})
    }

    /** Over every run: each job is committed or aborted at most once; a transaction's
        jobs all or none, but for the one case that TxnStands tells; every status a job
        ever had was reached by a change in the table, and once completed it stays so;
        and pause counts are exact. */
    method Run(es: seq<Event>)
      requires AtRest(S())
      modifies this
      ensures AtRest(S())
      ensures forall j :: commits[j] + aborts[j] <= 1
      ensures Grew(old(history), history)
      ensures forall t :: t in txns ==> TxnStands(S(), t)
      ensures forall j :: j in history ==> PathStands(S(), j)
      ensures forall j :: j in jobs ==>
                jobs[j].pauseCount == Bit(jobs[j].phase.NoCo?) + Bit(jobs[j].userPaused) + jobs[j].drained
    {
      hide AtRest, TxnStands, PathStands;
      GrewSelf(history);
      for i := 0 to |es|
        invariant AtRest(S()) && Grew(old(history), history)
      {
        ghost var h := history;
        Handle(es[i]);
        GrewTrans(old(history), h, history);
      }
      RestFacts(S());
    }
  }

  // ----- a transaction that ends split -----

  /** Transaction 0 has jobs 0 and 1, to be finalized by hand; the .prepare of job 1 will
      fail, and all else is well. */
  ghost predicate Pair(s: Sys) {
    && 0 in s.txns && s.txns[0] == Txn(false, false, {0, 1}) && 0 in s.order && s.order[0] == [1, 0]
    && 0 in s.txnOf && s.txnOf[0] == 0 && 0 in s.jobs && Mate(s.jobs[0]) && s.rcs(0) == 0
    && 1 in s.txnOf && s.txnOf[1] == 0 && 1 in s.jobs && Mate(s.jobs[1]) && s.rcs(1) != 0
  }

  predicate Mate(b: Job) { b.txn == Some(0) && !b.autoFinalize && !b.forceCancel && b.ret == 0 }

  lemma {:induction false} PairJoined(s: Sys)
    requires s.jobs == map[] && s.txns == map[] && s.order == map[] && s.txnOf == map[] && s.rcs(0) == 0 && s.rcs(1) != 0
    ensures var b := NewJob(0, false, false);
      var s1 := Joined(s, 0, 0, b);
      var s2 := Joined(s1, 1, 0, b);
      Filling(s, 0) && 1 !in s1.txnOf && Filling(s1, 0) && Pair(s2) && s2.jobs[0].status.Created? && s2.jobs[1].status.Created?
  {
    var b := NewJob(0, false, false);
    var s1 := Joined(s, 0, 0, b);
    assert s1.txns[0].members == {0} && s1.order[0] == [0] && s1.jobs == map[0 := b] && s1.txnOf == map[0 := 0];
    assert {0} + {1} == {0, 1} && [1] + [0] == [1, 0];
  }

  lemma {:induction false} PairPut(s: Sys, j: JobId, b: Job)
    requires Pair(s) && j in s.txns[0].members && Mate(b)
    ensures Pair(Put(s, j, b))
  {
    hide Entered, Mate;
  }

  method MakePair() returns (table: JobTable)
    ensures fresh(table) && AtRest(table.S()) && Pair(table.S())
    ensures table.jobs[0].status.Created? && table.jobs[1].status.Created?
  {
    hide AtRest, Grew, Filling, Pair, Joined;
    table := new JobTable(j => if j == 1 then -1 else 0);
    PairJoined(table.S());
    table.CreateJob(0, 0, false, false);
    table.CreateJob(1, 0, false, false);
  }

  lemma {:induction false} MateMoves(b: Job)
    requires Mate(b)
    ensures Mate(Started(b)) && Mate(CoAfter(Started(b), Return(0))) && CoEnabled(Started(b), Return(0))
    ensures CoAfter(Started(b), Return(0)).phase.Returned? && CoAfter(Started(b), Return(0)).status.Running?
  {}

  /** Both jobs run well. */
  method RunPair(table: JobTable)
    requires AtRest(table.S()) && Pair(table.S()) && table.jobs[0].status.Created? && table.jobs[1].status.Created?
    modifies table
    ensures AtRest(table.S()) && Pair(table.S())
    ensures table.jobs[0].phase.Returned? && table.jobs[0].status.Running? && table.jobs[1].phase.Returned? && table.jobs[1].status.Running?
  {
    hide AtRest, Grew, Only, Put, Mate, Started, CoAfter, CoEnabled;
    MateMoves(table.jobs[0]);
    MateMoves(table.jobs[1]);
    table.StartAll(0);
    table.MoveJob(0, Return(0));
    table.MoveJob(1, Return(0));
  }

  lemma {:induction false} FirstWaits(s: Sys, s': Sys, failed: Option<JobId>)
    requires Pair(s) && s.jobs[1].status.Running? && s.jobs[1].phase.Returned? && RanWell(s, s', 0, 0, failed)
    ensures Pair(s') && s'.jobs[0].status.Waiting? && s'.jobs[1] == s.jobs[1]
  {
    hide Entered, Finalization, FirstFailing;
    assert !OthersRan(s, 0, 0) by { assert 1 in s.txns[0].members; }
    PairPut(s, 0, Transitioned(s.jobs[0], Waiting));
  }

  lemma {:induction false} BothPend(s: Sys, s': Sys, failed: Option<JobId>)
    requires Pair(s) && s.jobs[0].status.Waiting? && RanWell(s, s', 1, 0, failed)
    ensures s'.txns == s.txns && s'.order == s.order && 0 in s'.jobs && s'.jobs[0].status.Pending?
  {
    hide Finalization, FirstFailing;
    assert OthersRan(s, 1, 0);
    assert Manual(s, 0) by { assert 0 in s.txns[0].members && !s.jobs[0].autoFinalize; }
  }

  lemma {:induction false} EndsSplit(s: Sys, failed: Option<JobId>)
    requires AtRest(s) && 0 in s.txnOf && s.txnOf[0] == 0 && Finalization(s, {0, 1}, 0, 0, failed) && failed == Some(1)
    ensures Split(s, 0) && s.commits[0] == 1 && s.aborts[1] == 1
  {
    hide AtRest, Split;
    RestFacts(s);
    assert TxnStands(s, 0);
  }

  lemma {:induction false} LinkedZero(s: Sys)
    requires AtRest(s) && 0 in s.txns && 0 in s.txns[0].members
    ensures 0 in s.jobs && s.jobs[0].txn == Some(0)
  {
    hide AtRest, SysOk, Calm;
    RestCalm(s);
    CalmOk(s);
    InTxn(s, {}, 0, 0);
  }

  /** Finalizing the first job commits it although the .prepare of the second fails,
      which is aborted. */
  method SplitExample() returns (table: JobTable)
    ensures Split(table.S(), 0) && table.commits[0] == 1 && table.aborts[1] == 1
  {
    hide AtRest, Grew, Put, Mate, RanWell, Finalization, OneSided, FirstFailing, Undone;
    table := MakePair();
    RunPair(table);
    ghost var s0 := table.S();
    assert s0.jobs[0].ret == 0 && !s0.jobs[0].forceCancel && s0.jobs[0].txn == Some(0) by { MateParts(s0.jobs[0]); }
    var failed := table.ExitJob(0);
    ghost var s1 := table.S();
    FirstWaits(s0, s1, failed);
    assert s1.jobs[1].ret == 0 && !s1.jobs[1].forceCancel && s1.jobs[1].txn == Some(0) by { MateParts(s1.jobs[1]); }
    failed := table.ExitJob(1);
    BothPend(s1, table.S(), failed);
    LinkedZero(table.S());
    FirstFailingAt(table.order[0], table.rcs, 0);
    var ok;
    ok, failed := table.FinalizeJob(0);
    EndsSplit(table.S(), failed);
  }

  lemma {:induction false} MateParts(b: Job)
    requires Mate(b)
    ensures b.ret == 0 && !b.forceCancel && b.txn == Some(0)
  {}
}
