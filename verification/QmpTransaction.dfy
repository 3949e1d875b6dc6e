/**
 The QMP `transaction` command (blockdev.c): a list of actions carried out all or
 none, and the dirty-bitmap actions as instances.
 */
module QmpTransaction {
  import opened Basics

  // ----- actions in general -----

  /** What .prepare leaves: the world, the action's own state, and success. */
  datatype Prepared<W, S> = Prepared(world: W, state: S, ok: bool)

  datatype Ops<!W, !S> = Ops(prepare: W -> Prepared<W, S>, commit: (W, S) -> W, abort: (W, S) -> W, clean: (W, S) -> W)

  /** The callbacks made, by kind and place in the list. */
  datatype Kind = Prepare | Commit | Abort | Clean
  datatype Call = Call(kind: Kind, i: int)

  /** The world after the first k prepares. */
  function After<W, S>(acts: seq<Ops<W, S>>, w: W, k: nat): W
    requires k <= |acts|
  {
    if k == 0 then w else acts[k - 1].prepare(After(acts, w, k - 1)).world
  }

  function StateOf<W, S>(acts: seq<Ops<W, S>>, w: W, i: nat): S
    requires i < |acts|
  {
    acts[i].prepare(After(acts, w, i)).state
  }

  predicate Succeeds<W, S>(acts: seq<Ops<W, S>>, w: W, i: nat)
    requires i < |acts|
  {
    acts[i].prepare(After(acts, w, i)).ok
  }

  /** World v after the aborts of actions k-1 down to 0. */
  function Undone<W, S>(acts: seq<Ops<W, S>>, w: W, v: W, k: nat): W
    requires k <= |acts|
  {
    if k == 0 then v else Undone(acts, w, acts[k - 1].abort(v, StateOf(acts, w, k - 1)), k - 1)
  }

  function Committed<W, S>(acts: seq<Ops<W, S>>, w: W, v: W, k: nat): W
    requires k <= |acts|
  {
    if k == 0 then v else acts[k - 1].commit(Committed(acts, w, v, k - 1), StateOf(acts, w, k - 1))
  }

  function Cleaned<W, S>(acts: seq<Ops<W, S>>, w: W, v: W, k: nat): W
    requires k <= |acts|
  {
    if k == 0 then v else acts[k - 1].clean(Cleaned(acts, w, v, k - 1), StateOf(acts, w, k - 1))
  }

  /** The abort of an action, right after its prepare, takes the world back; this is
      asked of a prepare that failed as well. */
  predicate Undoes<W(==), S>(a: Ops<W, S>, w: W) { a.abort(a.prepare(w).world, a.prepare(w).state) == w }

  predicate UndoesAt<W(==), S>(acts: seq<Ops<W, S>>, w: W, i: nat)
    requires i < |acts|
  {
    Undoes(acts[i], After(acts, w, i))
  }

  ghost predicate Tidy<W(!new), S(!new)>(a: Ops<W, S>) { forall w, s :: a.clean(w, s) == w }

  lemma {:induction false} UndoneStep<W(!new), S(!new)>(acts: seq<Ops<W, S>>, w: W, k: nat)
    requires 0 < k <= |acts| && UndoesAt(acts, w, k - 1)
    ensures Undone(acts, w, After(acts, w, k), k) == Undone(acts, w, After(acts, w, k - 1), k - 1)
  {
    var a, v := acts[k - 1], After(acts, w, k - 1);
    assert a.abort(a.prepare(v).world, a.prepare(v).state) == v;
  }

  /** If the actions undo what they prepare, undoing them in reverse order restores
      the initial world. */
  lemma {:induction false} UndoneIsInitial<W(!new), S(!new)>(acts: seq<Ops<W, S>>, w: W, k: nat)
    requires k <= |acts| && forall i :: 0 <= i < k ==> UndoesAt(acts, w, i)
    ensures Undone(acts, w, After(acts, w, k), k) == w
    decreases k
  {
    if k > 0 {
      assert UndoesAt(acts, w, k - 1);
      UndoneStep(acts, w, k);
      UndoneIsInitial(acts, w, k - 1);
    }
  }

  lemma {:induction false} CleanedIsSame<W(!new), S(!new)>(acts: seq<Ops<W, S>>, w: W, v: W, k: nat)
    requires k <= |acts| && forall i :: 0 <= i < k ==> Tidy(acts[i])
    ensures Cleaned(acts, w, v, k) == v
    decreases k
  {
    if k > 0 {
      assert Tidy(acts[k - 1]);
      CleanedIsSame(acts, w, v, k - 1);
    }
  }

  function Up(kind: Kind, k: nat): seq<Call> { seq(k, i => Call(kind, i)) }

  function Down(kind: Kind, k: nat): seq<Call> { seq(k, i => Call(kind, k - 1 - i)) }

  /** qmp_transaction.  Either every action is prepared, then every one committed, in
      order; or the prepare of action k is the first to fail, and actions k down to 0
      are aborted.  Then whatever was prepared is cleaned, in order. */
  method Transaction<W(!new), S(!new)>(acts: seq<Ops<W, S>>, w0: W) returns (w: W, failed: Option<nat>, log: seq<Call>)
    ensures failed.None? ==>
              && (forall i :: 0 <= i < |acts| ==> Succeeds(acts, w0, i))
              && log == Up(Prepare, |acts|) + Up(Commit, |acts|) + Up(Clean, |acts|)
              && w == Cleaned(acts, w0, Committed(acts, w0, After(acts, w0, |acts|), |acts|), |acts|)
    ensures failed.Some? ==>
              var k := failed.value;
              && k < |acts| && !Succeeds(acts, w0, k) && (forall i :: 0 <= i < k ==> Succeeds(acts, w0, i))
              && log == Up(Prepare, k + 1) + Down(Abort, k + 1) + Up(Clean, k + 1)
              && w == Cleaned(acts, w0, Undone(acts, w0, After(acts, w0, k + 1), k + 1), k + 1)
  {
    var states: seq<S>;
    w, failed, states, log := PrepareAll(acts, w0);
    if failed.None? {
      w, log := CommitAll(acts, w0, states, w, log);
    } else {
      w, log := AbortAll(acts, w0, states, w, log);
    }
    w, log := CleanAll(acts, w0, states, w, log);
  }

  /** A failed transaction of actions that undo their prepares changes nothing. */
  lemma {:induction false} FailureRestores<W(!new), S(!new)>(acts: seq<Ops<W, S>>, w: W, k: nat)
    requires k < |acts| && (forall i :: 0 <= i <= k ==> UndoesAt(acts, w, i)) && forall i :: 0 <= i <= k ==> Tidy(acts[i])
    ensures Cleaned(acts, w, Undone(acts, w, After(acts, w, k + 1), k + 1), k + 1) == w
  {
    UndoneIsInitial(acts, w, k + 1);
    CleanedIsSame(acts, w, w, k + 1);
  }

  /** The first loop; a failing action is in the list as well. */
  method PrepareAll<W, S>(acts: seq<Ops<W, S>>, w0: W) returns (w: W, failed: Option<nat>, states: seq<S>, log: seq<Call>)
    ensures |states| <= |acts| && w == After(acts, w0, |states|) && log == Up(Prepare, |states|)
    ensures forall i :: 0 <= i < |states| ==> states[i] == StateOf(acts, w0, i)
    ensures failed.None? ==> |states| == |acts| && forall i :: 0 <= i < |acts| ==> Succeeds(acts, w0, i)
    ensures failed.Some? ==>
              |states| == failed.value + 1 && !Succeeds(acts, w0, failed.value)
              && forall i :: 0 <= i < failed.value ==> Succeeds(acts, w0, i)
  {
    w, states, log := w0, [], [];
    for k := 0 to |acts|
      invariant |states| == k && w == After(acts, w0, k) && log == Up(Prepare, k)
      invariant forall i :: 0 <= i < k ==> states[i] == StateOf(acts, w0, i)
      invariant forall i :: 0 <= i < k ==> Succeeds(acts, w0, i)
    {
      var p := acts[k].prepare(w);
      w := p.world;
      states := states + [p.state];
      log := log + [Call(Prepare, k)];
      if !p.ok {
        return w, Some(k), states, log;
      }
    }
    failed := None;
  }

  method CommitAll<W, S>(acts: seq<Ops<W, S>>, ghost w0: W, states: seq<S>, v: W, calls: seq<Call>) returns (w: W, log: seq<Call>)
    requires |states| <= |acts| && forall i :: 0 <= i < |states| ==> states[i] == StateOf(acts, w0, i)
    ensures w == Committed(acts, w0, v, |states|) && log == calls + Up(Commit, |states|)
  {
    w, log := v, calls;
    for k := 0 to |states|
      invariant w == Committed(acts, w0, v, k) && log == calls + Up(Commit, k)
    {
      w := acts[k].commit(w, states[k]);
      log := log + [Call(Commit, k)];
    }
  }

  /** The roll-back, last action first. */
  method AbortAll<W, S>(acts: seq<Ops<W, S>>, ghost w0: W, states: seq<S>, v: W, calls: seq<Call>) returns (w: W, log: seq<Call>)
    requires |states| <= |acts| && forall i :: 0 <= i < |states| ==> states[i] == StateOf(acts, w0, i)
    ensures w == Undone(acts, w0, v, |states|) && log == calls + Down(Abort, |states|)
  {
    w, log := v, calls;
    for k := |states| downto 0
      invariant Undone(acts, w0, w, k) == Undone(acts, w0, v, |states|)
      invariant log == calls + Down(Abort, |states|)[..|states| - k]
    {
      w := acts[k].abort(w, states[k]);
      log := log + [Call(Abort, k)];
      assert Down(Abort, |states|)[..|states| - k] == Down(Abort, |states|)[..|states| - k - 1] + [Call(Abort, k)];
    }
    assert Down(Abort, |states|)[..|states|] == Down(Abort, |states|);
  }

  method CleanAll<W, S>(acts: seq<Ops<W, S>>, ghost w0: W, states: seq<S>, v: W, calls: seq<Call>) returns (w: W, log: seq<Call>)
    requires |states| <= |acts| && forall i :: 0 <= i < |states| ==> states[i] == StateOf(acts, w0, i)
    ensures w == Cleaned(acts, w0, v, |states|) && log == calls + Up(Clean, |states|)
  {
    w, log := v, calls;
    for k := 0 to |states|
      invariant w == Cleaned(acts, w0, v, k) && log == calls + Up(Clean, k)
    {
      w := acts[k].clean(w, states[k]);
      log := log + [Call(Clean, k)];
    }
  }

  // ----- dirty bitmaps -----

  type Name = nat

  /** A bitmap; `blocked` stands for busy or inconsistent. */
  datatype Bitmap = Bitmap(enabled: bool, dirty: set<nat>, blocked: bool, readonly: bool)

  /** The bitmaps of a node; `crashed` tells that a null bitmap was followed or an
      operation that must not fail did. */
  datatype World = World(bitmaps: map<Name, Bitmap>, crashed: bool)

  /** A bitmap action.  `ok` is the outcome of checks made elsewhere: the completion
      mode, and for an addition the node, name and granularity. */
  datatype Act = Add(name: Name, disabled: bool, ok: bool) | Clear(name: Name, ok: bool) | Enable(name: Name, ok: bool) | Disable(name: Name, ok: bool)

  /** BlockDirtyBitmapState, zero when allocated; `found` for a non-null bitmap. */
  datatype Saved = Saved(found: bool, backup: Option<set<nat>>, prepared: bool, wasEnabled: bool)

  const ZERO := Saved(false, None, false, false)

  function WithBitmap(w: World, n: Name, b: Bitmap): World { w.(bitmaps := w.bitmaps[n := b]) }

  /** The four .prepare callbacks. */
  function PrepareAct(a: Act, w: World): Prepared<World, Saved> {
    match a
    case Add(n, disabled, ok) =>
      if !ok || n in w.bitmaps then Prepared(w, ZERO, false)
      else Prepared(WithBitmap(w, n, Bitmap(!disabled, {}, false, false)), ZERO.(prepared := true), true)
    case Clear(n, ok) =>
      if !ok || n !in w.bitmaps then Prepared(w, ZERO, false)
      else if w.bitmaps[n].blocked || w.bitmaps[n].readonly then Prepared(w, ZERO.(found := true), false)
      else Prepared(WithBitmap(w, n, w.bitmaps[n].(dirty := {})), ZERO.(found := true, backup := Some(w.bitmaps[n].dirty)), true)
    case Enable(n, ok) =>
      if !ok || n !in w.bitmaps then Prepared(w, ZERO, false)
      else if w.bitmaps[n].blocked then Prepared(w, ZERO.(found := true), false)
      else Prepared(WithBitmap(w, n, w.bitmaps[n].(enabled := true)), ZERO.(found := true, wasEnabled := w.bitmaps[n].enabled), true)
    case Disable(n, ok) =>
      if !ok || n !in w.bitmaps then Prepared(w, ZERO, false)
      else if w.bitmaps[n].blocked then Prepared(w, ZERO.(found := true), false)
      else Prepared(WithBitmap(w, n, w.bitmaps[n].(enabled := false)), ZERO.(found := true, wasEnabled := w.bitmaps[n].enabled), true)
  }

  /** The four .abort callbacks. */
  function AbortAct(a: Act, w: World, s: Saved): World {
    match a
    case Add(n, _, _) =>
      if !s.prepared then w
      else if n !in w.bitmaps || w.bitmaps[n].blocked then w.(crashed := true)
      else w.(bitmaps := w.bitmaps - {n})
    case Clear(n, _) =>
      if s.backup.None? then w
      else if n !in w.bitmaps then w.(crashed := true)
      else WithBitmap(w, n, w.bitmaps[n].(dirty := s.backup.value))
    case Enable(n, _) =>
      if s.wasEnabled then w
      else if !s.found || n !in w.bitmaps then w.(crashed := true)
      else WithBitmap(w, n, w.bitmaps[n].(enabled := false))
    case Disable(n, _) =>
      if !s.wasEnabled then w
      else if n !in w.bitmaps then w.(crashed := true)
      else WithBitmap(w, n, w.bitmaps[n].(enabled := true))
  }

  /** None of the four touches a bitmap on commit or clean: they free the backup. */
  function OpsOf(a: Act): Ops<World, Saved> {
    Ops((w: World) => PrepareAct(a, w), (w: World, s: Saved) => w, (w: World, s: Saved) => AbortAct(a, w, s), (w: World, s: Saved) => w)
  }

  function OpsAll(list: seq<Act>): seq<Ops<World, Saved>> { seq(|list|, i requires 0 <= i < |list| => OpsOf(list[i])) }

  /** When the abort of an action takes back its prepare: always, except for an
      `enable` that failed before it could tell how it found the bitmap, and did not
      find it disabled. */
  predicate Reversible(a: Act, w: World) {
    a.Enable? && !PrepareAct(a, w).ok && !w.crashed ==> a.ok && a.name in w.bitmaps && !w.bitmaps[a.name].enabled
  }

  lemma {:induction false} UndoesIff(a: Act, w: World)
    requires !w.crashed
    ensures Undoes(OpsOf(a), w) <==> Reversible(a, w)
  {
    var p := PrepareAct(a, w);
    var v := AbortAct(a, p.world, p.state);
    assert Undoes(OpsOf(a), w) <==> v == w;
    if p.ok {
      assert v.bitmaps == w.bitmaps;
    } else if a.Enable? && a.ok && a.name in w.bitmaps {
      assert !w.bitmaps[a.name].enabled ==> v.bitmaps == w.bitmaps;
    }
  }

  /** The bitmaps after k prepares of a list. */
  function Bitmaps(list: seq<Act>, w: World, k: nat): World
    requires k <= |list|
  {
    After(OpsAll(list), w, k)
  }

  lemma {:induction false} BitmapsStep(list: seq<Act>, w: World, k: nat)
    requires 0 < k <= |list|
    ensures Bitmaps(list, w, k) == PrepareAct(list[k - 1], Bitmaps(list, w, k - 1)).world
    ensures Succeeds(OpsAll(list), w, k - 1) == PrepareAct(list[k - 1], Bitmaps(list, w, k - 1)).ok
    ensures StateOf(OpsAll(list), w, k - 1) == PrepareAct(list[k - 1], Bitmaps(list, w, k - 1)).state
  {}

  lemma {:induction false} UndoneAct(list: seq<Act>, w: World, v: World, k: nat)
    requires 0 < k <= |list|
    ensures Undone(OpsAll(list), w, v, k) ==
            Undone(OpsAll(list), w, AbortAct(list[k - 1], v, StateOf(OpsAll(list), w, k - 1)), k - 1)
  {}

  lemma {:induction false} NeverCrashesPreparing(list: seq<Act>, w: World, k: nat)
    requires k <= |list| && !w.crashed
    ensures !Bitmaps(list, w, k).crashed
    decreases k
  {
    if k > 0 {
      BitmapsStep(list, w, k);
      NeverCrashesPreparing(list, w, k - 1);
    }
  }

  lemma {:induction false} CrashSticks(list: seq<Act>, w: World, v: World, k: nat)
    requires k <= |list| && v.crashed
    ensures Undone(OpsAll(list), w, v, k).crashed
    decreases k
  {
    if k > 0 {
      UndoneAct(list, w, v, k);
      CrashSticks(list, w, AbortAct(list[k - 1], v, StateOf(OpsAll(list), w, k - 1)), k - 1);
    }
  }

  ghost predicate AllSucceed(list: seq<Act>, w: World, k: nat)
    requires k <= |list|
  {
    forall i :: 0 <= i < k ==> Succeeds(OpsAll(list), w, i)
  }

  /** A blocked bitmap was there from the start, and no action that succeeded was
      about it. */
  lemma {:induction false} BlockedIsUntouched(list: seq<Act>, w: World, k: nat, n: Name)
    requires k <= |list| && AllSucceed(list, w, k)
    requires n in Bitmaps(list, w, k).bitmaps && Bitmaps(list, w, k).bitmaps[n].blocked
    ensures n in w.bitmaps && w.bitmaps[n] == Bitmaps(list, w, k).bitmaps[n]
    ensures forall i :: 0 <= i < k ==> list[i].name != n
    decreases k
  {
    if k > 0 {
      BitmapsStep(list, w, k);
      assert Succeeds(OpsAll(list), w, k - 1);
      assert list[k - 1].name != n;
      BlockedIsUntouched(list, w, k - 1, n);
    }
  }

  /** Preparing takes no bitmap away. */
  lemma {:induction false} StillThere(list: seq<Act>, w: World, k: nat, n: Name)
    requires k <= |list| && n in w.bitmaps
    ensures n in Bitmaps(list, w, k).bitmaps
    decreases k
  {
    if k > 0 {
      StillThere(list, w, k - 1, n);
      BitmapsStep(list, w, k);
    }
  }

  lemma {:induction false} AbortElsewhere(a: Act, v: World, s: Saved, n: Name)
    requires a.name != n && n in v.bitmaps
    ensures n in AbortAct(a, v, s).bitmaps && AbortAct(a, v, s).bitmaps[n] == v.bitmaps[n]
  {}

  /** Aborts of actions about other bitmaps leave a bitmap alone. */
  lemma {:induction false} UndoneElsewhere(list: seq<Act>, w: World, v: World, k: nat, n: Name)
    requires k <= |list| && n in v.bitmaps && forall i :: 0 <= i < k ==> list[i].name != n
    ensures n in Undone(OpsAll(list), w, v, k).bitmaps && Undone(OpsAll(list), w, v, k).bitmaps[n] == v.bitmaps[n]
    decreases k
  {
    if k > 0 {
      hide StateOf, PrepareAct, OpsAll;
      UndoneAct(list, w, v, k);
      assert list[k - 1].name != n;
      AbortElsewhere(list[k - 1], v, StateOf(OpsAll(list), w, k - 1), n);
      hide AbortAct;
      UndoneElsewhere(list, w, AbortAct(list[k - 1], v, StateOf(OpsAll(list), w, k - 1)), k - 1, n);
    }
  }

  /** What a transaction of bitmap actions leaves when action k is the first to fail. */
  function Outcome(list: seq<Act>, w: World, k: nat): World
    requires k < |list|
  {
    Cleaned(OpsAll(list), w, Undone(OpsAll(list), w, Bitmaps(list, w, k + 1), k + 1), k + 1)
  }

  lemma {:induction false} TidyOps(list: seq<Act>, i: nat)
    requires i < |list|
    ensures Tidy(OpsAll(list)[i])
  {
    assert OpsAll(list)[i] == OpsOf(list[i]);
  }

  lemma {:induction false} OutcomeIs(list: seq<Act>, w: World, k: nat)
    requires k < |list|
    ensures Outcome(list, w, k) == Undone(OpsAll(list), w, Bitmaps(list, w, k + 1), k + 1)
  {
    forall i | 0 <= i < k + 1 ensures Tidy(OpsAll(list)[i]) { TidyOps(list, i); }
    CleanedIsSame(OpsAll(list), w, Undone(OpsAll(list), w, Bitmaps(list, w, k + 1), k + 1), k + 1);
  }

  lemma {:induction false} ReversibleRestores(list: seq<Act>, w: World, k: nat)
    requires k < |list| && !w.crashed && AllSucceed(list, w, k) && Reversible(list[k], Bitmaps(list, w, k))
    ensures Outcome(list, w, k) == w
  {
    forall i | 0 <= i <= k ensures UndoesAt(OpsAll(list), w, i) {
      NeverCrashesPreparing(list, w, i);
      UndoesIff(list[i], Bitmaps(list, w, i));
      if i < k {
        assert Succeeds(OpsAll(list), w, i);
        BitmapsStep(list, w, i + 1);
      }
      assert OpsAll(list)[i] == OpsOf(list[i]);
    }
    OutcomeIs(list, w, k);
    UndoneIsInitial(OpsAll(list), w, k + 1);
  }

  lemma {:induction false} IrreversibleChanges(list: seq<Act>, w: World, k: nat)
    requires k < |list| && !w.crashed && AllSucceed(list, w, k) && !Reversible(list[k], Bitmaps(list, w, k))
    ensures Outcome(list, w, k) != w
  {
    OutcomeIs(list, w, k);
    BitmapsStep(list, w, k + 1);
    var wk, n := Bitmaps(list, w, k), list[k].name;
    var v := AbortAct(list[k], Bitmaps(list, w, k + 1), StateOf(OpsAll(list), w, k));
    UndoneAct(list, w, Bitmaps(list, w, k + 1), k + 1);
    if !list[k].ok || n !in wk.bitmaps {
      CrashSticks(list, w, v, k);
    } else {
      BlockedIsUntouched(list, w, k, n);
      UndoneElsewhere(list, w, v, k, n);
    }
  }

  /** Exactly when a failed transaction of bitmap actions leaves everything as it was:
      unless the failing action is an `enable` whose bitmap could not be looked up, or
      was enabled to begin with. */
  lemma {:induction false} FailedBitmapsIff(list: seq<Act>, w: World, k: nat)
    requires k < |list| && !w.crashed && AllSucceed(list, w, k) && !PrepareAct(list[k], Bitmaps(list, w, k)).ok
    ensures Outcome(list, w, k) == w <==>
            list[k].Enable? ==> list[k].ok && list[k].name in w.bitmaps && !w.bitmaps[list[k].name].enabled
  {
    NeverCrashesPreparing(list, w, k);
    if list[k].Enable? && list[k].ok {
      if list[k].name in w.bitmaps { StillThere(list, w, k, list[k].name); }
      if list[k].name in Bitmaps(list, w, k).bitmaps { BlockedIsUntouched(list, w, k, list[k].name); }
    }
    if Reversible(list[k], Bitmaps(list, w, k)) {
      ReversibleRestores(list, w, k);
    } else {
      IrreversibleChanges(list, w, k);
    }
  }

  /** For one: enabling a busy bitmap that is already enabled fails, and leaves the
      bitmap disabled. */
  lemma {:induction false} EnableExample()
    ensures var b := Bitmap(true, {}, true, false);
      var w := World(map[1 := b], false);
      Outcome([Enable(1, true)], w, 0) == World(map[1 := b.(enabled := false)], false)
  {
    var b := Bitmap(true, {}, true, false);
    var w := World(map[1 := b], false);
    var list := [Enable(1, true)];
    OutcomeIs(list, w, 0);
    BitmapsStep(list, w, 1);
    UndoneAct(list, w, Bitmaps(list, w, 1), 1);
    assert Bitmaps(list, w, 0) == w;
    assert w.bitmaps[1 := b.(enabled := false)] == map[1 := b.(enabled := false)];
  }
}
