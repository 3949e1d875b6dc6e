/**
 The mutable block layer and its transactions (util/transactions.c and the
 TransactionActionDrv tables of block.c).
 */
module BlockState {
  import opened Basics
  import opened BlockGraph

  /** What block drivers contribute: static facts about each node, and the
      .bdrv_check_perm and .bdrv_child_perm callbacks, as arbitrary functions. */
  datatype Drivers = Drivers(present: Node -> bool, writable: Node -> bool, sizeAligned: Node -> bool,
                             forceShare: Node -> bool,
                             checkPerm: (Node, Perms, Perms) -> bool,
                             childPerm: (Node, EdgeId, Perms, Perms) -> (Perms, Perms))

  /** An entry of a Transaction: enough to take one change back.  `slot` is the
      node whose backing (or filtered file) pointer the change wrote, if any. */
  datatype Undo =
    | SetPerm(edge: EdgeId, perm: Perms, shared: Perms)               // bdrv_child_set_pem_drv
    | DriverPerm(node: Node)                                          // bdrv_drv_set_perm_drv
    | ReplaceChild(edge: EdgeId, oldBs: Node, slot: Option<Node>)     // bdrv_replace_child_drv
    | AttachChild(edge: EdgeId, slot: Option<Node>)                   // bdrv_attach_child_common_drv
    | RemoveChild(edge: EdgeId, node: Node)                           // bdrv_remove_filter_or_cow_child_drv

  /** Edges, reference counts, and each node's backing (or filtered file) edge. */
  datatype World = World(edges: map<EdgeId, Edge>, refcnt: map<Node, int>, chain: map<Node, EdgeId>)

  function AddRef(refcnt: map<Node, int>, n: Option<Node>, delta: int): map<Node, int> {
    if n.Some? && n.value in refcnt then refcnt[n.value := refcnt[n.value] + delta] else refcnt
  }

  function SetSlot(chain: map<Node, EdgeId>, slot: Option<Node>, e: EdgeId): map<Node, EdgeId> {
    if slot.Some? then chain[slot.value := e] else chain
  }

  function ClearSlot(chain: map<Node, EdgeId>, slot: Option<Node>): map<Node, EdgeId> {
    if slot.Some? then chain - {slot.value} else chain
  }

  /** The .abort callback of one entry (and its .clean, for RemoveChild). */
  function Abort(w: World, u: Undo): World {
    match u
    case SetPerm(e, perm, shared) =>
      if e in w.edges then w.(edges := w.edges[e := w.edges[e].(perm := perm, shared := shared)]) else w
    case DriverPerm(_) => w
    case ReplaceChild(e, oldBs, slot) =>
      if e !in w.edges then w
      else World(w.edges[e := w.edges[e].(bs := Some(oldBs))], AddRef(w.refcnt, w.edges[e].bs, -1),
                 SetSlot(w.chain, slot, e))
    case AttachChild(e, slot) =>
      if e !in w.edges then w
      else World(w.edges - {e}, AddRef(w.refcnt, w.edges[e].bs, -1), ClearSlot(w.chain, slot))
    case RemoveChild(e, n) => World(w.edges, AddRef(w.refcnt, Some(n), -1), w.chain)
  }

  /** tran_abort: newest entry first. */
  function AbortAll(w: World, log: seq<Undo>): World
    decreases |log|
  {
    if log == [] then w else AbortAll(Abort(w, log[|log| - 1]), log[..|log| - 1])
  }

  lemma {:induction false} AbortPushed(w: World, log: seq<Undo>, u: Undo)
    ensures AbortAll(w, log + [u]) == AbortAll(Abort(w, u), log)
  {
    assert (log + [u])[..|log|] == log;
  }

  /** The .commit callback of one entry: drop what was kept for an abort. */
  function Commit(w: World, u: Undo): World {
    match u
    case ReplaceChild(_, oldBs, _) => w.(refcnt := AddRef(w.refcnt, Some(oldBs), -1))
    case RemoveChild(e, n) => w.(edges := w.edges - {e}, refcnt := AddRef(w.refcnt, Some(n), -1))
    case _ => w
  }

  /** tran_commit: newest entry first, too. */
  function CommitAll(w: World, log: seq<Undo>): World
    decreases |log|
  {
    if log == [] then w else CommitAll(Commit(w, log[|log| - 1]), log[..|log| - 1])
  }

  class Transaction {
    var log: seq<Undo>

    constructor ()
      ensures log == []
    {
      log := [];
    }

    /** tran_add */
    method Add(u: Undo)
      modifies this
      ensures log == old(log) + [u]
    {
      log := log + [u];
    }
  }

  // ----- permissions -----

  function CumulativePerm(g: Graph, n: Node): Perms {
    set p | p in ALL && exists e :: e in g.Parents(n) && p in g.edges[e].perm
  }

  function CumulativeShared(g: Graph, n: Node): Perms {
    set p | p in ALL && forall e :: e in g.Parents(n) ==> p in g.edges[e].shared
  }

  /** bdrv_child_perm: the driver's answer, overruled by force_share. */
  function ChildPerm(d: Drivers, g: Graph, n: Node, e: EdgeId, perm: Perms, shared: Perms): (Perms, Perms)
    requires e in g.edges && g.edges[e].bs.Some?
  {
    var r := d.childPerm(n, e, perm, shared);
    (r.0, if d.forceShare(g.edges[e].bs.value) then ALL else r.1)
  }

  /** bdrv_a_allow_b */
  predicate Allows(a: Edge, b: Edge) { b.perm <= a.shared }

  ghost predicate NoConflict(g: Graph, n: Node) {
    forall a, b :: a in g.Parents(n) && b in g.Parents(n) && a != b ==> Allows(g.edges[a], g.edges[b])
  }

  predicate MayWrite(perm: Perms) { Write in perm || WriteUnchanged in perm }

  /** Node n can carry what its parents ask for. */
  predicate Carries(d: Drivers, g: Graph, n: Node) {
    var perm, shared := CumulativePerm(g, n), CumulativeShared(g, n);
    && (MayWrite(perm) ==> d.writable(n) && (Resize in perm || d.sizeAligned(n)))
    && (d.present(n) ==> d.checkPerm(n, perm, shared))
  }

  /** The permissions around node n are in order: its parents agree, the node can
      carry what they ask for, and its children are asked for what its driver
      derives from exactly these permissions. */
  ghost predicate InOrder(d: Drivers, g: Graph, n: Node) {
    && NoConflict(g, n) && Carries(d, g, n)
    && (d.present(n) ==> forall e :: e in g.Children(n) ==>
          (g.edges[e].perm, g.edges[e].shared) == ChildPerm(d, g, n, e, CumulativePerm(g, n), CumulativeShared(g, n)))
  }

  /** Equal but for permissions. */
  ghost predicate SameShape(g: Graph, g': Graph) {
    && g'.nodes == g.nodes && g'.edges.Keys == g.edges.Keys
    && forall e :: e in g.edges ==> g'.edges[e].(perm := g.edges[e].perm, shared := g.edges[e].shared) == g.edges[e]
  }

  lemma {:induction false} SameShapeArrows(g: Graph, g': Graph)
    requires SameShape(g, g')
    ensures forall n: Node :: g'.Children(n) == g.Children(n) && g'.Parents(n) == g.Parents(n)
    ensures forall a: Node, b: Node :: g'.Arrow(a, b) <==> g.Arrow(a, b)
    ensures g.Valid() ==> g'.Valid()
  {
    forall n: Node ensures g'.Children(n) == g.Children(n) && g'.Parents(n) == g.Parents(n) {}
    forall a: Node, b: Node ensures g'.Arrow(a, b) <==> g.Arrow(a, b) {
      if g.Arrow(a, b) {
        var e :| e in g.Children(a) && g.edges[e].bs == Some(b);
        assert e in g'.Children(a);
      }
      if g'.Arrow(a, b) {
        var e :| e in g'.Children(a) && g'.edges[e].bs == Some(b);
        assert e in g.Children(a);
      }
    }
  }

  /** Node n cannot tell two graphs apart that agree on the edges around it. */
  lemma {:induction false} InOrderFrame(d: Drivers, g: Graph, g': Graph, n: Node)
    requires SameShape(g, g') && InOrder(d, g, n)
    requires forall e :: e in g.Parents(n) || e in g.Children(n) ==> g'.edges[e] == g.edges[e]
    ensures InOrder(d, g', n)
  {
    SameShapeArrows(g, g');
    CumulativeFrame(g, g', n);
  }

  lemma {:induction false} CumulativeFrame(g: Graph, g': Graph, n: Node)
    requires SameShape(g, g') && forall e :: e in g.Parents(n) ==> g'.edges[e] == g.edges[e]
    ensures g'.Parents(n) == g.Parents(n)
    ensures CumulativePerm(g', n) == CumulativePerm(g, n) && CumulativeShared(g', n) == CumulativeShared(g, n)
  {
    SameShapeArrows(g, g');
  }

  /** A log that has grown by permission entries only. */
  ghost predicate PermsOnly(log: seq<Undo>, log': seq<Undo>) {
    log <= log' && forall i :: |log| <= i < |log'| ==> log'[i].SetPerm? || log'[i].DriverPerm?
  }

  ghost predicate OnlyChildrenChanged(g: Graph, g': Graph, bs: Node) {
    forall e :: e in g.edges && e in g'.edges && e !in g.Children(bs) ==> g'.edges[e] == g.edges[e]
  }

  /** Every changed edge leads from a listed node to a listed node. */
  ghost predicate OnlyBelow(g: Graph, g': Graph, list: seq<Node>) {
    forall e :: e in g.edges && e in g'.edges && g'.edges[e] != g.edges[e] ==>
      && g.edges[e].owner.Some? && g.edges[e].owner.value in list
      && g.edges[e].bs.Some? && g.edges[e].bs.value in list
  }

  /** g' is g with the children of bs, except those still to do, re-derived. */
  ghost predicate Derived(d: Drivers, g: Graph, g': Graph, bs: Node, todo: set<EdgeId>, perm: Perms, shared: Perms) {
    && SameShape(g, g') && OnlyChildrenChanged(g, g', bs)
    && forall e :: e in g.Children(bs) - todo ==>
         (g'.edges[e].perm, g'.edges[e].shared) == ChildPerm(d, g, bs, e, perm, shared)
  }

  lemma {:induction false} DerivedStep(d: Drivers, g: Graph, g': Graph, bs: Node, todo: set<EdgeId>,
                                       perm: Perms, shared: Perms, c: EdgeId)
    requires Derived(d, g, g', bs, todo, perm, shared) && c in g.Children(bs)
    ensures c in g'.edges && g'.edges[c].bs.Some?
    ensures var r := ChildPerm(d, g', bs, c, perm, shared);
            Derived(d, g, g'.(edges := g'.edges[c := g'.edges[c].(perm := r.0, shared := r.1)]), bs, todo - {c}, perm, shared)
  {
    assert g'.edges[c].bs == g.edges[c].bs;
  }

  lemma {:induction false} NowInOrder(d: Drivers, g: Graph, g': Graph, bs: Node)
    requires !g.Arrow(bs, bs) && NoConflict(g, bs)
    requires Derived(d, g, g', bs, {}, CumulativePerm(g, bs), CumulativeShared(g, bs))
    requires Carries(d, g, bs)
    ensures InOrder(d, g', bs)
  {
    SameShapeArrows(g, g');
    CumulativeFrame(g, g', bs);
  }

  lemma {:induction false} NotOwnChild(g: Graph, list: seq<Node>, k: nat)
    requires Sorted(g, list) && k < |list|
    ensures !g.Arrow(list[k], list[k])
    ensures forall i :: 0 <= i < k ==> !g.Arrow(list[k], list[i])
  {
    forall i | 0 <= i <= k ensures !g.Arrow(list[k], list[i]) {
      if g.Arrow(list[k], list[i]) {
        assert false;
      }
    }
  }

  lemma {:induction false} NextBelow(g: Graph, before: Graph, after: Graph, list: seq<Node>, k: nat)
    requires Sorted(g, list) && k < |list|
    requires SameShape(g, before) && SameShape(before, after)
    requires OnlyBelow(g, before, list) && OnlyChildrenChanged(before, after, list[k])
    ensures SameShape(g, after) && OnlyBelow(g, after, list)
  {
    SameShapeArrows(g, before);
    forall e | e in g.edges && after.edges[e] != before.edges[e]
      ensures g.edges[e].owner == Some(list[k]) && g.edges[e].bs.Some? && g.edges[e].bs.value in list
    {
      assert e in before.Children(list[k]) && e in g.Children(list[k]);
      assert g.Arrow(list[k], g.edges[e].bs.value);
      assert g.edges[e].bs.value in list[k + 1..];
    }
  }

  /** Refreshing list[k] leaves the nodes before it in order. */
  lemma {:induction false} EarlierInOrder(d: Drivers, g: Graph, g': Graph, list: seq<Node>, k: nat)
    requires k < |list| && SameShape(g, g') && OnlyChildrenChanged(g, g', list[k])
    requires forall i :: 0 <= i < k ==> !g.Arrow(list[k], list[i]) && list[i] != list[k]
    requires forall i :: 0 <= i < k ==> InOrder(d, g, list[i])
    requires InOrder(d, g', list[k])
    ensures forall i :: 0 <= i <= k ==> InOrder(d, g', list[i])
  {
    forall i | 0 <= i < k ensures InOrder(d, g', list[i]) {
      forall e | e in g.Parents(list[i]) || e in g.Children(list[i]) ensures g'.edges[e] == g.edges[e] {
        if e in g.Children(list[k]) {
          assert false;
        }
      }
      InOrderFrame(d, g, g', list[i]);
    }
  }

  // ----- the pass finds the one consistent assignment there is -----

  /** Edge e is a child edge that the refreshing of a listed node writes. */
  predicate Written(d: Drivers, g: Graph, list: seq<Node>, e: EdgeId)
    requires e in g.edges
  {
    g.edges[e].owner.Some? && g.edges[e].bs.Some? && g.edges[e].owner.value in list && d.present(g.edges[e].owner.value)
  }

  /** g' gives the child edges of the listed nodes permissions that put all of these
      nodes in order, and changes nothing else. */
  ghost predicate Solution(d: Drivers, g: Graph, g': Graph, list: seq<Node>) {
    && SameShape(g, g')
    && (forall e :: e in g.edges && g'.edges[e] != g.edges[e] ==> Written(d, g, list, e))
    && forall n :: n in list ==> InOrder(d, g', n)
  }

  /** Two graphs agree but for the child edges of the nodes still to do. */
  ghost predicate Agree(d: Drivers, g: Graph, cur: Graph, sol: Graph, left: seq<Node>) {
    && SameShape(g, cur) && SameShape(g, sol)
    && forall e :: e in g.edges && !Written(d, g, left, e) ==> cur.edges[e] == sol.edges[e]
  }

  lemma {:induction false} AgreeAround(d: Drivers, g: Graph, cur: Graph, sol: Graph, list: seq<Node>, k: nat)
    requires Sorted(g, list) && k < |list| && Agree(d, g, cur, sol, list[k..])
    ensures forall e :: e in cur.Parents(list[k]) ==> cur.edges[e] == sol.edges[e]
  {
    SameShapeArrows(g, cur);
    forall e | e in g.Parents(list[k]) ensures !Written(d, g, list[k..], e) {
      if g.edges[e].owner.Some? && g.edges[e].owner.value in list[k..] {
        var i :| k <= i < |list| && list[i] == g.edges[e].owner.value;
        assert g.Arrow(list[i], list[k]);
        assert false;
      }
    }
  }

  /** Whatever solution there is, node list[k] finds its parents as in it. */
  lemma {:induction false} SolutionFits(d: Drivers, g: Graph, cur: Graph, sol: Graph, list: seq<Node>, k: nat)
    requires Sorted(g, list) && k < |list| && Agree(d, g, cur, sol, list[k..]) && InOrder(d, sol, list[k])
    ensures NoConflict(cur, list[k]) && Carries(d, cur, list[k])
    ensures CumulativePerm(cur, list[k]) == CumulativePerm(sol, list[k]) && CumulativeShared(cur, list[k]) == CumulativeShared(sol, list[k])
  {
    AgreeAround(d, g, cur, sol, list, k);
    AgreeShape(d, g, cur, sol, list[k..]);
    CumulativeFrame(cur, sol, list[k]);
  }

  lemma {:induction false} AgreeShape(d: Drivers, g: Graph, cur: Graph, sol: Graph, left: seq<Node>)
    requires Agree(d, g, cur, sol, left)
    ensures SameShape(cur, sol) && SameShape(sol, cur)
  {}

  /** ... and leaves its child edges as in it. */
  lemma {:induction false} SolutionKept(d: Drivers, g: Graph, cur: Graph, next: Graph, sol: Graph, list: seq<Node>, k: nat)
    requires k < |list| && Agree(d, g, cur, sol, list[k..]) && InOrder(d, sol, list[k])
    requires CumulativePerm(cur, list[k]) == CumulativePerm(sol, list[k]) && CumulativeShared(cur, list[k]) == CumulativeShared(sol, list[k])
    requires if d.present(list[k]) then Derived(d, cur, next, list[k], {}, CumulativePerm(cur, list[k]), CumulativeShared(cur, list[k]))
             else next.nodes == cur.nodes && next.edges == cur.edges
    ensures Agree(d, g, next, sol, list[k + 1..])
  {
    hide CumulativePerm, CumulativeShared, NoConflict, Carries;
    SameShapeArrows(g, cur);
    SameShapeArrows(g, sol);
    forall e | e in g.edges && !Written(d, g, list[k + 1..], e) ensures next.edges[e] == sol.edges[e] {
      if Written(d, g, list[k..], e) {
        assert g.edges[e].owner.value == list[k];
        assert e in cur.Children(list[k]) && e in sol.Children(list[k]);
      }
    }
  }

  /** Where the pass stands after the first k nodes of the list. */
  ghost predicate Passed(d: Drivers, g: Graph, cur: Graph, list: seq<Node>, k: nat)
    requires k <= |list|
  {
    && SameShape(g, cur) && OnlyBelow(g, cur, list)
    && (forall e :: e in g.edges && cur.edges[e] != g.edges[e] ==> Written(d, g, list, e))
    && (forall i :: 0 <= i < k ==> InOrder(d, cur, list[i]))
    && forall sol :: Solution(d, g, sol, list) ==> Agree(d, g, cur, sol, list[k..])
  }

  lemma {:induction false} PassedStart(d: Drivers, g: Graph, list: seq<Node>)
    ensures Passed(d, g, g, list, 0)
  {
    assert list[0..] == list;
  }

  lemma {:induction false} PassedReady(d: Drivers, g: Graph, cur: Graph, list: seq<Node>, k: nat)
    requires Sorted(g, list) && k < |list| && Passed(d, g, cur, list, k)
    ensures !cur.Arrow(list[k], list[k]) && SameShape(g, cur) && OnlyBelow(g, cur, list)
    ensures (exists sol :: Solution(d, g, sol, list)) ==> NoConflict(cur, list[k]) && Carries(d, cur, list[k])
  {
    hide InOrder, NoConflict, Carries, SameShape, OnlyBelow;
    SameShapeArrows(g, cur);
    NotOwnChild(g, list, k);
    if sol :| Solution(d, g, sol, list) {
      SolutionFits(d, g, cur, sol, list, k);
    }
  }

  lemma {:induction false} SolutionParts(d: Drivers, g: Graph, g': Graph, list: seq<Node>)
    requires Solution(d, g, g', list)
    ensures SameShape(g, g') && forall n :: n in list ==> InOrder(d, g', n)
  {
    hide InOrder, SameShape;
  }

  lemma {:induction false} PassedParts(d: Drivers, g: Graph, cur: Graph, list: seq<Node>)
    requires Passed(d, g, cur, list, |list|)
    ensures OnlyBelow(g, cur, list)
  {
    hide InOrder, SameShape, OnlyBelow, Agree;
  }

  /** What refreshing node bs does when it succeeds. */
  ghost predicate Refreshed(d: Drivers, g: Graph, g': Graph, bs: Node) {
    && g'.nodes == g.nodes
    && if d.present(bs) then Derived(d, g, g', bs, {}, CumulativePerm(g, bs), CumulativeShared(g, bs)) else g'.edges == g.edges
  }

  lemma {:induction false} RefreshedWrites(d: Drivers, g: Graph, cur: Graph, next: Graph, list: seq<Node>, k: nat)
    requires Sorted(g, list) && k < |list| && SameShape(g, cur) && Refreshed(d, cur, next, list[k])
    requires OnlyBelow(g, cur, list) && forall e :: e in g.edges && cur.edges[e] != g.edges[e] ==> Written(d, g, list, e)
    ensures SameShape(cur, next) && OnlyChildrenChanged(cur, next, list[k]) && SameShape(g, next) && OnlyBelow(g, next, list)
    ensures forall e :: e in g.edges && next.edges[e] != g.edges[e] ==> Written(d, g, list, e)
  {
    hide CumulativePerm, CumulativeShared;
    SameShapeArrows(g, cur);
    NextBelow(g, cur, next, list, k);
  }

  lemma {:induction false} PassedNext(d: Drivers, g: Graph, cur: Graph, next: Graph, list: seq<Node>, k: nat)
    requires Sorted(g, list) && k < |list| && Passed(d, g, cur, list, k)
    requires Refreshed(d, cur, next, list[k]) && InOrder(d, next, list[k])
    ensures Passed(d, g, next, list, k + 1)
  {
    hide InOrder, NoConflict, Carries, SameShape, OnlyBelow, CumulativePerm, CumulativeShared, Derived, Agree, Written;
    RefreshedWrites(d, g, cur, next, list, k);
    SameShapeArrows(g, cur);
    NotOwnChild(g, list, k);
    EarlierInOrder(d, cur, next, list, k);
    forall sol | Solution(d, g, sol, list) ensures Agree(d, g, next, sol, list[k + 1..]) {
      SolutionFits(d, g, cur, sol, list, k);
      SolutionKept(d, g, cur, next, sol, list, k);
    }
  }

  lemma {:induction false} PassedEnd(d: Drivers, g: Graph, cur: Graph, list: seq<Node>)
    requires Passed(d, g, cur, list, |list|)
    ensures Solution(d, g, cur, list)
    ensures forall sol :: Solution(d, g, sol, list) ==> sol == cur
  {
    hide InOrder;
    forall sol | Solution(d, g, sol, list) ensures sol == cur {
      assert Agree(d, g, cur, sol, []) by { assert list[|list|..] == []; }
      assert sol.edges == cur.edges;
    }
  }

  class BlockLayer {
    const drivers: Drivers
    const nodes: set<Node>
    var edges: map<EdgeId, Edge>
    var refcnt: map<Node, int>
    var chain: map<Node, EdgeId>

    function G(): Graph
      reads this
    {
      Graph(nodes, edges)
    }

    function W(): World
      reads this
    {
      World(edges, refcnt, chain)
    }

    /** bdrv_get_cumulative_perm */
    method GetCumulativePerm(bs: Node) returns (perm: Perms, shared: Perms)
      ensures perm == CumulativePerm(G(), bs) && shared == CumulativeShared(G(), bs)
    {
      perm, shared := {}, ALL;
      var todo := G().Parents(bs);
      while todo != {}
        invariant todo <= G().Parents(bs)
        invariant forall p :: p in perm <==> exists e :: e in G().Parents(bs) - todo && p in edges[e].perm
        invariant forall p :: p in shared <==> p in ALL && forall e :: e in G().Parents(bs) - todo ==> p in edges[e].shared
      {
        var c :| c in todo;
        todo := todo - {c};
        perm := perm + edges[c].perm;
        shared := shared * edges[c].shared;
      }
      forall p: Perm ensures p in ALL { EveryPerm(p); }
    }

    /** bdrv_parent_perms_conflict */
    method ParentPermsConflict(bs: Node) returns (conflict: bool)
      ensures !conflict <==> NoConflict(G(), bs)
    {
      var left := G().Parents(bs);
      while left != {}
        invariant left <= G().Parents(bs)
        invariant forall a, b :: a in G().Parents(bs) - left && b in G().Parents(bs) && a != b ==> Allows(edges[a], edges[b])
      {
        var a :| a in left;
        left := left - {a};
        var right := G().Parents(bs);
        while right != {}
          invariant right <= G().Parents(bs)
          invariant forall b :: b in G().Parents(bs) - right && a != b ==> Allows(edges[a], edges[b])
        {
          var b :| b in right;
          right := right - {b};
          if a != b && !Allows(edges[a], edges[b]) {
            return true;
          }
        }
      }
      return false;
    }

    /** bdrv_child_set_perm */
    method ChildSetPerm(e: EdgeId, perm: Perms, shared: Perms, tran: Transaction)
      requires e in edges
      modifies this`edges, tran
      ensures edges == old(edges)[e := old(edges[e]).(perm := perm, shared := shared)]
      ensures tran.log == old(tran.log) + [SetPerm(e, old(edges[e].perm), old(edges[e].shared))]
      ensures AbortAll(W(), tran.log) == old(AbortAll(W(), tran.log))
    {
      ghost var w, log := W(), tran.log;
      var u := SetPerm(e, edges[e].perm, edges[e].shared);
      edges := edges[e := edges[e].(perm := perm, shared := shared)];
      tran.Add(u);
      AbortPushed(W(), log, u);
      assert Abort(W(), u) == w;
    }

    /** The loop over bs->children in bdrv_node_refresh_perm. */
    method RefreshChildren(bs: Node, perm: Perms, shared: Perms, tran: Transaction)
      modifies this`edges, tran
      ensures Derived(drivers, old(G()), G(), bs, {}, perm, shared)
      ensures AbortAll(W(), tran.log) == old(AbortAll(W(), tran.log))
      ensures PermsOnly(old(tran.log), tran.log)
    {
      ghost var g := G();
      var todo := G().Children(bs);
      while todo != {}
        invariant todo <= g.Children(bs)
        invariant Derived(drivers, g, G(), bs, todo, perm, shared)
        invariant AbortAll(W(), tran.log) == old(AbortAll(W(), tran.log))
        invariant PermsOnly(old(tran.log), tran.log)
      {
        var c :| c in todo;
        DerivedStep(drivers, g, G(), bs, todo, perm, shared, c);
        todo := todo - {c};
        var r := ChildPerm(drivers, G(), bs, c, perm, shared);
        ChildSetPerm(c, r.0, r.1, tran);
      }
    }

    /** bdrv_node_refresh_perm, including bdrv_drv_set_perm: check the node's
        cumulative permissions and pass them on to its children. */
    method NodeRefreshPerm(bs: Node, tran: Transaction) returns (ok: bool)
      requires NoConflict(G(), bs) && !G().Arrow(bs, bs)
      modifies this`edges, tran
      ensures SameShape(old(G()), G())
      ensures OnlyChildrenChanged(old(G()), G(), bs)
      ensures AbortAll(W(), tran.log) == old(AbortAll(W(), tran.log))
      ensures PermsOnly(old(tran.log), tran.log)
      ensures ok <==> Carries(drivers, old(G()), bs)
      ensures ok ==> InOrder(drivers, G(), bs)
      ensures ok && drivers.present(bs) ==>
                Derived(drivers, old(G()), G(), bs, {}, CumulativePerm(old(G()), bs), CumulativeShared(old(G()), bs))
      ensures !ok || !drivers.present(bs) ==> edges == old(edges)
    {
      var perm, shared := GetCumulativePerm(bs);
      if MayWrite(perm) && !drivers.writable(bs) {
        return false;
      }
      if MayWrite(perm) && Resize !in perm && !drivers.sizeAligned(bs) {
        return false;
      }
      if !drivers.present(bs) {
        return true;
      }
      if !drivers.checkPerm(bs, perm, shared) {
        return false;
      }
      AbortPushed(W(), tran.log, DriverPerm(bs));
      tran.Add(DriverPerm(bs));
      RefreshChildren(bs, perm, shared, tran);
      NowInOrder(drivers, old(G()), G(), bs);
      return true;
    }

    /** One pass of bdrv_list_refresh_perms over a list that is topologically
        sorted and child-closed leaves the permissions around every listed node
        in order, all at once: nothing a later node does disturbs an earlier one.
        It succeeds exactly when such permissions exist, and they are the only ones. */
    method ListRefreshPerms(list: seq<Node>, tran: Transaction) returns (ok: bool)
      requires Sorted(G(), list)
      modifies this`edges, tran
      ensures SameShape(old(G()), G())
      ensures OnlyBelow(old(G()), G(), list)
      ensures AbortAll(W(), tran.log) == old(AbortAll(W(), tran.log))
      ensures PermsOnly(old(tran.log), tran.log)
      ensures ok ==> forall n :: n in list ==> InOrder(drivers, G(), n)
      ensures ok ==> Solution(drivers, old(G()), G(), list)
      ensures forall sol :: Solution(drivers, old(G()), sol, list) ==> ok && G() == sol
    {
      hide Passed, Solution, NoConflict, Carries, InOrder, SameShape, OnlyBelow, Derived, CumulativePerm, CumulativeShared;
      ghost var g := G();
      PassedStart(drivers, g, list);
      for k := 0 to |list|
        invariant Passed(drivers, g, G(), list, k)
        invariant AbortAll(W(), tran.log) == old(AbortAll(W(), tran.log))
        invariant PermsOnly(old(tran.log), tran.log)
      {
        ghost var before := G();
        PassedReady(drivers, g, before, list, k);
        var conflict := ParentPermsConflict(list[k]);
        if conflict {
          return false;
        }
        var r := NodeRefreshPerm(list[k], tran);
        if !r {
          return false;
        }
        PassedNext(drivers, g, before, G(), list, k);
      }
      PassedEnd(drivers, g, G(), list);
      SolutionParts(drivers, g, G(), list);
      PassedParts(drivers, g, G(), list);
      return true;
    }
  }
}
