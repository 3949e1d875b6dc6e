/**
 Graph changes as transactions (block.c): attaching, replacing and appending
 nodes, with reference counts, rollback and the checks that keep the graph free
 of cycles.
 */
module BlockOps {
  import opened Basics
  import opened BlockGraph
  import opened BlockState

  // ----- reference counts -----

  /** References that transaction entries keep until commit or abort. */
  function HeldBy(u: Undo, n: Node): nat {
    match u
    case ReplaceChild(_, oldBs, _) => if oldBs == n then 1 else 0
    case RemoveChild(_, m) => if m == n then 1 else 0
    case _ => 0
  }

  function Held(log: seq<Undo>, n: Node): nat {
    if log == [] then 0 else Held(log[..|log| - 1], n) + HeldBy(log[|log| - 1], n)
  }

  function Degree(edges: map<EdgeId, Edge>, n: Node): nat {
    |Graph({}, edges).Parents(n)|
  }

  /** Every node's count is its incoming edges, plus its holders outside the
      graph, plus the references a running transaction keeps. */
  ghost predicate Counted(w: World, log: seq<Undo>, holders: Node -> int) {
    forall n :: n in w.refcnt ==> w.refcnt[n] == Degree(w.edges, n) + holders(n) + Held(log, n)
  }

  lemma {:induction false} HeldPushed(log: seq<Undo>, u: Undo, n: Node)
    ensures Held(log + [u], n) == Held(log, n) + HeldBy(u, n)
  {
    assert (log + [u])[..|log|] == log;
  }

  lemma {:induction false} HeldPerms(log: seq<Undo>, log': seq<Undo>, n: Node)
    requires PermsOnly(log, log')
    ensures Held(log', n) == Held(log, n)
    decreases |log'|
  {
    if log' != log {
      var m := |log'| - 1;
      assert log' == log'[..m] + [log'[m]];
      HeldPerms(log, log'[..m], n);
    }
  }

  /** Pointing an edge elsewhere moves one unit of incoming degree. */
  lemma {:induction false} DegreeRedirected(edges: map<EdgeId, Edge>, e: EdgeId, v: Edge, n: Node)
    requires e in edges
    ensures Degree(edges[e := v], n) ==
            Degree(edges, n) - (if edges[e].bs == Some(n) then 1 else 0) + if v.bs == Some(n) then 1 else 0
  {
    var before, after := Graph({}, edges).Parents(n), Graph({}, edges[e := v]).Parents(n);
    assert after - {e} == before - {e};
    assert |before| == |before - {e}| + if e in before then 1 else 0;
    assert |after| == |after - {e}| + if e in after then 1 else 0;
  }

  lemma {:induction false} DegreeAdded(edges: map<EdgeId, Edge>, e: EdgeId, v: Edge, n: Node)
    requires e !in edges
    ensures Degree(edges[e := v], n) == Degree(edges, n) + if v.bs == Some(n) then 1 else 0
  {
    var before, after := Graph({}, edges).Parents(n), Graph({}, edges[e := v]).Parents(n);
    assert after - {e} == before;
  }

  lemma {:induction false} DegreeFreed(edges: map<EdgeId, Edge>, e: EdgeId, n: Node)
    requires e in edges ==> edges[e].bs == None
    ensures Degree(edges - {e}, n) == Degree(edges, n)
  {
    assert Graph({}, edges - {e}).Parents(n) == Graph({}, edges).Parents(n);
  }

  lemma {:induction false} DegreeShape(g: Graph, g': Graph, n: Node)
    requires SameShape(g, g')
    ensures Degree(g'.edges, n) == Degree(g.edges, n)
  {
    assert Graph({}, g'.edges).Parents(n) == Graph({}, g.edges).Parents(n);
  }

  /** Edges whose removal is part of the transaction point nowhere. */
  ghost predicate RemovedAreEmpty(edges: map<EdgeId, Edge>, log: seq<Undo>) {
    forall i :: 0 <= i < |log| && log[i].RemoveChild? && log[i].edge in edges ==> edges[log[i].edge].bs == None
  }

  /** Committing drops exactly the kept references. */
  lemma {:induction false} CommitCounted(w: World, log: seq<Undo>, holders: Node -> int)
    requires Counted(w, log, holders) && RemovedAreEmpty(w.edges, log)
    ensures Counted(CommitAll(w, log), [], holders)
    decreases |log|
  {
    if log != [] {
      var m := |log| - 1;
      var u := log[m];
      var w' := Commit(w, u);
      forall n | n in w'.refcnt ensures w'.refcnt[n] == Degree(w'.edges, n) + holders(n) + Held(log[..m], n) {
        if u.RemoveChild? { DegreeFreed(w.edges, u.edge, n); }
      }
      CommitCounted(w', log[..m], holders);
    }
  }

  // ----- finishing a transaction -----

  /** tran_abort */
  method TranAbort(b: BlockLayer, tran: Transaction)
    modifies b, tran
    ensures b.W() == AbortAll(old(b.W()), old(tran.log)) && tran.log == []
  {
    while tran.log != []
      invariant AbortAll(b.W(), tran.log) == AbortAll(old(b.W()), old(tran.log))
      decreases |tran.log|
    {
      var u := tran.log[|tran.log| - 1];
      var w := Abort(b.W(), u);
      b.edges, b.refcnt, b.chain := w.edges, w.refcnt, w.chain;
      tran.log := tran.log[..|tran.log| - 1];
    }
  }

  /** tran_commit */
  method TranCommit(b: BlockLayer, tran: Transaction)
    modifies b, tran
    ensures b.W() == CommitAll(old(b.W()), old(tran.log)) && tran.log == []
  {
    while tran.log != []
      invariant CommitAll(b.W(), tran.log) == CommitAll(old(b.W()), old(tran.log))
      decreases |tran.log|
    {
      var u := tran.log[|tran.log| - 1];
      var w := Commit(b.W(), u);
      b.edges, b.refcnt, b.chain := w.edges, w.refcnt, w.chain;
      tran.log := tran.log[..|tran.log| - 1];
    }
  }

  // ----- moving one edge -----

  function Point(g: Graph, e: EdgeId, to: Option<Node>): Graph
    requires e in g.edges
  {
    g.(edges := g.edges[e := g.edges[e].(bs := to)])
  }

  /** Edge e hangs below node n: its owner can be reached from n. */
  ghost predicate Below(g: Graph, e: EdgeId, n: Node)
    requires e in g.edges
  {
    g.edges[e].owner.Some? && g.Reaches(n, g.edges[e].owner.value)
  }

  lemma {:induction false} PointArrows(g: Graph, e: EdgeId, to: Option<Node>, a: Node, b: Node)
    requires e in g.edges
    ensures Point(g, e, to).Arrow(a, b) ==> g.Arrow(a, b) || (g.edges[e].owner == Some(a) && to == Some(b))
    ensures g.Arrow(a, b) && g.edges[e].owner != Some(a) ==> Point(g, e, to).Arrow(a, b)
  {
    var g' := Point(g, e, to);
    if g'.Arrow(a, b) {
      var x :| x in g'.Children(a) && g'.edges[x].bs == Some(b);
      assert x != e ==> x in g.Children(a);
    }
    if g.Arrow(a, b) {
      var x :| x in g.Children(a) && g.edges[x].bs == Some(b);
      assert x != e ==> x in g'.Children(a);
    }
  }

  /** Pointing an edge at a node it does not hang below keeps the graph acyclic. */
  lemma {:induction false} PointAcyclic(g: Graph, e: EdgeId, to: Node)
    requires g.Acyclic() && e in g.edges && !Below(g, e, to)
    ensures Point(g, e, Some(to)).Acyclic()
  {
    var g' := Point(g, e, Some(to));
    forall a: Node, b: Node ensures g'.Arrow(a, b) ==> g.Arrow(a, b) || (g.edges[e].owner == Some(a) && b == to) {
      PointArrows(g, e, Some(to), a, b);
    }
    if g.edges[e].owner.Some? {
      ArrowAdded(g, g', g.edges[e].owner.value, to);
    } else {
      ArrowsRemoved(g, g');
    }
  }

  lemma {:induction false} DetachAcyclic(g: Graph, e: EdgeId)
    requires g.Acyclic() && e in g.edges
    ensures Point(g, e, None).Acyclic()
  {
    var g' := Point(g, e, None);
    forall a: Node, b: Node ensures g'.Arrow(a, b) ==> g.Arrow(a, b) {
      PointArrows(g, e, None, a, b);
    }
    ArrowsRemoved(g, g');
  }

  /** What lies below `to` does not depend on an edge that does not. */
  lemma {:induction false} PointReaches(g: Graph, e: EdgeId, to: Node, n: Node)
    requires g.Valid() && e in g.edges && to in g.nodes && !Below(g, e, to)
    ensures Point(g, e, Some(to)).Reaches(to, n) <==> g.Reaches(to, n)
  {
    var g' := Point(g, e, Some(to));
    var r, r' := set m | m in g.nodes && g.Reaches(to, m), set m | m in g.nodes && g'.Reaches(to, m);
    ReachesSelf(g, to);
    ReachesSelf(g', to);
    forall a, b | a in r && g'.Arrow(a, b) ensures b in r {
      PointArrows(g, e, Some(to), a, b);
      ReachesThen(g, to, a, b);
      ArrowInside(g, a, b);
    }
    if g'.Reaches(to, n) { ReachesStays(g', r, to, n); }
    forall a, b | a in r' && g.Arrow(a, b) ensures b in r' {
      ReachesStays(g', r, to, a);
      PointArrows(g, e, Some(to), a, b);
      ReachesThen(g', to, a, b);
      ArrowInside(g, a, b);
    }
    if g.Reaches(to, n) { ReachesStays(g, r', to, n); }
  }

  lemma {:induction false} ArrowInside(g: Graph, a: Node, b: Node)
    requires g.Valid() && g.Arrow(a, b)
    ensures a in g.nodes && b in g.nodes
  {
    var x :| x in g.Children(a) && g.edges[x].bs == Some(b);
  }

  // ----- transactional changes -----

  ghost predicate ChainOk(w: World) {
    forall n :: n in w.chain ==>
      w.chain[n] in w.edges && w.edges[w.chain[n]].owner == Some(n) && w.edges[w.chain[n]].bs.Some?
  }

  /** The block layer at rest or inside a transaction. */
  ghost predicate Good(nodes: set<Node>, w: World) {
    && Graph(nodes, w.edges).Valid() && Graph(nodes, w.edges).Acyclic()
    && w.refcnt.Keys == nodes && ChainOk(w)
  }

  /** Good, counted, and with the rollback point `start`. */
  ghost predicate OpenAt(nodes: set<Node>, w: World, log: seq<Undo>, holders: Node -> int, start: World) {
    && Good(nodes, w)
    && Counted(w, log, holders)
    && RemovedAreEmpty(w.edges, log)
    && AbortAll(w, log) == start
  }

  ghost predicate Open(b: BlockLayer, tran: Transaction, holders: Node -> int, start: World)
    reads b, tran
  {
    OpenAt(b.nodes, b.W(), tran.log, holders, start)
  }

  /** An edge pointed elsewhere, the new node referenced. */
  function Replaced(w: World, e: EdgeId, newBs: Option<Node>, slot: Option<Node>): World
    requires e in w.edges
  {
    World(w.edges[e := w.edges[e].(bs := newBs)], AddRef(w.refcnt, newBs, 1), ClearSlot(w.chain, slot))
  }

  lemma {:induction false} ReplaceCounted(w: World, log: seq<Undo>, holders: Node -> int, e: EdgeId,
                                          newBs: Option<Node>, slot: Option<Node>)
    requires Counted(w, log, holders) && e in w.edges && w.edges[e].bs.Some?
    ensures Counted(Replaced(w, e, newBs, slot), log + [ReplaceChild(e, w.edges[e].bs.value, slot)], holders)
  {
    hide Degree, Held;
    var u := ReplaceChild(e, w.edges[e].bs.value, slot);
    var w' := Replaced(w, e, newBs, slot);
    forall n | n in w'.refcnt ensures w'.refcnt[n] == Degree(w'.edges, n) + holders(n) + Held(log + [u], n) {
      assert n in w.refcnt;
      DegreeRedirected(w.edges, e, w.edges[e].(bs := newBs), n);
      HeldPushed(log, u, n);
    }
  }

  lemma {:induction false} ReplaceUndone(w: World, e: EdgeId, newBs: Option<Node>, slot: Option<Node>)
    requires e in w.edges && w.edges[e].bs.Some?
    requires slot.Some? ==> slot.value in w.chain && w.chain[slot.value] == e
    ensures Abort(Replaced(w, e, newBs, slot), ReplaceChild(e, w.edges[e].bs.value, slot)) == w
  {}

  lemma {:induction false} ReplaceGood(nodes: set<Node>, w: World, e: EdgeId, newBs: Node)
    requires Good(nodes, w)
    requires e in w.edges && w.edges[e].bs.Some? && newBs in nodes && !Below(Graph(nodes, w.edges), e, newBs)
    ensures Good(nodes, Replaced(w, e, Some(newBs), None))
  {
    PointAcyclic(Graph(nodes, w.edges), e, newBs);
    assert Graph(nodes, Replaced(w, e, Some(newBs), None).edges) == Point(Graph(nodes, w.edges), e, Some(newBs));
  }

  lemma {:induction false} ReplaceOpen(nodes: set<Node>, w: World, log: seq<Undo>, holders: Node -> int, start: World,
                                       e: EdgeId, newBs: Node)
    requires OpenAt(nodes, w, log, holders, start)
    requires e in w.edges && w.edges[e].bs.Some? && newBs in nodes && !Below(Graph(nodes, w.edges), e, newBs)
    ensures OpenAt(nodes, Replaced(w, e, Some(newBs), None), log + [ReplaceChild(e, w.edges[e].bs.value, None)], holders, start)
  {
    hide Counted, AbortAll, Good, Abort, Below;
    var w', u := Replaced(w, e, Some(newBs), None), ReplaceChild(e, w.edges[e].bs.value, None);
    ReplaceGood(nodes, w, e, newBs);
    ReplaceCounted(w, log, holders, e, Some(newBs), None);
    ReplaceUndone(w, e, Some(newBs), None);
    AbortPushed(w', log, u);
  }

  /** bdrv_replace_child_tran with a non-null new node: the reference to the old
      node moves from the edge into the transaction. */
  method ReplaceChildTran(b: BlockLayer, e: EdgeId, newBs: Node, tran: Transaction,
                          ghost holders: Node -> int, ghost start: World)
    requires Open(b, tran, holders, start)
    requires e in b.edges && b.edges[e].bs.Some? && b.edges[e].bs != Some(newBs) && !b.edges[e].frozen
    requires newBs in b.nodes && !Below(b.G(), e, newBs)
    modifies b, tran
    ensures Open(b, tran, holders, start)
    ensures b.G() == Point(old(b.G()), e, Some(newBs)) && b.chain == old(b.chain)
    ensures tran.log == old(tran.log) + [ReplaceChild(e, old(b.edges[e].bs.value), None)]
  {
    ReplaceOpen(b.nodes, b.W(), tran.log, holders, start, e, newBs);
    hide OpenAt;
    tran.Add(ReplaceChild(e, b.edges[e].bs.value, None));
    b.refcnt := AddRef(b.refcnt, Some(newBs), 1);
    b.edges := b.edges[e := b.edges[e].(bs := Some(newBs))];
  }

  /** The edges that bdrv_replace_node_noperm moves: users of `from` that may be
      moved at all and do not hang below `to`. */
  ghost predicate Movable(g: Graph, e: EdgeId, from: Node, to: Node) {
    e in g.Parents(from) && !g.edges[e].stayAtNode && !Below(g, e, to)
  }

  /** The graph with the movable edges, except those still to do, moved. */
  ghost function Moved(g: Graph, from: Node, to: Node, todo: set<EdgeId>): Graph {
    g.(edges := map e | e in g.edges ::
         if e !in todo && Movable(g, e, from, to) then g.edges[e].(bs := Some(to)) else g.edges[e])
  }

  ghost predicate SameBelow(g: Graph, g': Graph, to: Node) {
    forall n: Node :: g'.Reaches(to, n) <==> g.Reaches(to, n)
  }

  lemma {:induction false} MovedStep(g: Graph, from: Node, to: Node, todo: set<EdgeId>, c: EdgeId)
    requires c in todo && c in g.Parents(from) && from != to
    requires SameBelow(g, Moved(g, from, to, todo), to)
    ensures var g' := Moved(g, from, to, todo);
            && c in g'.edges && g'.edges[c] == g.edges[c]
            && (Below(g', c, to) <==> Below(g, c, to))
            && Moved(g, from, to, todo - {c}) == (if Movable(g, c, from, to) then Point(g', c, Some(to)) else g')
  {}

  lemma {:induction false} MovedBelow(g: Graph, g': Graph, to: Node, c: EdgeId)
    requires SameBelow(g, g', to) && g'.Valid() && c in g'.edges && to in g'.nodes && !Below(g', c, to)
    ensures SameBelow(g, Point(g', c, Some(to)), to)
  {
    forall n: Node ensures Point(g', c, Some(to)).Reaches(to, n) <==> g.Reaches(to, n) {
      PointReaches(g', c, to, n);
    }
  }

  /** No user of `from` that is to move is frozen, and without auto-skip all can move. */
  ghost predicate AllMove(g: Graph, from: Node, to: Node, autoSkip: bool) {
    forall e :: e in g.Parents(from) ==> if Movable(g, e, from, to) then !g.edges[e].frozen else autoSkip
  }

  /** bdrv_replace_node_noperm: every user of `from` is moved to `to`, except those
      that stay or hang below `to`.  Although the loop checks each edge against the
      graph as changed so far, the outcome is the one the initial graph dictates. */
  method ReplaceNodeNoperm(b: BlockLayer, from: Node, to: Node, autoSkip: bool, tran: Transaction,
                           ghost holders: Node -> int, ghost start: World)
    returns (ok: bool)
    requires Open(b, tran, holders, start) && to in b.nodes && from != to
    modifies b, tran
    ensures Open(b, tran, holders, start)
    ensures b.chain == old(b.chain)
    ensures ok ==> b.G() == Moved(old(b.G()), from, to, {}) && SameBelow(old(b.G()), b.G(), to)
    ensures ok && !autoSkip ==> forall e :: e in old(b.G()).Parents(from) ==> Movable(old(b.G()), e, from, to)
    ensures ok ==> forall e :: e in old(b.G()).Parents(from) && Movable(old(b.G()), e, from, to) ==> !old(b.edges[e].frozen)
    ensures ok <==> AllMove(old(b.G()), from, to, autoSkip)
  {
    hide Counted, RemovedAreEmpty, AbortAll, ChainOk;
    ghost var g := b.G();
    var todo := b.G().Parents(from);
    assert b.G() == Moved(g, from, to, todo);
    while todo != {}
      invariant todo <= g.Parents(from)
      invariant Open(b, tran, holders, start) && b.chain == old(b.chain)
      invariant b.G() == Moved(g, from, to, todo) && SameBelow(g, b.G(), to)
      invariant forall e :: e in g.Parents(from) - todo ==> (autoSkip || Movable(g, e, from, to))
      invariant forall e :: e in g.Parents(from) - todo && Movable(g, e, from, to) ==> !g.edges[e].frozen
    {
      var c :| c in todo;
      MovedStep(g, from, to, todo, c);
      todo := todo - {c};
      var should := ShouldUpdateChild(b.G(), c, to);
      assert should <==> Movable(g, c, from, to);
      if !should {
        if autoSkip {
          continue;
        }
        return false;
      }
      if b.edges[c].frozen {
        return false;
      }
      MovedBelow(g, b.G(), to, c);
      ReplaceChildTran(b, c, to, tran, holders, start);
    }
    return true;
  }

  // ----- attaching and removing a child -----

  function Attached(w: World, e: EdgeId, edge: Edge, slot: Option<Node>): World {
    World(w.edges[e := edge], AddRef(w.refcnt, edge.bs, 1), SetSlot(w.chain, slot, e))
  }

  lemma {:induction false} AttachCounted(w: World, log: seq<Undo>, holders: Node -> int, e: EdgeId, edge: Edge, slot: Option<Node>)
    requires Counted(w, log, holders) && e !in w.edges
    ensures Counted(Attached(w, e, edge, slot), log + [AttachChild(e, slot)], holders)
  {
    var w' := Attached(w, e, edge, slot);
    forall n | n in w'.refcnt
      ensures w'.refcnt[n] == Degree(w'.edges, n) + holders(n) + Held(log + [AttachChild(e, slot)], n)
    {
      DegreeAdded(w.edges, e, edge, n);
      HeldPushed(log, AttachChild(e, slot), n);
    }
  }

  lemma {:induction false} AttachUndone(w: World, e: EdgeId, edge: Edge, slot: Option<Node>)
    requires e !in w.edges && (slot.Some? ==> slot.value !in w.chain)
    ensures Abort(Attached(w, e, edge, slot), AttachChild(e, slot)) == w
  {
    assert w.edges[e := edge] - {e} == w.edges;
    assert ClearSlot(SetSlot(w.chain, slot, e), slot) == w.chain;
  }

  lemma {:induction false} AttachGood(nodes: set<Node>, w: World, e: EdgeId, edge: Edge, slot: Option<Node>)
    requires Good(nodes, w) && e !in w.edges
    requires edge.owner.Some? && edge.owner.value in nodes && edge.bs.Some? && edge.bs.value in nodes
    requires !Graph(nodes, w.edges).Reaches(edge.bs.value, edge.owner.value)
    requires slot.Some? ==> slot == edge.owner
    ensures Good(nodes, Attached(w, e, edge, slot))
  {
    var g, g' := Graph(nodes, w.edges), Graph(nodes, w.edges[e := edge]);
    forall a: Node, b: Node | g'.Arrow(a, b) ensures g.Arrow(a, b) || (a == edge.owner.value && b == edge.bs.value) {
      var x :| x in g'.Children(a) && g'.edges[x].bs == Some(b);
      assert x != e ==> x in g.Children(a);
    }
    ArrowAdded(g, g', edge.owner.value, edge.bs.value);
  }

  lemma {:induction false} AttachOpen(nodes: set<Node>, w: World, log: seq<Undo>, holders: Node -> int, start: World,
                                      e: EdgeId, edge: Edge, slot: Option<Node>)
    requires OpenAt(nodes, w, log, holders, start) && e !in w.edges
    requires edge.owner.Some? && edge.owner.value in nodes && edge.bs.Some? && edge.bs.value in nodes
    requires !Graph(nodes, w.edges).Reaches(edge.bs.value, edge.owner.value)
    requires slot.Some? ==> slot == edge.owner && slot.value !in w.chain
    requires forall i :: 0 <= i < |log| && log[i].RemoveChild? ==> log[i].edge != e
    ensures OpenAt(nodes, Attached(w, e, edge, slot), log + [AttachChild(e, slot)], holders, start)
  {
    hide Counted, AbortAll, Good, Abort;
    AttachGood(nodes, w, e, edge, slot);
    AttachCounted(w, log, holders, e, edge, slot);
    AttachUndone(w, e, edge, slot);
    AbortPushed(Attached(w, e, edge, slot), log, AttachChild(e, slot));
  }

  /** The edge bdrv_attach_child_noperm makes, with what the parent's driver asks for. */
  function NewEdge(d: Drivers, g: Graph, parent: Node, child: Node, e: EdgeId): Edge {
    var r := d.childPerm(parent, e, CumulativePerm(g, parent), CumulativeShared(g, parent));
    Edge(Some(parent), Some(child), r.0, if d.forceShare(child) then ALL else r.1, false, false)
  }

  /** bdrv_attach_child_noperm.  `e` is the newly allocated BdrvChild; `ctxOk` says
      whether the two AioContexts could be reconciled. */
  method AttachChildNoperm(b: BlockLayer, parent: Node, child: Node, e: EdgeId, slot: Option<Node>, ctxOk: bool,
                           tran: Transaction, ghost holders: Node -> int, ghost start: World)
    returns (ok: bool)
    requires Open(b, tran, holders, start) && parent in b.nodes && child in b.nodes
    requires e !in b.edges && forall i :: 0 <= i < |tran.log| && tran.log[i].RemoveChild? ==> tran.log[i].edge != e
    requires slot.Some? ==> slot == Some(parent) && parent !in b.chain
    modifies b, tran
    ensures Open(b, tran, holders, start)
    ensures ok <==> ctxOk && !old(b.G()).Reaches(child, parent)
    ensures !ok ==> b.W() == old(b.W()) && tran.log == old(tran.log)
    ensures ok ==> && e in b.edges && b.edges[e] == NewEdge(b.drivers, old(b.G()), parent, child, e)
                   && b.W() == Attached(old(b.W()), e, b.edges[e], slot)
                   && tran.log == old(tran.log) + [AttachChild(e, slot)]
  {
    hide OpenAt;
    assert b.G().Acyclic() by { GoodAcyclic(b.nodes, b.W(), tran.log, holders, start); }
    ghost var rank: Node -> nat :| b.G().Ranked(rank);
    var loop := RecurseHasChild(b.G(), child, parent, rank);
    if loop {
      return false;
    }
    var perm, shared := b.GetCumulativePerm(parent);
    var r := b.drivers.childPerm(parent, e, perm, shared);
    if !ctxOk {
      return false;
    }
    var edge := Edge(Some(parent), Some(child), r.0, if b.drivers.forceShare(child) then ALL else r.1, false, false);
    AttachOpen(b.nodes, b.W(), tran.log, holders, start, e, edge, slot);
    b.refcnt := AddRef(b.refcnt, Some(child), 1);
    b.edges := b.edges[e := edge];
    b.chain := SetSlot(b.chain, slot, e);
    tran.Add(AttachChild(e, slot));
    return true;
  }

  lemma {:induction false} GoodAcyclic(nodes: set<Node>, w: World, log: seq<Undo>, holders: Node -> int, start: World)
    requires OpenAt(nodes, w, log, holders, start)
    ensures Graph(nodes, w.edges).Acyclic() && Graph(nodes, w.edges).Valid()
  {}

  function Removed(w: World, e: EdgeId, n: Node): World
    requires e in w.edges
  {
    Replaced(w.(refcnt := AddRef(w.refcnt, Some(n), 1)), e, None, Some(n))
  }

  lemma {:induction false} RemoveCounted(w: World, log: seq<Undo>, holders: Node -> int, e: EdgeId, n: Node)
    requires Counted(w, log, holders) && e in w.edges && w.edges[e].bs.Some?
    ensures Counted(Removed(w, e, n), log + [ReplaceChild(e, w.edges[e].bs.value, Some(n)), RemoveChild(e, n)], holders)
  {
    var u := ReplaceChild(e, w.edges[e].bs.value, Some(n));
    var log' := log + [u, RemoveChild(e, n)];
    ReplaceCounted(w, log, holders, e, None, Some(n));
    forall m | m in w.refcnt ensures Held(log', m) == Held(log + [u], m) + if m == n then 1 else 0 {
      assert log' == (log + [u]) + [RemoveChild(e, n)];
      HeldPushed(log + [u], RemoveChild(e, n), m);
    }
  }

  lemma {:induction false} RemoveUndone(w: World, log: seq<Undo>, e: EdgeId, n: Node)
    requires e in w.edges && w.edges[e].bs.Some? && n in w.chain && w.chain[n] == e
    ensures AbortAll(Removed(w, e, n), log + [ReplaceChild(e, w.edges[e].bs.value, Some(n)), RemoveChild(e, n)]) == AbortAll(w, log)
  {
    var u, u' := ReplaceChild(e, w.edges[e].bs.value, Some(n)), RemoveChild(e, n);
    assert log + [u, u'] == (log + [u]) + [u'];
    AbortPushed(Removed(w, e, n), log + [u], u');
    AbortPushed(Replaced(w, e, None, Some(n)), log, u);
    ReplaceUndone(w, e, None, Some(n));
    assert Abort(Removed(w, e, n), u') == Replaced(w, e, None, Some(n));
  }

  lemma {:induction false} RemoveGood(nodes: set<Node>, w: World, e: EdgeId, n: Node)
    requires Good(nodes, w) && n in w.chain && w.chain[n] == e
    ensures Good(nodes, Removed(w, e, n))
  {
    DetachAcyclic(Graph(nodes, w.edges), e);
    assert Graph(nodes, Removed(w, e, n).edges) == Point(Graph(nodes, w.edges), e, None);
  }

  /** bdrv_remove_file_or_backing_child on node n's backing (or filtered) child. */
  method RemoveChildTran(b: BlockLayer, n: Node, tran: Transaction, ghost holders: Node -> int, ghost start: World)
    requires Open(b, tran, holders, start)
    requires n in b.chain && b.chain[n] in b.edges && b.edges[b.chain[n]].bs.Some?
    modifies b, tran
    ensures Open(b, tran, holders, start)
    ensures b.G() == Point(old(b.G()), old(b.chain[n]), None)
    ensures b.chain == old(b.chain) - {n}
    ensures tran.log == old(tran.log + [ReplaceChild(b.chain[n], b.edges[b.chain[n]].bs.value, Some(n)), RemoveChild(b.chain[n], n)])
  {
    hide Counted, AbortAll, Good;
    var e := b.chain[n];
    var oldBs := b.edges[e].bs.value;
    RemoveGood(b.nodes, b.W(), e, n);
    RemoveCounted(b.W(), tran.log, holders, e, n);
    RemoveUndone(b.W(), tran.log, e, n);
    b.refcnt := AddRef(b.refcnt, Some(n), 1);
    tran.Add(ReplaceChild(e, oldBs, Some(n)));
    b.edges := b.edges[e := b.edges[e].(bs := None)];
    b.chain := ClearSlot(b.chain, Some(n));
    tran.Add(RemoveChild(e, n));
    assert tran.log == old(tran.log) + [ReplaceChild(e, oldBs, Some(n)), RemoveChild(e, n)];
  }

  // ----- refreshing permissions in a transaction of its own -----

  lemma {:induction false} CommitPerms(w: World, log: seq<Undo>)
    requires PermsOnly([], log)
    ensures CommitAll(w, log) == w
    decreases |log|
  {
    if log != [] {
      CommitPerms(w, log[..|log| - 1]);
    }
  }

  ghost predicate Under(g: Graph, roots: seq<Node>, n: Node) {
    exists i :: 0 <= i < |roots| && g.Reaches(roots[i], n)
  }

  /** g' puts all nodes under the roots in order, and changes only their child edges. */
  ghost predicate SolutionBelow(d: Drivers, g: Graph, g': Graph, roots: seq<Node>) {
    && SameShape(g, g')
    && (forall e :: e in g.edges && g'.edges[e] != g.edges[e] ==>
          g.edges[e].bs.Some? && g.edges[e].owner.Some? && Under(g, roots, g.edges[e].owner.value) && d.present(g.edges[e].owner.value))
    && forall n: Node :: Under(g, roots, n) ==> InOrder(d, g', n)
  }

  ghost predicate Solvable(d: Drivers, g: Graph, roots: seq<Node>) {
    exists sol :: SolutionBelow(d, g, sol, roots)
  }

  lemma {:induction false} SolutionOfList(d: Drivers, g: Graph, g': Graph, roots: seq<Node>, list: seq<Node>)
    requires forall n :: n in list <==> exists i :: 0 <= i < |roots| && g.Reaches(roots[i], n)
    ensures Solution(d, g, g', list) <==> SolutionBelow(d, g, g', roots)
  {
    hide InOrder, SameShape;
    forall n: Node ensures n in list <==> Under(g, roots, n) {}
    hide Under;
  }

  /** bdrv_refresh_perms: all nodes below bs end up in order, or nothing changes; and
      it succeeds exactly when there is a way to put them in order, the only one. */
  method RefreshPerms(b: BlockLayer, bs: Node) returns (ok: bool)
    requires b.G().Valid() && b.G().Acyclic() && bs in b.nodes
    modifies b
    ensures b.refcnt == old(b.refcnt) && b.chain == old(b.chain)
    ensures SameShape(old(b.G()), b.G())
    ensures !ok ==> b.edges == old(b.edges)
    ensures ok ==> forall n: Node :: b.G().Reaches(bs, n) ==> InOrder(b.drivers, b.G(), n)
    ensures ok <==> Solvable(b.drivers, old(b.G()), [bs])
    ensures ok ==> SolutionBelow(b.drivers, old(b.G()), b.G(), [bs])
    ensures forall sol :: SolutionBelow(b.drivers, old(b.G()), sol, [bs]) ==> b.G() == sol
  {
    hide InOrder, Solution, SolutionBelow;
    ghost var g := b.G();
    var tran := new Transaction();
    var list := TopologicalList(b.G(), [bs]);
    ok := b.ListRefreshPerms(list, tran);
    forall sol ensures Solution(b.drivers, g, sol, list) <==> SolutionBelow(b.drivers, g, sol, [bs]) {
      SolutionOfList(b.drivers, g, sol, [bs], list);
    }
    if !ok {
      TranAbort(b, tran);
      return;
    }
    CommitPerms(b.W(), tran.log);
    TranCommit(b, tran);
    forall n: Node | b.G().Reaches(bs, n) ensures InOrder(b.drivers, b.G(), n) {
      ShapeReaches(g, b.G(), bs, n);
      assert g.Reaches([bs][0], n);
    }
  }

  lemma {:induction false} ArrowsReaches(g: Graph, g': Graph, a: Node, b: Node)
    requires g.Reaches(a, b) && forall x: Node, y: Node :: g.Arrow(x, y) ==> g'.Arrow(x, y)
    ensures g'.Reaches(a, b)
  {
    var p :| g.Path(p) && p[0] == a && p[|p| - 1] == b;
    forall i | 0 <= i < |p| - 1 ensures g'.Arrow(p[i], p[i + 1]) {
      assert g.Arrow(p[i], p[i + 1]);
    }
    assert g'.Path(p);
  }

  lemma {:induction false} ShapeReaches(g: Graph, g': Graph, a: Node, b: Node)
    requires SameShape(g, g')
    ensures g'.Reaches(a, b) <==> g.Reaches(a, b)
  {
    SameShapeArrows(g, g');
    if g.Reaches(a, b) { ArrowsReaches(g, g', a, b); }
    if g'.Reaches(a, b) { ArrowsReaches(g', g, a, b); }
  }

  lemma {:induction false} ShapeGood(nodes: set<Node>, w: World, w': World)
    requires Good(nodes, w) && SameShape(Graph(nodes, w.edges), Graph(nodes, w'.edges))
    requires w'.refcnt == w.refcnt && w'.chain == w.chain
    ensures Good(nodes, w')
  {
    var g, g' := Graph(nodes, w.edges), Graph(nodes, w'.edges);
    SameShapeArrows(g, g');
    ArrowsRemoved(g, g');
  }

  lemma {:induction false} ShapeCounted(nodes: set<Node>, w: World, w': World, log: seq<Undo>, log': seq<Undo>, holders: Node -> int)
    requires Counted(w, log, holders) && SameShape(Graph(nodes, w.edges), Graph(nodes, w'.edges)) && w'.refcnt == w.refcnt
    requires PermsOnly(log, log')
    ensures Counted(w', log', holders)
  {
    forall n | n in w'.refcnt ensures w'.refcnt[n] == Degree(w'.edges, n) + holders(n) + Held(log', n) {
      DegreeShape(Graph(nodes, w.edges), Graph(nodes, w'.edges), n);
      HeldPerms(log, log', n);
    }
  }

  // ----- committing -----

  /** g' is g without some edges that pointed nowhere. */
  ghost predicate Freed(g: Graph, g': Graph) {
    && g'.nodes == g.nodes && g'.edges.Keys <= g.edges.Keys
    && (forall e :: e in g'.edges ==> g'.edges[e] == g.edges[e])
    && (forall e :: e in g.edges && e !in g'.edges ==> g.edges[e].bs == None)
  }

  lemma {:induction false} FreedSets(g: Graph, g': Graph)
    requires Freed(g, g')
    ensures forall n: Node :: g'.Children(n) == g.Children(n) && g'.Parents(n) == g.Parents(n)
    ensures forall a: Node, b: Node :: g'.Arrow(a, b) <==> g.Arrow(a, b)
  {
    forall n: Node ensures g'.Children(n) == g.Children(n) && g'.Parents(n) == g.Parents(n) {}
    forall a: Node, b: Node ensures g'.Arrow(a, b) <==> g.Arrow(a, b) {
      if e :| e in g.Children(a) && g.edges[e].bs == Some(b) { assert e in g'.Children(a); }
    }
  }

  lemma {:induction false} FreedInOrder(d: Drivers, g: Graph, g': Graph, n: Node)
    requires Freed(g, g') && InOrder(d, g, n)
    ensures InOrder(d, g', n)
  {
    FreedSets(g, g');
    assert CumulativePerm(g', n) == CumulativePerm(g, n);
    assert CumulativeShared(g', n) == CumulativeShared(g, n);
  }

  lemma {:induction false} CommitFreed(nodes: set<Node>, w: World, log: seq<Undo>)
    requires RemovedAreEmpty(w.edges, log)
    ensures Freed(Graph(nodes, w.edges), Graph(nodes, CommitAll(w, log).edges))
    ensures CommitAll(w, log).chain == w.chain && CommitAll(w, log).refcnt.Keys == w.refcnt.Keys
    decreases |log|
  {
    if log != [] {
      CommitFreed(nodes, Commit(w, log[|log| - 1]), log[..|log| - 1]);
    }
  }

  lemma {:induction false} CommitGood(nodes: set<Node>, w: World, log: seq<Undo>)
    requires Good(nodes, w) && RemovedAreEmpty(w.edges, log)
    ensures Good(nodes, CommitAll(w, log))
  {
    hide CommitAll;
    var g, g' := Graph(nodes, w.edges), Graph(nodes, CommitAll(w, log).edges);
    CommitFreed(nodes, w, log);
    FreedSets(g, g');
    ArrowsRemoved(g, g');
  }
}
