/**
 The public graph operations of block.c, each one transaction: bdrv_attach_child,
 bdrv_set_backing_hd, bdrv_replace_node_common and bdrv_append.
 */
module BlockCommands {
  import opened Basics
  import opened BlockGraph
  import opened BlockState
  import opened BlockOps

  /** Between operations: a valid, acyclic graph in which every node's reference
      count is its incoming edges plus its holders outside the graph. */
  ghost predicate Settled(b: BlockLayer, holders: Node -> int)
    reads b
  {
    Good(b.nodes, b.W()) && Counted(b.W(), [], holders)
  }

  /** The same graph shape with node `n` held once more (or less) from outside. */
  function Holding(holders: Node -> int, n: Node, delta: int): Node -> int {
    (m: Node) => holders(m) + if m == n then delta else 0
  }

  lemma {:induction false} RefCounted(w: World, log: seq<Undo>, holders: Node -> int, n: Node, delta: int)
    requires Counted(w, log, holders)
    ensures Counted(w.(refcnt := AddRef(w.refcnt, Some(n), delta)), log, Holding(holders, n, delta))
  {}

  lemma {:induction false} RefGood(nodes: set<Node>, w: World, n: Node, delta: int)
    requires Good(nodes, w)
    ensures Good(nodes, w.(refcnt := AddRef(w.refcnt, Some(n), delta)))
  {}

  lemma {:induction false} RefBack(nodes: set<Node>, w: World, holders: Node -> int, n: Node)
    requires Good(nodes, w) && Counted(w, [], Holding(holders, n, 1))
    ensures var w' := w.(refcnt := AddRef(w.refcnt, Some(n), -1)); Good(nodes, w') && Counted(w', [], holders)
  {
    RefGood(nodes, w, n, -1);
  }

  lemma {:induction false} OpenStart(nodes: set<Node>, w: World, holders: Node -> int)
    requires Good(nodes, w) && Counted(w, [], holders)
    ensures OpenAt(nodes, w, [], holders, w)
  {}

  /** What a transaction can be committed from. */
  ghost predicate Committable(nodes: set<Node>, w: World, log: seq<Undo>, holders: Node -> int) {
    Good(nodes, w) && Counted(w, log, holders) && RemovedAreEmpty(w.edges, log)
  }

  lemma {:induction false} OpenShape(nodes: set<Node>, w: World, w': World, log: seq<Undo>, log': seq<Undo>,
                                     holders: Node -> int, start: World)
    requires OpenAt(nodes, w, log, holders, start)
    requires SameShape(Graph(nodes, w.edges), Graph(nodes, w'.edges)) && w'.refcnt == w.refcnt && w'.chain == w.chain
    requires PermsOnly(log, log')
    ensures Committable(nodes, w', log', holders)
  {
    hide AbortAll, Counted, Good;
    ShapeGood(nodes, w, w');
    ShapeCounted(nodes, w, w', log, log', holders);
  }

  lemma {:induction false} CommitRemoves(w: World, log: seq<Undo>)
    ensures CommitAll(w, log).edges.Keys <= w.edges.Keys
    ensures forall i :: 0 <= i < |log| && log[i].RemoveChild? ==> log[i].edge !in CommitAll(w, log).edges
    decreases |log|
  {
    if log != [] {
      CommitRemoves(Commit(w, log[|log| - 1]), log[..|log| - 1]);
    }
  }

  /** tran_finalize: commit, or go back to the start. */
  method TranFinalize(b: BlockLayer, tran: Transaction, ok: bool, ghost holders: Node -> int, ghost start: World)
    requires ok ==> Committable(b.nodes, b.W(), tran.log, holders)
    requires !ok ==> AbortAll(b.W(), tran.log) == start && Good(b.nodes, start) && Counted(start, [], holders)
    modifies b, tran
    ensures Settled(b, holders)
    ensures !ok ==> b.W() == start
    ensures ok ==> Freed(old(b.G()), b.G()) && b.chain == old(b.chain)
    ensures ok ==> forall i :: 0 <= i < |old(tran.log)| && old(tran.log)[i].RemoveChild? ==> old(tran.log)[i].edge !in b.edges
  {
    hide AbortAll, CommitAll, Counted, Good;
    if ok {
      CommitGood(b.nodes, b.W(), tran.log);
      CommitCounted(b.W(), tran.log, holders);
      CommitFreed(b.nodes, b.W(), tran.log);
      CommitRemoves(b.W(), tran.log);
      TranCommit(b, tran);
    } else {
      TranAbort(b, tran);
    }
  }

  ghost predicate AllInOrder(b: BlockLayer, root: Node)
    reads b
  {
    forall n: Node :: b.G().Reaches(root, n) ==> InOrder(b.drivers, b.G(), n)
  }

  lemma {:induction false} FreedAllInOrder(d: Drivers, g: Graph, g': Graph, root: Node)
    requires Freed(g, g') && forall n: Node :: g.Reaches(root, n) ==> InOrder(d, g, n)
    ensures forall n: Node :: g'.Reaches(root, n) ==> InOrder(d, g', n)
  {
    hide InOrder;
    FreedSets(g, g');
    forall n: Node | g'.Reaches(root, n) ensures InOrder(d, g', n) {
      ArrowsReaches(g', g, root, n);
      FreedInOrder(d, g, g', n);
    }
  }

  /** g' is g with edge e from `overlay` to `top` added and every user of `top` moved
      to `overlay`, except those that stay or (like e) hang below `overlay`. */
  ghost predicate Spliced(g: Graph, g': Graph, top: Node, overlay: Node, e: EdgeId) {
    && e in g'.edges && g'.edges[e].owner == Some(overlay) && g'.edges[e].bs == Some(top)
    && forall x :: x in g.edges && g.edges[x].bs.Some? ==>
         && x in g'.edges && g'.edges[x].owner == g.edges[x].owner
         && g'.edges[x].bs == if g.edges[x].bs == Some(top) && !g.edges[x].stayAtNode && !Below(g', x, overlay)
                              then Some(overlay) else g.edges[x].bs
  }

  lemma {:induction false} SplicedShape(g: Graph, g1: Graph, g2: Graph, g3: Graph, top: Node, overlay: Node, e: EdgeId)
    requires e in g1.edges && e !in g.edges && g1 == g.(edges := g.edges[e := g1.edges[e]])
    requires g1.edges[e].owner == Some(overlay) && g1.edges[e].bs == Some(top)
    requires SameBelow(g1, Moved(g1, top, overlay, {}), overlay)
    requires SameShape(Moved(g1, top, overlay, {}), g2) && Freed(g2, g3)
    ensures Spliced(g, g3, top, overlay, e)
  {
    var m := Moved(g1, top, overlay, {});
    FreedSets(g2, g3);
    forall n: Node ensures g3.Reaches(overlay, n) <==> g1.Reaches(overlay, n) {
      ShapeReaches(m, g2, overlay, n);
      if g3.Reaches(overlay, n) { ArrowsReaches(g3, g2, overlay, n); }
      if g2.Reaches(overlay, n) { ArrowsReaches(g2, g3, overlay, n); }
    }
    ReachesSelf(g1, overlay);
    assert g3.edges[e].owner == Some(overlay) && g3.edges[e].bs == Some(top);
  }

  /** The graph with a new edge, made by the parent's driver. */
  function WithEdge(d: Drivers, g: Graph, parent: Node, child: Node, e: EdgeId): Graph {
    g.(edges := g.edges[e := NewEdge(d, g, parent, child, e)])
  }

  /** What bdrv_append asks for: no loop, no frozen link on the way, and permissions
      that put everything below the overlay in order. */
  ghost predicate CanAppend(d: Drivers, g: Graph, overlay: Node, top: Node, e: EdgeId) {
    && !g.Reaches(top, overlay)
    && AllMove(WithEdge(d, g, overlay, top, e), top, overlay, true)
    && Solvable(d, Moved(WithEdge(d, g, overlay, top, e), top, overlay, {}), [overlay])
  }

  /** The steps of bdrv_append up to the end of its transaction. */
  method SpliceIn(b: BlockLayer, overlay: Node, top: Node, e: EdgeId, ctxOk: bool, tran: Transaction,
                  ghost holders: Node -> int, ghost start: World)
    returns (ok: bool)
    requires OpenAt(b.nodes, b.W(), tran.log, holders, start) && tran.log == []
    requires overlay in b.nodes && top in b.nodes && overlay !in b.chain && e !in b.edges
    modifies b, tran
    ensures ok ==> Committable(b.nodes, b.W(), tran.log, holders)
    ensures !ok ==> AbortAll(b.W(), tran.log) == start
    ensures ok ==> AllInOrder(b, overlay)
    ensures ok ==> SameShape(Moved(WithEdge(b.drivers, old(b.G()), overlay, top, e), top, overlay, {}), b.G())
    ensures ok ==> SameBelow(WithEdge(b.drivers, old(b.G()), overlay, top, e),
                             Moved(WithEdge(b.drivers, old(b.G()), overlay, top, e), top, overlay, {}), overlay)
    ensures ok <==> ctxOk && CanAppend(b.drivers, old(b.G()), overlay, top, e)
  {
    hide OpenAt, Good, Counted, AbortAll, Committable, InOrder, Moved, SameBelow, SameShape, Solvable, SolutionBelow, AllMove, NewEdge;
    ghost var g0 := b.G();
    ok := AttachChildNoperm(b, overlay, top, e, Some(overlay), ctxOk, tran, holders, start);
    if ok {
      assert b.G() == WithEdge(b.drivers, g0, overlay, top, e);
      assert overlay != top by { ReachesSelf(g0, top); }
      ok := ReplaceNodeNoperm(b, top, overlay, true, tran, holders, start);
      if ok {
        ghost var w := b.W();
        GoodAcyclic(b.nodes, w, tran.log, holders, start);
        OpenAborts(b.nodes, w, tran.log, holders, start);
        ok := RefreshPerms(b, overlay);
        if ok { OpenShape(b.nodes, w, b.W(), tran.log, tran.log, holders, start); }
      } else {
        OpenAborts(b.nodes, b.W(), tran.log, holders, start);
      }
    } else {
      OpenAborts(b.nodes, b.W(), tran.log, holders, start);
    }
  }

  /** bdrv_append: put node `top`'s users on top of `overlay`, which gets `top` as its
      backing child.  Either everything below `overlay` ends up in order, or edges,
      permissions, reference counts and backing pointers are exactly as before. */
  method Append(b: BlockLayer, overlay: Node, top: Node, e: EdgeId, ctxOk: bool, ghost holders: Node -> int)
    returns (ok: bool)
    requires Settled(b, holders) && overlay in b.nodes && top in b.nodes
    requires overlay !in b.chain && e !in b.edges && b.drivers.present(overlay)
    modifies b
    ensures Settled(b, holders)
    ensures !ok ==> b.W() == old(b.W())
    ensures ok ==> AllInOrder(b, overlay)
    ensures ok ==> Spliced(old(b.G()), b.G(), top, overlay, e)
    ensures ok <==> ctxOk && CanAppend(b.drivers, old(b.G()), overlay, top, e)
  {
    hide OpenAt, Good, Counted, AbortAll, Committable, InOrder, Moved, SameBelow, Spliced, SameShape, Freed, CanAppend;
    ghost var start, g0 := b.W(), b.G();
    OpenStart(b.nodes, b.W(), holders);
    var tran := new Transaction();
    ok := SpliceIn(b, overlay, top, e, ctxOk, tran, holders, start);
    ghost var g := b.G();
    TranFinalize(b, tran, ok, holders, start);
    if ok {
      FreedAllInOrder(b.drivers, g, b.G(), overlay);
      SplicedShape(g0, WithEdge(b.drivers, g0, overlay, top, e), g, b.G(), top, overlay, e);
    }
  }

  lemma {:induction false} OpenAborts(nodes: set<Node>, w: World, log: seq<Undo>, holders: Node -> int, start: World)
    requires OpenAt(nodes, w, log, holders, start)
    ensures AbortAll(w, log) == start
  {}

  // ----- replacing a node -----

  /** bdrv_chain_contains(from, to), strictly: `to` is first met k links below the
      node that `from` links to. */
  predicate ChainReaches(w: World, from: Node, to: Node, k: nat)
    decreases k
  {
    from in w.chain && w.chain[from] in w.edges && w.edges[w.chain[from]].bs.Some? &&
    var next := w.edges[w.chain[from]].bs.value;
    if k == 0 then next == to else next != to && ChainReaches(w, next, to, k - 1)
  }

  /** The node k links down the backing chain of `from`: the one that links to `to`. */
  ghost function ChainAbove(w: World, from: Node, to: Node, k: nat): Node
    requires ChainReaches(w, from, to, k)
    decreases k
  {
    if k == 0 then from else ChainAbove(w, w.edges[w.chain[from]].bs.value, to, k - 1)
  }

  /** The walk of bdrv_replace_node_common to the node just above `to`. */
  method CowParent(b: BlockLayer, from: Node, to: Node, ghost k: nat) returns (n: Node)
    requires ChainReaches(b.W(), from, to, k)
    ensures n == ChainAbove(b.W(), from, to, k)
    ensures n in b.chain && b.chain[n] in b.edges && b.edges[b.chain[n]].bs == Some(to)
  {
    n := from;
    ghost var left := k;
    while b.edges[b.chain[n]].bs.value != to
      invariant ChainReaches(b.W(), n, to, left) && ChainAbove(b.W(), n, to, left) == ChainAbove(b.W(), from, to, k)
      decreases left
    {
      n := b.edges[b.chain[n]].bs.value;
      left := left - 1;
    }
  }

  /** The node whose chain link detach_subchain cuts. */
  ghost function Detached(w: World, from: Node, to: Node, detachSubchain: bool, k: nat): Option<Node>
    requires detachSubchain ==> ChainReaches(w, from, to, k)
  {
    if detachSubchain then Some(ChainAbove(w, from, to, k)) else None
  }

  /** Whether replacing may move edge x: also undone for the removed chain edge. */
  ghost predicate NodeReplaced(g: Graph, g': Graph, from: Node, to: Node, removed: set<EdgeId>) {
    forall x :: x in g.edges && g.edges[x].bs.Some? && x !in removed ==>
      && x in g'.edges && g'.edges[x].owner == g.edges[x].owner
      && g'.edges[x].bs == if Movable(g, x, from, to) then Some(to) else g.edges[x].bs
  }

  lemma {:induction false} NodeReplacedShape(g: Graph, g1: Graph, g2: Graph, g3: Graph, from: Node, to: Node, removed: set<EdgeId>)
    requires g1.nodes == g.nodes && g1.edges.Keys == g.edges.Keys
    requires forall x :: x in g.edges && x !in removed ==> g1.edges[x] == Moved(g, from, to, {}).edges[x]
    requires SameShape(g1, g2) && Freed(g2, g3)
    ensures NodeReplaced(g, g3, from, to, removed)
  {}

  /** The graph with the users moved and the chain link of `cowParent` cut. */
  ghost function Rearranged(w: World, g: Graph, from: Node, to: Node, cowParent: Option<Node>): Graph {
    var m := Moved(g, from, to, {});
    if cowParent.Some? && cowParent.value in w.chain && w.chain[cowParent.value] in m.edges
    then Point(m, w.chain[cowParent.value], None) else m
  }

  /** The graph part of bdrv_replace_node_common, before permissions. */
  method ReplaceAndDetach(b: BlockLayer, from: Node, to: Node, autoSkip: bool, cowParent: Option<Node>,
                          tran: Transaction, ghost holders: Node -> int, ghost start: World)
    returns (ok: bool)
    requires Open(b, tran, holders, start) && tran.log == [] && to in b.nodes && from != to
    requires cowParent.Some? ==> && cowParent.value in b.chain && b.chain[cowParent.value] in b.edges
                                 && b.edges[b.chain[cowParent.value]].bs == Some(to)
    modifies b, tran
    ensures Open(b, tran, holders, start)
    ensures ok ==> b.edges.Keys == old(b.edges).Keys
    ensures ok ==> forall x :: x in b.edges && (cowParent.Some? ==> x != old(b.chain)[cowParent.value]) ==>
                     b.edges[x] == Moved(old(b.G()), from, to, {}).edges[x]
    ensures ok <==> AllMove(old(b.G()), from, to, autoSkip)
    ensures ok ==> b.G() == Rearranged(old(b.W()), old(b.G()), from, to, cowParent)
    ensures ok && cowParent.Some? ==> && tran.log != [] && b.chain == old(b.chain) - {cowParent.value}
                                      && tran.log[|tran.log| - 1] == RemoveChild(old(b.chain)[cowParent.value], cowParent.value)
  {
    hide OpenAt;
    ghost var g := b.G();
    ok := ReplaceNodeNoperm(b, from, to, autoSkip, tran, holders, start);
    if ok && cowParent.Some? {
      RemoveChildTran(b, cowParent.value, tran, holders, start);
    }
  }

  /** The outcome of replacing, with the chain edge of `cowParent` removed. */
  ghost predicate Outcome(w: World, w': World, g: Graph, g': Graph, from: Node, to: Node, cowParent: Option<Node>) {
    if cowParent == None then NodeReplaced(g, g', from, to, {})
    else cowParent.value in w.chain && NodeReplaced(g, g', from, to, {w.chain[cowParent.value]})
         && cowParent.value !in w'.chain && w.chain[cowParent.value] !in w'.edges
  }

  /** bdrv_replace_node_common between taking and dropping its reference to `from`. */
  method ReplaceHeld(b: BlockLayer, from: Node, to: Node, autoSkip: bool, cowParent: Option<Node>, ghost holders: Node -> int)
    returns (ok: bool)
    requires Settled(b, holders) && from in b.nodes && to in b.nodes && from != to
    requires cowParent.Some? ==> && cowParent.value in b.chain && b.chain[cowParent.value] in b.edges
                                 && b.edges[b.chain[cowParent.value]].bs == Some(to)
    modifies b
    ensures Settled(b, holders)
    ensures !ok ==> b.W() == old(b.W())
    ensures ok ==> AllInOrder(b, to) && AllInOrder(b, from)
    ensures ok ==> Outcome(old(b.W()), b.W(), old(b.G()), b.G(), from, to, cowParent)
    ensures ok <==> && AllMove(old(b.G()), from, to, autoSkip)
                    && Solvable(b.drivers, Rearranged(old(b.W()), old(b.G()), from, to, cowParent), [to, from])
  {
    hide OpenAt, Good, Counted, AbortAll, Committable, InOrder, SameShape, Freed, Moved, NodeReplaced, AllMove, Rearranged, Solution, SolutionBelow;
    ghost var removed := if cowParent.Some? then {b.chain[cowParent.value]} else {};
    ghost var g0, start := b.G(), b.W();
    OpenStart(b.nodes, start, holders);
    var tran := new Transaction();
    ok := ReplaceAndDetach(b, from, to, autoSkip, cowParent, tran, holders, start);
    ghost var g1 := b.G();
    OpenAborts(b.nodes, b.W(), tran.log, holders, start);
    if ok {
      ghost var w, log := b.W(), tran.log;
      GoodAcyclic(b.nodes, w, log, holders, start);
      var list := TopologicalList(b.G(), [to, from]);
      ok := b.ListRefreshPerms(list, tran);
      forall sol ensures Solution(b.drivers, g1, sol, list) <==> SolutionBelow(b.drivers, g1, sol, [to, from]) {
        SolutionOfList(b.drivers, g1, sol, [to, from], list);
      }
      if ok {
        OpenShape(b.nodes, w, b.W(), log, tran.log, holders, start);
        ListedInOrder(b.drivers, g1, b.G(), list, to, from);
        assert cowParent.Some? ==> tran.log[|log| - 1] == log[|log| - 1];
      }
    }
    ghost var g2 := b.G();
    TranFinalize(b, tran, ok, holders, start);
    if ok {
      FreedAllInOrder(b.drivers, g2, b.G(), to);
      FreedAllInOrder(b.drivers, g2, b.G(), from);
      NodeReplacedShape(g0, g1, g2, b.G(), from, to, removed);
    }
  }

  /** bdrv_replace_node_common.  On success the users of `from` have moved to `to`
      and everything below either node is in order; with detachSubchain the chain
      link into `to` has been removed and freed.  On failure edges, permissions,
      reference counts and backing pointers are exactly as before. */
  method ReplaceNodeCommon(b: BlockLayer, from: Node, to: Node, autoSkip: bool, detachSubchain: bool,
                           ghost k: nat, ghost holders: Node -> int)
    returns (ok: bool)
    requires Settled(b, holders) && from in b.nodes && to in b.nodes && from != to
    requires detachSubchain ==> ChainReaches(b.W(), from, to, k)
    modifies b
    ensures Settled(b, holders)
    ensures !ok ==> b.W() == old(b.W())
    ensures ok ==> AllInOrder(b, to) && AllInOrder(b, from)
    ensures var cut := Detached(old(b.W()), from, to, detachSubchain, k);
            && (ok ==> Outcome(old(b.W()), b.W(), old(b.G()), b.G(), from, to, cut))
            && (ok <==> && AllMove(old(b.G()), from, to, autoSkip)
                        && Solvable(b.drivers, Rearranged(old(b.W()), old(b.G()), from, to, cut), [to, from]))
  {
    hide Good, Counted, InOrder, NodeReplaced, AllMove, Solvable;
    var cowParent: Option<Node> := None;
    if detachSubchain {
      var n := CowParent(b, from, to, k);
      cowParent := Some(n);
    }
    RefGood(b.nodes, b.W(), from, 1);
    RefCounted(b.W(), [], holders, from, 1);
    b.refcnt := AddRef(b.refcnt, Some(from), 1);
    ok := ReplaceHeld(b, from, to, autoSkip, cowParent, Holding(holders, from, 1));
    RefBack(b.nodes, b.W(), holders, from);
    b.refcnt := AddRef(b.refcnt, Some(from), -1);
  }

  lemma {:induction false} ListedInOrder(d: Drivers, g: Graph, g': Graph, list: seq<Node>, to: Node, from: Node)
    requires SameShape(g, g')
    requires forall n :: n in list <==> exists i :: 0 <= i < |[to, from]| && g.Reaches([to, from][i], n)
    requires forall n :: n in list ==> InOrder(d, g', n)
    ensures forall n: Node :: g'.Reaches(to, n) ==> InOrder(d, g', n)
    ensures forall n: Node :: g'.Reaches(from, n) ==> InOrder(d, g', n)
  {
    forall n: Node | g'.Reaches(to, n) || g'.Reaches(from, n) ensures InOrder(d, g', n) {
      ShapeReaches(g, g', to, n);
      ShapeReaches(g, g', from, n);
      assert g.Reaches([to, from][0], n) || g.Reaches([to, from][1], n);
    }
  }

  // ----- setting the backing file, attaching a child -----

  /** The graph with the backing link of bs cut. */
  function Unbacked(w: World, g: Graph, bs: Node): Graph {
    if bs in w.chain && w.chain[bs] in g.edges then Point(g, w.chain[bs], None) else g
  }

  /** ... and with the new link made. */
  function Backed(d: Drivers, w: World, g: Graph, bs: Node, backing: Option<Node>, e: EdgeId): Graph {
    if backing == None then Unbacked(w, g, bs) else WithEdge(d, Unbacked(w, g, bs), bs, backing.value, e)
  }

  /** What bdrv_set_backing_noperm asks for. */
  ghost predicate CanBack(d: Drivers, w: World, g: Graph, bs: Node, backing: Option<Node>, supported: bool, ctxOk: bool) {
    && d.present(bs) && supported && (bs in w.chain && w.chain[bs] in g.edges ==> !g.edges[w.chain[bs]].frozen)
    && (backing.Some? ==> ctxOk && !Unbacked(w, g, bs).Reaches(backing.value, bs))
  }

  /** bdrv_set_backing_noperm.  `supported` stands for the driver's is_filter or
      supports_backing. */
  method SetBackingNoperm(b: BlockLayer, bs: Node, backing: Option<Node>, e: EdgeId, supported: bool, ctxOk: bool,
                          tran: Transaction, ghost holders: Node -> int, ghost start: World)
    returns (ok: bool)
    requires Open(b, tran, holders, start) && tran.log == [] && bs in b.nodes && e !in b.edges && ChainOk(b.W())
    requires backing.Some? ==> backing.value in b.nodes
    modifies b, tran
    ensures Open(b, tran, holders, start)
    ensures ok ==> if backing == None then bs !in b.chain
                   else bs in b.chain && b.chain[bs] == e && e in b.edges
                        && b.edges[e].owner == Some(bs) && b.edges[e].bs == backing
    ensures ok <==> CanBack(b.drivers, old(b.W()), old(b.G()), bs, backing, supported, ctxOk)
    ensures ok ==> b.G() == Backed(b.drivers, old(b.W()), old(b.G()), bs, backing, e)
  {
    hide OpenAt, ChainOk;
    if !b.drivers.present(bs) {
      return false;
    }
    if bs in b.chain {
      assert b.chain[bs] in b.edges && b.edges[b.chain[bs]].bs.Some? by { ChainAt(b.W(), bs); }
      if b.edges[b.chain[bs]].frozen {
        return false;
      }
    }
    if !supported {
      return false;
    }
    if bs in b.chain {
      RemoveChildTran(b, bs, tran, holders, start);
    }
    if backing == None {
      return true;
    }
    ok := AttachChildNoperm(b, bs, backing.value, e, Some(bs), ctxOk, tran, holders, start);
  }

  lemma {:induction false} ChainAt(w: World, n: Node)
    requires ChainOk(w) && n in w.chain
    ensures w.chain[n] in w.edges && w.edges[w.chain[n]].bs.Some?
  {}

  /** bdrv_set_backing_hd */
  method SetBackingHd(b: BlockLayer, bs: Node, backing: Option<Node>, e: EdgeId, supported: bool, ctxOk: bool,
                      ghost holders: Node -> int)
    returns (ok: bool)
    requires Settled(b, holders) && bs in b.nodes && e !in b.edges
    requires backing.Some? ==> backing.value in b.nodes
    modifies b
    ensures Settled(b, holders)
    ensures !ok ==> b.W() == old(b.W())
    ensures ok ==> AllInOrder(b, bs)
    ensures ok ==> if backing == None then bs !in b.chain
                   else bs in b.chain && b.chain[bs] == e && e in b.edges
                        && b.edges[e].owner == Some(bs) && b.edges[e].bs == backing
    ensures ok <==> && CanBack(b.drivers, old(b.W()), old(b.G()), bs, backing, supported, ctxOk)
                    && Solvable(b.drivers, Backed(b.drivers, old(b.W()), old(b.G()), bs, backing, e), [bs])
  {
    hide OpenAt, Counted, AbortAll, Committable, InOrder, ChainOk, CanBack, Backed, Solvable, SolutionBelow;
    ghost var start := b.W();
    OpenStart(b.nodes, start, holders);
    hide Good;
    var tran := new Transaction();
    ok := SetBackingNoperm(b, bs, backing, e, supported, ctxOk, tran, holders, start);
    if ok {
      ghost var w := b.W();
      GoodAcyclic(b.nodes, w, tran.log, holders, start);
      ok := RefreshPerms(b, bs);
      if ok { OpenShape(b.nodes, w, b.W(), tran.log, tran.log, holders, start); }
    }
    if !ok { OpenAborts(b.nodes, b.W(), tran.log, holders, start); }
    ghost var g := b.G();
    TranFinalize(b, tran, ok, holders, start);
    if ok {
      FreedAllInOrder(b.drivers, g, b.G(), bs);
    }
  }

  /** bdrv_attach_child: the caller's reference to `child` is consumed either way;
      a loop or a permission conflict leaves the graph as it was. */
  method AttachChild(b: BlockLayer, parent: Node, child: Node, e: EdgeId, ctxOk: bool, ghost holders: Node -> int)
    returns (ok: bool)
    requires Settled(b, holders) && parent in b.nodes && child in b.nodes && e !in b.edges && b.drivers.present(parent)
    modifies b
    ensures Settled(b, Holding(holders, child, -1))
    ensures !ok ==> b.W() == old(b.W()).(refcnt := AddRef(old(b.refcnt), Some(child), -1))
    ensures ok <==> ctxOk && !old(b.G()).Reaches(child, parent) && Solvable(b.drivers, WithEdge(b.drivers, old(b.G()), parent, child, e), [parent])
    ensures ok ==> e in b.edges && b.edges[e].owner == Some(parent) && b.edges[e].bs == Some(child) && AllInOrder(b, parent)
  {
    hide OpenAt, Good, Counted, AbortAll, Committable, InOrder, Solvable, SolutionBelow;
    ghost var start, g0 := b.W(), b.G();
    OpenStart(b.nodes, start, holders);
    var tran := new Transaction();
    ok := AttachChildNoperm(b, parent, child, e, None, ctxOk, tran, holders, start);
    if ok {
      assert b.G() == WithEdge(b.drivers, g0, parent, child, e);
      ghost var w := b.W();
      GoodAcyclic(b.nodes, w, tran.log, holders, start);
      ok := RefreshPerms(b, parent);
      if ok { OpenShape(b.nodes, w, b.W(), tran.log, tran.log, holders, start); }
    }
    if !ok { OpenAborts(b.nodes, b.W(), tran.log, holders, start); }
    ghost var g := b.G();
    TranFinalize(b, tran, ok, holders, start);
    if ok {
      FreedAllInOrder(b.drivers, g, b.G(), parent);
    }
    RefGood(b.nodes, b.W(), child, -1);
    RefCounted(b.W(), [], holders, child, -1);
    b.refcnt := AddRef(b.refcnt, Some(child), -1);
  }

  // ----- whole runs -----

  datatype Command =
    | DoAttach(parent: Node, child: Node, e: EdgeId, ctxOk: bool)
    | DoSetBacking(bs: Node, backing: Option<Node>, e: EdgeId, supported: bool, ctxOk: bool)
    | DoReplace(from: Node, to: Node, autoSkip: bool, detach: Option<nat>)
    | DoAppend(overlay: Node, top: Node, e: EdgeId, ctxOk: bool)

  /** What block.c asserts of, or leaves to, the caller of each operation: to attach
      a child one must hold a reference to it, to detach a chain it must lead to `to`. */
  predicate Callable(b: BlockLayer, holders: Node -> int, c: Command)
    reads b
  {
    match c
    case DoAttach(parent, child, e, _) =>
      parent in b.nodes && child in b.nodes && e !in b.edges && b.drivers.present(parent) && holders(child) > 0
    case DoSetBacking(bs, backing, e, _, _) => bs in b.nodes && e !in b.edges && (backing.Some? ==> backing.value in b.nodes)
    case DoReplace(from, to, _, detach) =>
      from in b.nodes && to in b.nodes && from != to && (detach.Some? ==> ChainReaches(b.W(), from, to, detach.value))
    case DoAppend(overlay, top, e, _) =>
      overlay in b.nodes && top in b.nodes && overlay !in b.chain && e !in b.edges && b.drivers.present(overlay)
  }

  /** How many references to n the commands that ran have taken from their callers. */
  function Taken(commands: seq<Command>, ran: seq<bool>, n: Node): nat
    requires |ran| == |commands|
  {
    if commands == [] then 0 else
    var last := |commands| - 1;
    Taken(commands[..last], ran[..last], n) + Bit(ran[last] && commands[last].DoAttach? && commands[last].child == n)
  }

  lemma {:induction false} TakenNext(commands: seq<Command>, ran: seq<bool>, next: Command, did: bool, n: Node)
    requires |ran| == |commands|
    ensures Taken(commands + [next], ran + [did], n) == Taken(commands, ran, n) + Bit(did && next.DoAttach? && next.child == n)
  {
    assert (commands + [next])[..|commands|] == commands && (ran + [did])[..|commands|] == ran;
  }

  method Perform(b: BlockLayer, c: Command, holders: Node -> int) returns (holders': Node -> int)
    requires Settled(b, holders) && Callable(b, holders, c)
    modifies b
    ensures Settled(b, holders')
    ensures forall n :: holders'(n) == holders(n) - Bit(c.DoAttach? && c.child == n)
  {
    hide Settled, AllInOrder, Outcome, Spliced, CanBack, CanAppend, Solvable;
    holders' := holders;
    match c {
      case DoAttach(parent, child, e, ctxOk) =>
        var ok := AttachChild(b, parent, child, e, ctxOk, holders);
        holders' := Holding(holders, child, -1);
      case DoSetBacking(bs, backing, e, supported, ctxOk) =>
        var ok := SetBackingHd(b, bs, backing, e, supported, ctxOk, holders);
      case DoReplace(from, to, autoSkip, detach) =>
        var ok := ReplaceNodeCommon(b, from, to, autoSkip, detach.Some?, if detach.Some? then detach.value else 0, holders);
      case DoAppend(overlay, top, e, ctxOk) =>
        var ok := Append(b, overlay, top, e, ctxOk, holders);
    }
  }

  lemma {:induction false} SettledAcyclic(b: BlockLayer, holders: Node -> int)
    requires Settled(b, holders)
    ensures b.G().Acyclic()
  {}

  /** Any run of operations, each succeeding or failing, leaves a graph without
      cycles in which every count is exact: the outside holders are those there were
      at the start, less one for each child handed over, and never fewer than none. */
  method Run(b: BlockLayer, commands: seq<Command>, holders: Node -> int) returns (holders': Node -> int, ran: seq<bool>)
    requires Settled(b, holders)
    modifies b
    ensures Settled(b, holders') && |ran| == |commands|
    ensures forall n :: holders'(n) == holders(n) - Taken(commands, ran, n)
    ensures forall n :: holders(n) >= 0 ==> holders'(n) >= 0
    ensures forall p :: b.G().Path(p) && |p| > 1 ==> p[0] != p[|p| - 1]
  {
    hide Settled;
    holders', ran := holders, [];
    for i := 0 to |commands|
      invariant Settled(b, holders') && |ran| == i
      invariant forall n :: holders'(n) == holders(n) - Taken(commands[..i], ran, n)
      invariant forall n :: holders(n) >= 0 ==> holders'(n) >= 0
    {
      assert commands[..i + 1] == commands[..i] + [commands[i]];
      var can := Callable(b, holders', commands[i]);
      forall n: Node { TakenNext(commands[..i], ran, commands[i], can, n); }
      if can {
        holders' := Perform(b, commands[i], holders');
      }
      ran := ran + [can];
    }
    assert commands[..|commands|] == commands;
    SettledAcyclic(b, holders');
    forall p | b.G().Path(p) && |p| > 1 ensures p[0] != p[|p| - 1] { NoCycle(b.G(), p); }
  }
}
