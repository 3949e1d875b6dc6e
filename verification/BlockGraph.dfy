/**
 The graph of block nodes (block.c): nodes, and the edges ("BdrvChild") by which
 a parent uses a node.  An edge belongs to a parent node or to some other user
 (a device's BlockBackend, a job).  Lists of parents and children are sets here;
 walks take their elements in any order.
 */
module BlockGraph {
  import opened Basics

  type Node = nat
  type EdgeId = nat

  /** The permission bits of BLK_PERM_ALL. */
  datatype Perm = ConsistentRead | Write | WriteUnchanged | Resize
  type Perms = set<Perm>

  const ALL: Perms := {ConsistentRead, Write, WriteUnchanged, Resize}

  lemma {:induction false} EveryPerm(p: Perm)
    ensures p in ALL
  {
    match p
    case ConsistentRead =>
    case Write =>
    case WriteUnchanged =>
    case Resize =>
  }

  /** A BdrvChild: `owner` is the parent node (None for other users), `bs` the
      node it points to (None while it is detached). */
  datatype Edge = Edge(owner: Option<Node>, bs: Option<Node>, perm: Perms, shared: Perms,
                       stayAtNode: bool, frozen: bool)

  datatype Graph = Graph(nodes: set<Node>, edges: map<EdgeId, Edge>) {

    ghost predicate Valid() {
      forall e :: e in edges ==>
        && (edges[e].owner.Some? ==> edges[e].owner.value in nodes)
        && (edges[e].bs.Some? ==> edges[e].bs.value in nodes)
    }

    /** bs->children: an edge is in its owner's list while it points somewhere. */
    function Children(n: Node): set<EdgeId> {
      set e | e in edges && edges[e].owner == Some(n) && edges[e].bs.Some?
    }

    /** bs->parents */
    function Parents(n: Node): set<EdgeId> {
      set e | e in edges && edges[e].bs == Some(n)
    }

    ghost predicate Arrow(a: Node, b: Node) {
      exists e :: e in Children(a) && edges[e].bs == Some(b)
    }

    ghost predicate Path(p: seq<Node>) {
      |p| > 0 && forall i :: 0 <= i < |p| - 1 ==> Arrow(p[i], p[i + 1])
    }

    /** b can be reached from a going through children, in any number of steps. */
    ghost predicate Reaches(a: Node, b: Node) {
      exists p :: Path(p) && p[0] == a && p[|p| - 1] == b
    }

    ghost predicate Ranked(rank: Node -> nat) {
      forall a, b :: Arrow(a, b) ==> rank(b) < rank(a)
    }

    /** Some numbering decreases along every edge. */
    ghost predicate Acyclic() {
      exists rank: Node -> nat :: Ranked(rank)
    }
  }

  // ----- reachability -----

  lemma {:induction false} ReachesSelf(g: Graph, a: Node)
    ensures g.Reaches(a, a)
  {
    assert g.Path([a]);
  }

  lemma {:induction false} ReachesStep(g: Graph, a: Node, b: Node, c: Node)
    requires g.Arrow(a, b) && g.Reaches(b, c)
    ensures g.Reaches(a, c)
  {
    var p :| g.Path(p) && p[0] == b && p[|p| - 1] == c;
    var q := [a] + p;
    assert forall i :: 0 <= i < |q| - 1 ==> g.Arrow(q[i], q[i + 1]) by {
      forall i | 0 <= i < |q| - 1 ensures g.Arrow(q[i], q[i + 1]) {
        if i > 0 { assert g.Arrow(p[i - 1], p[i]); }
      }
    }
    assert g.Path(q) && q[0] == a && q[|q| - 1] == c;
  }

  lemma {:induction false} ReachesThen(g: Graph, a: Node, b: Node, c: Node)
    requires g.Reaches(a, b) && g.Arrow(b, c)
    ensures g.Reaches(a, c)
  {
    var p :| g.Path(p) && p[0] == a && p[|p| - 1] == b;
    var q := p + [c];
    forall i | 0 <= i < |q| - 1 ensures g.Arrow(q[i], q[i + 1]) {
      if i < |p| - 1 { assert g.Arrow(p[i], p[i + 1]); }
    }
    assert g.Path(q) && q[0] == a && q[|q| - 1] == c;
  }

  /** Reaching a node takes no step, or a step to a child first. */
  lemma {:induction false} ReachesFirst(g: Graph, a: Node, c: Node) returns (b: Node)
    requires g.Reaches(a, c)
    ensures a == c || (g.Arrow(a, b) && g.Reaches(b, c))
  {
    var p :| g.Path(p) && p[0] == a && p[|p| - 1] == c;
    b := a;
    if |p| > 1 {
      b := p[1];
      assert g.Arrow(p[0], p[1]);
      forall i | 0 <= i < |p[1..]| - 1 ensures g.Arrow(p[1..][i], p[1..][i + 1]) {
        assert g.Arrow(p[i + 1], p[i + 2]);
      }
      assert g.Path(p[1..]) && p[1..][0] == b && p[1..][|p[1..]| - 1] == c;
    }
  }

  ghost predicate Closed(g: Graph, s: set<Node>) {
    forall a, b :: a in s && g.Arrow(a, b) ==> b in s
  }

  lemma {:induction false} PathStays(g: Graph, s: set<Node>, p: seq<Node>, i: nat)
    requires Closed(g, s) && g.Path(p) && p[0] in s && i < |p|
    ensures p[i] in s
  {
    if i > 0 {
      PathStays(g, s, p, i - 1);
      assert g.Arrow(p[i - 1], p[i]);
    }
  }

  lemma {:induction false} ReachesStays(g: Graph, s: set<Node>, a: Node, b: Node)
    requires Closed(g, s) && a in s && g.Reaches(a, b)
    ensures b in s
  {
    var p :| g.Path(p) && p[0] == a && p[|p| - 1] == b;
    PathStays(g, s, p, |p| - 1);
  }

  lemma {:induction false} PathDescends(g: Graph, rank: Node -> nat, p: seq<Node>)
    requires g.Ranked(rank) && g.Path(p)
    ensures rank(p[0]) >= rank(p[|p| - 1]) + |p| - 1
  {
    var n := |p| - 1;
    if n > 0 {
      forall i | 0 <= i < |p[..n]| - 1 ensures g.Arrow(p[..n][i], p[..n][i + 1]) {
        assert g.Arrow(p[i], p[i + 1]);
      }
      PathDescends(g, rank, p[..n]);
      assert g.Arrow(p[n - 1], p[n]);
    }
  }

  /** An acyclic graph has no cycle: no node reaches itself by one step or more. */
  lemma {:induction false} NoCycle(g: Graph, p: seq<Node>)
    requires g.Acyclic() && g.Path(p) && |p| > 1
    ensures p[0] != p[|p| - 1]
  {
    var rank: Node -> nat :| g.Ranked(rank);
    PathDescends(g, rank, p);
  }

  // ----- bdrv_recurse_has_child -----

  /** Returns true if `child` can be reached recursively from `bs`. */
  method RecurseHasChild(g: Graph, bs: Node, child: Node, ghost rank: Node -> nat) returns (r: bool)
    requires g.Ranked(rank)
    ensures r <==> g.Reaches(bs, child)
    decreases rank(bs)
  {
    if bs == child {
      ReachesSelf(g, bs);
      return true;
    }
    var todo := g.Children(bs);
    while todo != {}
      invariant todo <= g.Children(bs)
      invariant forall e :: e in g.Children(bs) - todo ==> !g.Reaches(g.edges[e].bs.value, child)
    {
      var c :| c in todo;
      todo := todo - {c};
      assert g.Arrow(bs, g.edges[c].bs.value);
      var found := RecurseHasChild(g, g.edges[c].bs.value, child, rank);
      if found {
        ReachesStep(g, bs, g.edges[c].bs.value, child);
        return true;
      }
    }
    if g.Reaches(bs, child) {
      var b := ReachesFirst(g, bs, child);
    }
    return false;
  }

  // ----- bdrv_topological_dfs -----

  /** No duplicates, and every node stands before all its children. */
  ghost predicate Sorted(g: Graph, list: seq<Node>) {
    && (forall i, j :: 0 <= i < j < |list| ==> list[i] != list[j])
    && forall i, b :: 0 <= i < |list| && g.Arrow(list[i], b) ==> b in list[i + 1..]
  }

  ghost predicate Contains(list: seq<Node>, s: set<Node>) {
    forall n :: n in list <==> n in s
  }

  lemma {:induction false} SortedClosed(g: Graph, list: seq<Node>, s: set<Node>)
    requires Sorted(g, list) && Contains(list, s)
    ensures Closed(g, s)
  {
    forall a, b | a in s && g.Arrow(a, b) ensures b in s {
      var i :| 0 <= i < |list| && list[i] == a;
      assert b in list[i + 1..];
    }
  }

  lemma {:induction false} SortedCons(g: Graph, list: seq<Node>, bs: Node)
    requires Sorted(g, list) && bs !in list
    requires forall b :: g.Arrow(bs, b) ==> b in list
    ensures Sorted(g, [bs] + list)
  {
    var r := [bs] + list;
    forall i, b | 0 <= i < |r| && g.Arrow(r[i], b) ensures b in r[i + 1..] {
      if i == 0 {
        assert r[1..] == list;
      } else {
        assert r[i] == list[i - 1];
        assert r[i + 1..] == list[i..];
      }
    }
  }

  /** Adds the subtree of `bs` in front of `list`.  `stack` holds the nodes whose
      call is still open: found in the table, not yet in the list. */
  method TopologicalDfs(g: Graph, list: seq<Node>, found: set<Node>, bs: Node,
                        ghost rank: Node -> nat, ghost stack: set<Node>)
    returns (list': seq<Node>, found': set<Node>)
    requires g.Valid() && g.Ranked(rank) && bs in g.nodes
    requires Sorted(g, list) && Contains(list, found - stack)
    requires stack <= found && forall n :: n in stack ==> rank(bs) < rank(n)
    ensures Sorted(g, list') && Contains(list', found' - stack) && stack <= found'
    ensures |list| <= |list'| && list'[|list'| - |list|..] == list
    ensures found <= found'
    ensures forall n :: n in list' <==> n in list || g.Reaches(bs, n)
    decreases g.nodes - found
  {
    list', found' := list, found;
    ReachesSelf(g, bs);
    if bs in found {
      SortedClosed(g, list, found - stack);
      forall n | g.Reaches(bs, n) ensures n in list {
        ReachesStays(g, found - stack, bs, n);
      }
      return;
    }
    found' := found' + {bs};
    var todo := g.Children(bs);
    while todo != {}
      invariant todo <= g.Children(bs)
      invariant found + {bs} <= found'
      invariant Sorted(g, list') && Contains(list', found' - stack - {bs})
      invariant |list| <= |list'| && list'[|list'| - |list|..] == list
      invariant forall e :: e in g.Children(bs) - todo ==> g.edges[e].bs.value in list'
      invariant forall n :: n in list' ==> n in list || g.Reaches(bs, n)
    {
      var c :| c in todo;
      todo := todo - {c};
      var child := g.edges[c].bs.value;
      assert g.Arrow(bs, child);
      ghost var before := list';
      assert found' - (stack + {bs}) == found' - stack - {bs};
      list', found' := TopologicalDfs(g, list', found', child, rank, stack + {bs});
      assert found' - (stack + {bs}) == found' - stack - {bs};
      ReachesSelf(g, child);
      forall n | n in list' ensures n in list || g.Reaches(bs, n) {
        if n !in before { ReachesStep(g, bs, child, n); }
      }
      assert list' == list'[..|list'| - |before|] + before;
    }
    assert bs !in list';
    forall b | g.Arrow(bs, b) ensures b in list' {
      var e :| e in g.Children(bs) && g.edges[e].bs == Some(b);
    }
    SortedCons(g, list', bs);
    list' := [bs] + list';
    SortedClosed(g, list', found' - stack);
    forall n | g.Reaches(bs, n) ensures n in list' {
      ReachesStays(g, found' - stack, bs, n);
    }
  }

  /** A series of walks sharing one table, as in bdrv_replace_node_common and
      bdrv_reopen_multiple: the list is duplicate-free, holds exactly the nodes
      reachable from some root, and puts every node before its children. */
  method TopologicalList(g: Graph, roots: seq<Node>) returns (list: seq<Node>)
    requires g.Valid() && g.Acyclic() && forall i :: 0 <= i < |roots| ==> roots[i] in g.nodes
    ensures Sorted(g, list)
    ensures forall n :: n in list <==> exists i :: 0 <= i < |roots| && g.Reaches(roots[i], n)
  {
    ghost var rank: Node -> nat :| g.Ranked(rank);
    var found: set<Node> := {};
    list := [];
    for k := 0 to |roots|
      invariant Sorted(g, list) && Contains(list, found - {})
      invariant forall n :: n in list <==> exists i :: 0 <= i < k && g.Reaches(roots[i], n)
    {
      list, found := TopologicalDfs(g, list, found, roots[k], rank, {});
    }
  }

  // ----- should_update_child -----

  /** Whether edge c may be pointed at `to`: not if its class says it stays, and
      not if c hangs below `to`, which would close a loop. */
  method ShouldUpdateChild(g: Graph, c: EdgeId, to: Node) returns (ret: bool)
    requires g.Valid() && c in g.edges && g.edges[c].bs.Some? && to in g.nodes
    ensures ret <==> !g.edges[c].stayAtNode && !(g.edges[c].owner.Some? && g.Reaches(to, g.edges[c].owner.value))
  {
    if g.edges[c].stayAtNode {
      return false;
    }
    ret := true;
    ReachesSelf(g, to);
    var found := {to};
    var queue := [to];
    while queue != []
      invariant to in found && found <= g.nodes
      invariant forall n :: n in queue ==> n in found
      invariant forall n :: n in found ==> g.Reaches(to, n)
      invariant !ret ==> g.edges[c].owner.Some? && g.edges[c].owner.value in found
      invariant ret ==> forall n :: n in found && n !in queue ==> Explored(g, c, n, found)
      decreases g.nodes - found, |queue|
    {
      var v := queue[0];
      queue := queue[1..];
      ghost var found0, queue0 := found, queue;
      var todo := g.Children(v);
      while todo != {}
        invariant todo <= g.Children(v)
        invariant found0 <= found <= g.nodes
        invariant queue0 <= queue && (found == found0 ==> queue == queue0)
        invariant forall n :: n in queue ==> n in found
        invariant forall n :: n in found - found0 ==> n in queue
        invariant forall n :: n in found ==> g.Reaches(to, n)
        invariant !ret ==> g.edges[c].owner.Some? && g.edges[c].owner.value in found
        invariant ret ==> forall e :: e in g.Children(v) - todo ==> e != c && g.edges[e].bs.value in found
      {
        var c2 :| c2 in todo;
        todo := todo - {c2};
        if c2 == c {
          ret := false;
          break;
        }
        var child := g.edges[c2].bs.value;
        if child in found {
          continue;
        }
        assert g.Arrow(v, child);
        ReachesThen(g, to, v, child);
        queue := queue + [child];
        found := found + {child};
      }
      if ret {
        forall n | n in found && n !in queue ensures Explored(g, c, n, found) {
          if n != v { assert Explored(g, c, n, found0); }
        }
      }
    }
    if ret {
      ExploredAll(g, c, to, found);
    }
  }

  lemma {:induction false} ExploredAll(g: Graph, c: EdgeId, to: Node, found: set<Node>)
    requires c in g.edges && g.edges[c].bs.Some? && to in found
    requires forall n :: n in found ==> Explored(g, c, n, found)
    ensures g.edges[c].owner.Some? ==> !g.Reaches(to, g.edges[c].owner.value)
  {
    forall a, b | a in found && g.Arrow(a, b) ensures b in found {
      assert Explored(g, c, a, found);
    }
    if g.edges[c].owner.Some? && g.Reaches(to, g.edges[c].owner.value) {
      var owner := g.edges[c].owner.value;
      ReachesStays(g, found, to, owner);
      assert false;
    }
  }

  ghost predicate Explored(g: Graph, c: EdgeId, n: Node, found: set<Node>) {
    forall e :: e in g.Children(n) ==> e != c && g.edges[e].bs.value in found
  }

  // ----- changing the graph keeps it acyclic -----

  /** One new arrow p -> to closes no loop as long as p is not below `to`. */
  lemma {:induction false} ArrowAdded(g: Graph, g': Graph, p: Node, to: Node)
    requires g.Acyclic() && !g.Reaches(to, p)
    requires forall a, b :: g'.Arrow(a, b) ==> g.Arrow(a, b) || (a == p && b == to)
    ensures g'.Acyclic()
  {
    var rank: Node -> nat :| g.Ranked(rank);
    var rank' := (n: Node) => if g.Reaches(to, n) then rank(n) else rank(n) + rank(to) + 1;
    forall a, b | g'.Arrow(a, b) ensures rank'(b) < rank'(a) {
      ReachesSelf(g, to);
      if g.Arrow(a, b) && g.Reaches(to, a) { ReachesThen(g, to, a, b); }
    }
    assert g'.Ranked(rank');
  }

  lemma {:induction false} ArrowsRemoved(g: Graph, g': Graph)
    requires g.Acyclic()
    requires forall a, b :: g'.Arrow(a, b) ==> g.Arrow(a, b)
    ensures g'.Acyclic()
  {
    var rank: Node -> nat :| g.Ranked(rank);
    assert g'.Ranked(rank);
  }
}
