/**
 Moving a connected part of the block graph to another AioContext (block.c
 bdrv_can_set_aio_context, bdrv_set_aio_context_ignore and their helpers;
 blockjob.c child_job_can_set_aio_ctx and child_job_set_aio_ctx).
 */
module AioContext {

  type Node = nat
  type Job = nat
  type EdgeId = nat
  type Ctx = nat

  /** Who uses a node: another node, a block job (through all the nodes it uses),
      or some other user such as a device, whose class may lack the AioContext
      callbacks or may refuse. */
  datatype Parent = NodeParent(node: Node) | JobParent(job: Job) | OtherParent(callbacks: bool, allows: bool)

  datatype Edge = Edge(parent: Parent, bs: Node)

  datatype Graph = Graph(edges: map<EdgeId, Edge>) {
    function Children(n: Node): set<EdgeId> { set e | e in edges && edges[e].parent == NodeParent(n) }
    function Parents(n: Node): set<EdgeId> { set e | e in edges && edges[e].bs == n }
    function Incident(n: Node): set<EdgeId> { Children(n) + Parents(n) }

    /** job->nodes */
    function JobEdges(j: Job): set<EdgeId> { set e | e in edges && edges[e].parent == JobParent(j) }

    ghost predicate NoSelfEdge() { forall e :: e in edges ==> edges[e].parent != NodeParent(edges[e].bs) }

    /** The class of edge e can follow a change of AioContext. */
    predicate Willing(e: EdgeId)
      requires e in edges
    {
      edges[e].parent.OtherParent? ==> edges[e].parent.callbacks && edges[e].parent.allows
    }

    /** One edge outside `base`, or one job with two such edges, joins a and b. */
    ghost predicate Joined(base: set<EdgeId>, a: Node, b: Node) {
      || (exists e :: e in edges && e !in base && edges[e] == Edge(NodeParent(a), b))
      || (exists e :: e in edges && e !in base && edges[e] == Edge(NodeParent(b), a))
      || exists e, f :: && e in edges && f in edges && e !in base && f !in base && edges[e].bs == a && edges[f].bs == b
                        && edges[e].parent.JobParent? && edges[e].parent == edges[f].parent
    }

    ghost predicate Closed(base: set<EdgeId>, s: iset<Node>) {
      forall a: Node, b: Node :: a in s && Joined(base, a, b) ==> b in s
    }
  }

  ghost predicate Route(g: Graph, base: set<EdgeId>, p: seq<Node>) {
    |p| > 0 && forall i :: 0 <= i < |p| - 1 ==> g.Joined(base, p[i], p[i + 1])
  }

  /** The nodes connected to bs without using edges of `base`. */
  ghost function Component(g: Graph, base: set<EdgeId>, bs: Node): iset<Node> {
    iset n: Node | Connected(g, base, bs, n)
  }

  ghost predicate Connected(g: Graph, base: set<EdgeId>, a: Node, b: Node) {
    exists p :: Route(g, base, p) && p[0] == a && p[|p| - 1] == b
  }

  lemma {:induction false} ComponentClosed(g: Graph, base: set<EdgeId>, bs: Node)
    ensures bs in Component(g, base, bs) && g.Closed(base, Component(g, base, bs))
  {
    assert Route(g, base, [bs]);
    forall a: Node, b: Node | a in Component(g, base, bs) && g.Joined(base, a, b) ensures b in Component(g, base, bs) {
      var p :| Route(g, base, p) && p[0] == bs && p[|p| - 1] == a;
      var q := p + [b];
      forall i | 0 <= i < |q| - 1 ensures g.Joined(base, q[i], q[i + 1]) {
        if i < |p| - 1 { assert g.Joined(base, p[i], p[i + 1]); }
      }
      assert Route(g, base, q) && q[0] == bs && q[|q| - 1] == b;
    }
  }

  lemma {:induction false} RouteStays(g: Graph, base: set<EdgeId>, s: iset<Node>, p: seq<Node>, i: nat)
    requires g.Closed(base, s) && Route(g, base, p) && p[0] in s && i < |p|
    ensures p[i] in s
  {
    if i > 0 {
      RouteStays(g, base, s, p, i - 1);
      assert g.Joined(base, p[i - 1], p[i]);
    }
  }

  lemma {:induction false} ComponentLeast(g: Graph, base: set<EdgeId>, bs: Node, s: iset<Node>)
    requires bs in s && g.Closed(base, s)
    ensures Component(g, base, bs) <= s
  {
    forall n | n in Component(g, base, bs) ensures n in s {
      var p :| Route(g, base, p) && p[0] == bs && p[|p| - 1] == n;
      RouteStays(g, base, s, p, |p| - 1);
    }
  }

  /** Every edge that a walk added to `ignore` has been followed to both its ends:
      the nodes there are in `done`, and a job there has all its edges in `ignore`
      or is in `busy`, its edges still being walked. */
  ghost predicate Followed(g: Graph, from: set<EdgeId>, ignore: set<EdgeId>, done: iset<Node>, busy: iset<Job>) {
    forall e :: e in ignore && e !in from && e in g.edges ==>
      && g.edges[e].bs in done
      && (g.edges[e].parent.NodeParent? ==> g.edges[e].parent.node in done)
      && (g.edges[e].parent.JobParent? ==>
            g.edges[e].parent.job in busy || g.JobEdges(g.edges[e].parent.job) <= ignore)
  }

  /** A finished walk has covered the whole component. */
  lemma {:induction false} FollowedAll(g: Graph, base: set<EdgeId>, ignore: set<EdgeId>, done: iset<Node>, bs: Node)
    requires Followed(g, base, ignore, done, iset{}) && bs in done
    requires forall n :: n in done && n in Component(g, base, bs) ==> g.Incident(n) <= ignore
    ensures Component(g, base, bs) <= done
  {
    var comp := Component(g, base, bs);
    ComponentClosed(g, base, bs);
    var s := done * comp;
    forall a: Node, b: Node | a in s && g.Joined(base, a, b) ensures b in s {
      if e :| e in g.edges && e !in base && g.edges[e] == Edge(NodeParent(a), b) {
        assert e in g.Incident(a);
      } else if e :| e in g.edges && e !in base && g.edges[e] == Edge(NodeParent(b), a) {
        assert e in g.Incident(a);
      } else {
        var e, f :| && e in g.edges && f in g.edges && e !in base && f !in base && g.edges[e].bs == a && g.edges[f].bs == b
                    && g.edges[e].parent.JobParent? && g.edges[e].parent == g.edges[f].parent;
        assert e in g.Incident(a);
        assert f in g.JobEdges(g.edges[e].parent.job);
      }
    }
    ComponentLeast(g, base, bs, s);
  }

  /** An edge outside `base` at a node of a closed set has its other node there. */
  lemma {:induction false} ClosedEdge(g: Graph, base: set<EdgeId>, comp: iset<Node>, e: EdgeId)
    requires g.Closed(base, comp) && e in g.edges && e !in base && g.edges[e].parent.NodeParent?
    ensures g.edges[e].bs in comp <==> g.edges[e].parent.node in comp
  {
    var a, b := g.edges[e].parent.node, g.edges[e].bs;
    assert g.Joined(base, a, b) && g.Joined(base, b, a);
  }

  lemma {:induction false} ClosedJob(g: Graph, base: set<EdgeId>, comp: iset<Node>, e: EdgeId, f: EdgeId)
    requires g.Closed(base, comp) && e in g.edges && f in g.edges && e !in base && f !in base
    requires g.edges[e].parent.JobParent? && g.edges[e].parent == g.edges[f].parent && g.edges[e].bs in comp
    ensures g.edges[f].bs in comp
  {
    assert g.Joined(base, g.edges[e].bs, g.edges[f].bs);
  }

  // ----- bdrv_can_set_aio_context -----

  /** Nodes a walk is done with: already in the target context, or with all their
      edges walked. */
  ghost function Walked(g: Graph, ctx: map<Node, Ctx>, to: Ctx, ignore: set<EdgeId>): iset<Node> {
    iset n: Node | (n in ctx && ctx[n] == to) || g.Incident(n) <= ignore
  }

  /** What a walk that went from `ignore` to `ignore'` found out: all edges willing
      and followed, or some edge of the component unwilling. */
  ghost predicate Asked(g: Graph, ctx: map<Node, Ctx>, to: Ctx, base: set<EdgeId>, comp: iset<Node>,
                        open: iset<Node>, busy: iset<Job>, ignore: set<EdgeId>, ignore': set<EdgeId>, ok: bool) {
    && ignore <= ignore'
    && (ok ==> Followed(g, ignore, ignore', open + Walked(g, ctx, to, ignore'), busy))
    && (ok ==> forall e :: e in ignore' && e !in ignore && e in g.edges ==> g.Willing(e))
    && (!ok ==> exists e :: e in g.edges && e !in base && g.edges[e].bs in comp && !g.Willing(e))
  }

  lemma {:induction false} AskedAgain(g: Graph, ctx: map<Node, Ctx>, to: Ctx, base: set<EdgeId>, comp: iset<Node>,
                                      open: iset<Node>, busy: iset<Job>,
                                      i1: set<EdgeId>, i2: set<EdgeId>, i3: set<EdgeId>, ok: bool)
    requires Asked(g, ctx, to, base, comp, open, busy, i1, i2, true)
    requires Asked(g, ctx, to, base, comp, open, busy, i2, i3, ok)
    ensures Asked(g, ctx, to, base, comp, open, busy, i1, i3, ok)
  {}

  lemma {:induction false} AskedNode(g: Graph, ctx: map<Node, Ctx>, to: Ctx, base: set<EdgeId>, comp: iset<Node>,
                                     open: iset<Node>, busy: iset<Job>, n: Node, ignore: set<EdgeId>, ignore': set<EdgeId>, ok: bool)
    requires Asked(g, ctx, to, base, comp, open + iset{n}, busy, ignore, ignore', ok)
    requires ok ==> n in Walked(g, ctx, to, ignore')
    ensures Asked(g, ctx, to, base, comp, open, busy, ignore, ignore', ok)
  {
    if ok {
      assert open + iset{n} + Walked(g, ctx, to, ignore') == open + Walked(g, ctx, to, ignore');
    }
  }

  lemma {:induction false} AskedJob(g: Graph, ctx: map<Node, Ctx>, to: Ctx, base: set<EdgeId>, comp: iset<Node>,
                                    open: iset<Node>, busy: iset<Job>, j: Job, ignore: set<EdgeId>, ignore': set<EdgeId>, ok: bool)
    requires Asked(g, ctx, to, base, comp, open, busy + iset{j}, ignore, ignore', ok)
    requires ok ==> g.JobEdges(j) <= ignore'
    ensures Asked(g, ctx, to, base, comp, open, busy, ignore, ignore', ok)
  {}

  /** An edge newly put on the list, followed by a walk that settles its ends. */
  lemma {:induction false} AskedEdge(g: Graph, ctx: map<Node, Ctx>, to: Ctx, base: set<EdgeId>, comp: iset<Node>,
                                     open: iset<Node>, busy: iset<Job>, c: EdgeId, ignore: set<EdgeId>, ignore': set<EdgeId>, ok: bool)
    requires Asked(g, ctx, to, base, comp, open, busy, ignore + {c}, ignore', ok) && c in g.edges
    requires ok ==> g.Willing(c) && g.edges[c].bs in open + Walked(g, ctx, to, ignore')
    requires ok && g.edges[c].parent.NodeParent? ==> g.edges[c].parent.node in open + Walked(g, ctx, to, ignore')
    requires ok && g.edges[c].parent.JobParent? ==>
               g.edges[c].parent.job in busy || g.JobEdges(g.edges[c].parent.job) <= ignore'
    ensures Asked(g, ctx, to, base, comp, open, busy, ignore, ignore', ok)
  {}

  // ----- bdrv_set_aio_context_ignore: what the walk maintains -----

  datatype Contents = Contents(ctx: map<Node, Ctx>, jobCtx: map<Job, Ctx>, moves: seq<Node>)

  ghost predicate NoDup(s: seq<Node>) {
    forall i, j :: 0 <= i < j < |s| ==> s[i] != s[j]
  }

  ghost function MovedNodes(st: Contents): iset<Node> { iset n: Node | n in st.moves }

  /** Exactly the moved nodes have changed, to the new context, each once; they and
      the nodes in `open`, whose own move is still to come, have all their edges on
      the ignore list. */
  ghost predicate Sound(g: Graph, to: Ctx, comp: iset<Node>, ctx0: map<Node, Ctx>, open: iset<Node>, st: Contents, ignore: set<EdgeId>) {
    && st.ctx.Keys == ctx0.Keys
    && (forall n :: n in ctx0 ==> st.ctx[n] == if n in st.moves then to else ctx0[n])
    && NoDup(st.moves)
    && (forall n :: n in st.moves ==> n in comp && g.Incident(n) <= ignore)
    && (forall n :: n in open ==> n !in st.moves && g.Incident(n) <= ignore)
  }

  ghost predicate JobMoved(st: Contents, to: Ctx, j: Job) { j in st.jobCtx && st.jobCtx[j] == to }

  ghost predicate Progress(g: Graph, to: Ctx, open: iset<Node>, busy: iset<Job>,
                           st: Contents, ignore: set<EdgeId>, st': Contents, ignore': set<EdgeId>) {
    && ignore <= ignore' && st.moves <= st'.moves
    && Followed(g, ignore, ignore', open + MovedNodes(st'), busy)
    && (forall j :: JobMoved(st, to, j) ==> JobMoved(st', to, j))
    && (forall e :: e in ignore' && e !in ignore && e in g.edges && g.edges[e].parent.JobParent? ==>
          g.edges[e].parent.job in busy || JobMoved(st', to, g.edges[e].parent.job))
  }

  lemma {:induction false} ProgressAgain(g: Graph, to: Ctx, open: iset<Node>, busy: iset<Job>, st1: Contents, i1: set<EdgeId>,
                                         st2: Contents, i2: set<EdgeId>, st3: Contents, i3: set<EdgeId>)
    requires Progress(g, to, open, busy, st1, i1, st2, i2) && Progress(g, to, open, busy, st2, i2, st3, i3)
    ensures Progress(g, to, open, busy, st1, i1, st3, i3)
  {
    assert forall n :: n in st2.moves ==> n in st3.moves;
  }

  lemma {:induction false} ProgressJob(g: Graph, to: Ctx, open: iset<Node>, busy: iset<Job>, j: Job, st: Contents, ignore: set<EdgeId>,
                                       st': Contents, ignore': set<EdgeId>)
    requires Progress(g, to, open, busy + iset{j}, st, ignore, st', ignore') && g.JobEdges(j) <= ignore'
    ensures Progress(g, to, open, busy, st, ignore, st'.(jobCtx := st'.jobCtx[j := to]), ignore')
  {
    assert MovedNodes(st'.(jobCtx := st'.jobCtx[j := to])) == MovedNodes(st');
  }

  /** One more edge on the list, followed by a walk that settles its ends. */
  lemma {:induction false} ProgressEdge(g: Graph, to: Ctx, open: iset<Node>, busy: iset<Job>, c: EdgeId, st: Contents, ignore: set<EdgeId>,
                                        st': Contents, ignore': set<EdgeId>)
    requires Progress(g, to, open, busy, st, ignore + {c}, st', ignore') && c in g.edges
    requires g.edges[c].parent.JobParent? && g.edges[c].parent.job in busy && g.edges[c].bs in st'.moves
    ensures Progress(g, to, open, busy, st, ignore, st', ignore')
  {}

  /** Edge c of node bs, collected by its walk, has been followed. */
  ghost predicate Settled(g: Graph, to: Ctx, bs: Node, c: EdgeId, st: Contents, ignore: set<EdgeId>)
    requires c in g.edges
  {
    && (g.edges[c].bs == bs || g.edges[c].bs in st.moves)
    && match g.edges[c].parent
       case NodeParent(p) => p == bs || p in st.moves
       case JobParent(j) => g.JobEdges(j) <= ignore && JobMoved(st, to, j)
       case OtherParent(_, _) => true
  }

  lemma {:induction false} SettledStays(g: Graph, to: Ctx, open: iset<Node>, busy: iset<Job>, bs: Node, c: EdgeId, st: Contents, ignore: set<EdgeId>,
                                        st': Contents, ignore': set<EdgeId>)
    requires c in g.edges && Settled(g, to, bs, c, st, ignore) && Progress(g, to, open, busy, st, ignore, st', ignore')
    ensures Settled(g, to, bs, c, st', ignore')
  {
    assert forall n :: n in st.moves ==> n in st'.moves;
  }

  /** The node itself moves last, when all its edges have been followed. */
  lemma {:induction false} NodeMoves(g: Graph, to: Ctx, comp: iset<Node>, ctx0: map<Node, Ctx>, open: iset<Node>, busy: iset<Job>, bs: Node,
                                     st: Contents, ignore: set<EdgeId>, st': Contents, ignore': set<EdgeId>)
    requires Sound(g, to, comp, ctx0, open + iset{bs}, st', ignore') && bs in comp && bs in ctx0 && bs !in open
    requires Progress(g, to, open + iset{bs}, busy, st, ignore + g.Incident(bs), st', ignore')
    requires forall c :: c in g.Incident(bs) && c !in ignore ==> Settled(g, to, bs, c, st', ignore')
    ensures var st'' := st'.(ctx := st'.ctx[bs := to], moves := st'.moves + [bs]);
            Sound(g, to, comp, ctx0, open, st'', ignore') && Progress(g, to, open, busy, st, ignore, st'', ignore')
  {
    var st'' := st'.(ctx := st'.ctx[bs := to], moves := st'.moves + [bs]);
    assert open + iset{bs} + MovedNodes(st') == open + MovedNodes(st'');
    forall e | e in ignore' && e !in ignore && e in g.edges && e in g.Incident(bs)
      ensures Settled(g, to, bs, e, st'', ignore')
    {
      assert Settled(g, to, bs, e, st', ignore');
    }
  }

  class Contexts {
    const g: Graph
    var ctx: map<Node, Ctx>
    var jobCtx: map<Job, Ctx>
    /** Nodes detached from their old context and attached to the new one, in order. */
    var moves: seq<Node>

    ghost predicate Bounded(base: set<EdgeId>, ignore: set<EdgeId>, comp: iset<Node>)
      reads this
    {
      base <= ignore && g.Closed(base, comp) && forall n :: n in comp ==> n in ctx
    }

    /** bdrv_can_set_aio_context */
    method CanSet(bs: Node, to: Ctx, ignore: set<EdgeId>,
                  ghost base: set<EdgeId>, ghost comp: iset<Node>, ghost open: iset<Node>, ghost busy: iset<Job>)
      returns (ok: bool, ignore': set<EdgeId>)
      requires Bounded(base, ignore, comp) && bs in comp
      ensures Asked(g, ctx, to, base, comp, open, busy, ignore, ignore', ok)
      ensures ok ==> bs in Walked(g, ctx, to, ignore')
      decreases g.edges.Keys - ignore, 2
    {
      ok, ignore' := true, ignore;
      if ctx[bs] == to {
        return;
      }
      hide Asked, Walked;
      ghost var open' := open + iset{bs};
      AskedNothing(g, ctx, to, base, comp, open', busy, ignore);
      var todo := g.Parents(bs);
      while todo != {}
        invariant todo <= g.Parents(bs) && ignore + (g.Parents(bs) - todo) <= ignore'
        invariant Asked(g, ctx, to, base, comp, open', busy, ignore, ignore', true)
      {
        var c :| c in todo;
        todo := todo - {c};
        ghost var mid := ignore';
        ok, ignore' := ParentCanSet(c, to, ignore', base, comp, open', busy);
        AskedGrows(g, ctx, to, base, comp, open', busy, mid, ignore', ok);
        AskedAgain(g, ctx, to, base, comp, open', busy, ignore, mid, ignore', ok);
        if !ok {
          AskedNode(g, ctx, to, base, comp, open, busy, bs, ignore, ignore', ok);
          return;
        }
      }
      todo := g.Children(bs);
      while todo != {}
        invariant todo <= g.Children(bs) && ignore + g.Parents(bs) + (g.Children(bs) - todo) <= ignore'
        invariant Asked(g, ctx, to, base, comp, open', busy, ignore, ignore', true)
      {
        var c :| c in todo;
        todo := todo - {c};
        ghost var mid := ignore';
        if c !in base { ClosedEdge(g, base, comp, c); }
        ok, ignore' := ChildCanSet(c, to, ignore', base, comp, open', busy);
        AskedGrows(g, ctx, to, base, comp, open', busy, mid, ignore', ok);
        AskedAgain(g, ctx, to, base, comp, open', busy, ignore, mid, ignore', ok);
        if !ok {
          AskedNode(g, ctx, to, base, comp, open, busy, bs, ignore, ignore', ok);
          return;
        }
      }
      ok := true;
      assert bs in Walked(g, ctx, to, ignore') by { WalkedHere(g, ctx, to, ignore', bs); }
      AskedNode(g, ctx, to, base, comp, open, busy, bs, ignore, ignore', true);
    }

    /** bdrv_parent_can_set_aio_context, with the classes' can_set_aio_ctx */
    method ParentCanSet(c: EdgeId, to: Ctx, ignore: set<EdgeId>,
                        ghost base: set<EdgeId>, ghost comp: iset<Node>, ghost open: iset<Node>, ghost busy: iset<Job>)
      returns (ok: bool, ignore': set<EdgeId>)
      requires Bounded(base, ignore, comp) && c in g.edges && g.edges[c].bs in comp && g.edges[c].bs in open
      ensures Asked(g, ctx, to, base, comp, open, busy, ignore, ignore', ok)
      ensures ok ==> c in ignore'
      decreases g.edges.Keys - ignore, 1
    {
      if c in ignore {
        return true, ignore;
      }
      match g.edges[c].parent {
        case OtherParent(callbacks, allows) =>
          ok, ignore' := callbacks && allows, ignore + {c};
        case NodeParent(p) =>
          hide Asked, Walked;
          ClosedEdge(g, base, comp, c);
          ok, ignore' := CanSet(p, to, ignore + {c}, base, comp, open, busy);
          assert ok ==> c in ignore' by { AskedGrows(g, ctx, to, base, comp, open, busy, ignore + {c}, ignore', ok); }
          AskedEdge(g, ctx, to, base, comp, open, busy, c, ignore, ignore', ok);
        case JobParent(j) =>
          hide Asked, Walked;
          ok, ignore' := JobCanSet(c, j, to, ignore + {c}, base, comp, open, busy);
          AskedGrows(g, ctx, to, base, comp, open, busy, ignore + {c}, ignore', ok);
          AskedEdge(g, ctx, to, base, comp, open, busy, c, ignore, ignore', ok);
      }
    }

    /** child_job_can_set_aio_ctx */
    method JobCanSet(c: EdgeId, j: Job, to: Ctx, ignore: set<EdgeId>,
                     ghost base: set<EdgeId>, ghost comp: iset<Node>, ghost open: iset<Node>, ghost busy: iset<Job>)
      returns (ok: bool, ignore': set<EdgeId>)
      requires Bounded(base, ignore, comp) && c in g.edges && c !in base && g.edges[c].parent == JobParent(j) && g.edges[c].bs in comp
      ensures Asked(g, ctx, to, base, comp, open, busy, ignore, ignore', ok)
      ensures ok ==> g.JobEdges(j) <= ignore'
      decreases g.edges.Keys - ignore, 1
    {
      hide Asked, Walked;
      ghost var busy' := busy + iset{j};
      ok, ignore' := true, ignore;
      AskedNothing(g, ctx, to, base, comp, open, busy', ignore);
      var todo := g.JobEdges(j);
      while todo != {}
        invariant todo <= g.JobEdges(j) && ignore + (g.JobEdges(j) - todo) <= ignore'
        invariant Asked(g, ctx, to, base, comp, open, busy', ignore, ignore', true)
      {
        var sibling :| sibling in todo;
        todo := todo - {sibling};
        ghost var mid := ignore';
        if sibling !in base { ClosedJob(g, base, comp, c, sibling); }
        ok, ignore' := ChildCanSet(sibling, to, ignore', base, comp, open, busy');
        AskedGrows(g, ctx, to, base, comp, open, busy', mid, ignore', ok);
        AskedAgain(g, ctx, to, base, comp, open, busy', ignore, mid, ignore', ok);
        if !ok {
          AskedJob(g, ctx, to, base, comp, open, busy, j, ignore, ignore', ok);
          return;
        }
      }
      ok := true;
      AskedJob(g, ctx, to, base, comp, open, busy, j, ignore, ignore', true);
    }

    /** bdrv_child_can_set_aio_context */
    method ChildCanSet(c: EdgeId, to: Ctx, ignore: set<EdgeId>,
                       ghost base: set<EdgeId>, ghost comp: iset<Node>, ghost open: iset<Node>, ghost busy: iset<Job>)
      returns (ok: bool, ignore': set<EdgeId>)
      requires Bounded(base, ignore, comp) && c in g.edges && (c !in base ==> g.edges[c].bs in comp)
      requires match g.edges[c].parent
               case NodeParent(p) => p in open
               case JobParent(j) => j in busy
               case OtherParent(_, _) => false
      ensures Asked(g, ctx, to, base, comp, open, busy, ignore, ignore', ok)
      ensures ok ==> c in ignore'
      decreases g.edges.Keys - ignore, 0
    {
      if c in ignore {
        return true, ignore;
      }
      hide Asked, Walked;
      ok, ignore' := CanSet(g.edges[c].bs, to, ignore + {c}, base, comp, open, busy);
      AskedGrows(g, ctx, to, base, comp, open, busy, ignore + {c}, ignore', ok);
      AskedEdge(g, ctx, to, base, comp, open, busy, c, ignore, ignore', ok);
    }

    ghost function Now(): Contents
      reads this
    {
      Contents(ctx, jobCtx, moves)
    }

    /** What bdrv_set_aio_context_ignore may rely on: the component starts in other
        contexts than the new one, and all its edges are willing. */
    ghost predicate Ready(to: Ctx, ignore: set<EdgeId>, base: set<EdgeId>, comp: iset<Node>, ctx0: map<Node, Ctx>, open: iset<Node>)
      reads this
    {
      && Bounded(base, ignore, comp) && g.NoSelfEdge()
      && (forall n :: n in comp ==> n in ctx0 && ctx0[n] != to)
      && (forall e :: e in g.edges && e !in base && g.edges[e].bs in comp ==> g.Willing(e))
      && Sound(g, to, comp, ctx0, open, Now(), ignore)
    }

    /** The loops that put a node's edges on the ignore list. */
    method Collect(es: set<EdgeId>, ignore: set<EdgeId>) returns (picked: set<EdgeId>, ignore': set<EdgeId>)
      ensures picked == es - ignore && ignore' == ignore + es
    {
      picked, ignore' := {}, ignore;
      var todo := es;
      while todo != {}
        invariant todo <= es && picked == es - todo - ignore && ignore' == ignore + (es - todo)
      {
        var c :| c in todo;
        todo := todo - {c};
        if c !in ignore' {
          ignore' := ignore' + {c};
          picked := picked + {c};
        }
      }
    }

    /** bdrv_set_aio_context_ignore: follow the node's edges that are not on the
        ignore list yet, children first, then move the node itself. */
    method SetIgnore(bs: Node, to: Ctx, ignore: set<EdgeId>,
                     ghost base: set<EdgeId>, ghost comp: iset<Node>, ghost ctx0: map<Node, Ctx>, ghost open: iset<Node>, ghost busy: iset<Job>)
      returns (ignore': set<EdgeId>)
      requires Ready(to, ignore, base, comp, ctx0, open) && bs in comp && bs !in open
      modifies this
      ensures Ready(to, ignore', base, comp, ctx0, open)
      ensures Progress(g, to, open, busy, old(Now()), ignore, Now(), ignore') && OtherJobs(g, base, comp, old(jobCtx), jobCtx)
      ensures bs in moves
      decreases g.edges.Keys - ignore, 2
    {
      hide OtherJobs, Sound, Progress, Settled, Graph.Willing, Graph.NoSelfEdge, Graph.Closed;
      ignore' := ignore;
      MovedIff(g, to, comp, ctx0, open, Now(), ignore, bs);
      if ctx[bs] == to {
        ProgressNone(g, to, open, busy, Now(), ignore);
        OtherJobsSelf(g, base, comp, jobCtx);
        return;
      }
      ghost var st0, open' := Now(), open + iset{bs};
      var children, parents;
      children, ignore' := Collect(g.Children(bs), ignore');
      parents, ignore' := Collect(g.Parents(bs), ignore');
      assert ignore' == ignore + g.Incident(bs);
      Collected(g, to, comp, ctx0, open, bs, Now(), ignore);
      ignore' := SetChildren(bs, to, children, ignore', ignore, base, comp, ctx0, open', busy);
      ghost var st1, mid := Now(), ignore';
      ignore' := SetParents(bs, to, parents, ignore', ignore, base, comp, ctx0, open', busy);
      forall c | c in g.Incident(bs) && c !in ignore ensures Settled(g, to, bs, c, Now(), ignore') {
        if c in children { SettledStays(g, to, open', busy, bs, c, st1, mid, Now(), ignore'); }
      }
      ProgressAgain(g, to, open', busy, st0, ignore + g.Incident(bs), st1, mid, Now(), ignore');
      OtherJobsTrans(g, base, comp, st0.jobCtx, st1.jobCtx, jobCtx);
      NodeMoves(g, to, comp, ctx0, open, busy, bs, st0, ignore, Now(), ignore');
      ctx := ctx[bs := to];
      moves := moves + [bs];
    }

    method SetChildren(bs: Node, to: Ctx, children: set<EdgeId>, ignore: set<EdgeId>, ghost before: set<EdgeId>,
                       ghost base: set<EdgeId>, ghost comp: iset<Node>, ghost ctx0: map<Node, Ctx>, ghost open: iset<Node>, ghost busy: iset<Job>)
      returns (ignore': set<EdgeId>)
      requires Ready(to, ignore, base, comp, ctx0, open) && bs in comp
      requires base <= before <= ignore && children !! before
      requires children <= g.Children(bs) && children <= ignore
      requires forall c :: c in children ==> g.edges[c].bs !in open
      modifies this
      ensures Ready(to, ignore', base, comp, ctx0, open)
      ensures Progress(g, to, open, busy, old(Now()), ignore, Now(), ignore') && OtherJobs(g, base, comp, old(jobCtx), jobCtx)
      ensures ignore <= ignore'
      ensures forall c :: c in children ==> Settled(g, to, bs, c, Now(), ignore')
      decreases g.edges.Keys - before, 1
    {
      hide OtherJobs, Sound, Followed;
      ignore' := ignore;
      ghost var st0 := Now();
      ProgressNone(g, to, open, busy, st0, ignore);
      OtherJobsSelf(g, base, comp, jobCtx);
      var todo := children;
      while todo != {}
        invariant todo <= children
        invariant Ready(to, ignore', base, comp, ctx0, open)
        invariant Progress(g, to, open, busy, st0, ignore, Now(), ignore') && OtherJobs(g, base, comp, st0.jobCtx, jobCtx)
        invariant forall c :: c in children - todo ==> Settled(g, to, bs, c, Now(), ignore')
      {
        var c :| c in todo;
        todo := todo - {c};
        ghost var st1, mid := Now(), ignore';
        ClosedEdge(g, base, comp, c);
        ignore' := SetIgnore(g.edges[c].bs, to, ignore', base, comp, ctx0, open, busy);
        ProgressAgain(g, to, open, busy, st0, ignore, st1, mid, Now(), ignore');
        OtherJobsTrans(g, base, comp, st0.jobCtx, st1.jobCtx, jobCtx);
        forall d | d in children - todo ensures Settled(g, to, bs, d, Now(), ignore') {
          if d != c { SettledStays(g, to, open, busy, bs, d, st1, mid, Now(), ignore'); }
        }
      }
    }

    method SetParents(bs: Node, to: Ctx, parents: set<EdgeId>, ignore: set<EdgeId>, ghost before: set<EdgeId>,
                      ghost base: set<EdgeId>, ghost comp: iset<Node>, ghost ctx0: map<Node, Ctx>, ghost open: iset<Node>, ghost busy: iset<Job>)
      returns (ignore': set<EdgeId>)
      requires Ready(to, ignore, base, comp, ctx0, open) && bs in comp
      requires base <= before <= ignore && parents !! before
      requires parents <= g.Parents(bs) && parents <= ignore
      requires forall c :: c in parents && g.edges[c].parent.NodeParent? ==> g.edges[c].parent.node !in open
      modifies this
      ensures Ready(to, ignore', base, comp, ctx0, open)
      ensures Progress(g, to, open, busy, old(Now()), ignore, Now(), ignore') && OtherJobs(g, base, comp, old(jobCtx), jobCtx)
      ensures ignore <= ignore'
      ensures forall c :: c in parents ==> Settled(g, to, bs, c, Now(), ignore')
      decreases g.edges.Keys - before, 1
    {
      hide OtherJobs, Sound, Followed;
      ignore' := ignore;
      ghost var st0 := Now();
      ProgressNone(g, to, open, busy, st0, ignore);
      OtherJobsSelf(g, base, comp, jobCtx);
      var todo := parents;
      while todo != {}
        invariant todo <= parents
        invariant Ready(to, ignore', base, comp, ctx0, open)
        invariant Progress(g, to, open, busy, st0, ignore, Now(), ignore') && OtherJobs(g, base, comp, st0.jobCtx, jobCtx)
        invariant forall c :: c in parents - todo ==> Settled(g, to, bs, c, Now(), ignore')
      {
        var c :| c in todo;
        todo := todo - {c};
        ghost var st1, mid := Now(), ignore';
        ignore' := ParentSet(bs, c, to, ignore', before, base, comp, ctx0, open, busy);
        ProgressAgain(g, to, open, busy, st0, ignore, st1, mid, Now(), ignore');
        OtherJobsTrans(g, base, comp, st0.jobCtx, st1.jobCtx, jobCtx);
        forall d | d in parents - todo ensures Settled(g, to, bs, d, Now(), ignore') {
          if d != c { SettledStays(g, to, open, busy, bs, d, st1, mid, Now(), ignore'); }
        }
      }
    }

    /** parent->klass->set_aio_ctx: the class has one. */
    method ParentSet(bs: Node, c: EdgeId, to: Ctx, ignore: set<EdgeId>, ghost before: set<EdgeId>,
                     ghost base: set<EdgeId>, ghost comp: iset<Node>, ghost ctx0: map<Node, Ctx>, ghost open: iset<Node>, ghost busy: iset<Job>)
      returns (ignore': set<EdgeId>)
      requires Ready(to, ignore, base, comp, ctx0, open) && bs in comp
      requires base <= before <= ignore && c in g.Parents(bs) && c !in before && c in ignore
      requires g.edges[c].parent.NodeParent? ==> g.edges[c].parent.node !in open
      modifies this
      ensures Ready(to, ignore', base, comp, ctx0, open)
      ensures Progress(g, to, open, busy, old(Now()), ignore, Now(), ignore') && OtherJobs(g, base, comp, old(jobCtx), jobCtx)
      ensures Settled(g, to, bs, c, Now(), ignore')
      decreases g.edges.Keys - before, 0
    {
      hide OtherJobs, Sound, Followed;
      match g.edges[c].parent {
        case OtherParent(callbacks, allows) =>
          assert callbacks by { assert g.Willing(c); }
          ignore' := ignore;
          ProgressNone(g, to, open, busy, Now(), ignore);
          OtherJobsSelf(g, base, comp, jobCtx);
        case NodeParent(p) =>
          ClosedEdge(g, base, comp, c);
          ignore' := SetIgnore(p, to, ignore, base, comp, ctx0, open, busy);
        case JobParent(j) =>
          ignore' := JobSet(c, j, to, ignore, base, comp, ctx0, open, busy);
      }
    }

    /** child_job_set_aio_ctx */
    method JobSet(c: EdgeId, j: Job, to: Ctx, ignore: set<EdgeId>,
                  ghost base: set<EdgeId>, ghost comp: iset<Node>, ghost ctx0: map<Node, Ctx>, ghost open: iset<Node>, ghost busy: iset<Job>)
      returns (ignore': set<EdgeId>)
      requires Ready(to, ignore, base, comp, ctx0, open)
      requires c in g.edges && c !in base && g.edges[c] == Edge(JobParent(j), g.edges[c].bs) && g.edges[c].bs in comp
      modifies this
      ensures Ready(to, ignore', base, comp, ctx0, open)
      ensures Progress(g, to, open, busy, old(Now()), ignore, Now(), ignore') && OtherJobs(g, base, comp, old(jobCtx), jobCtx)
      ensures g.JobEdges(j) <= ignore' && JobMoved(Now(), to, j)
      decreases g.edges.Keys - ignore, 3
    {
      hide OtherJobs, Followed, NoDup;
      ignore' := ignore;
      ghost var st0, busy' := Now(), busy + iset{j};
      ProgressNone(g, to, open, busy', st0, ignore);
      OtherJobsSelf(g, base, comp, jobCtx);
      var todo := g.JobEdges(j);
      while todo != {}
        invariant todo <= g.JobEdges(j) && g.JobEdges(j) - todo <= ignore'
        invariant Ready(to, ignore', base, comp, ctx0, open)
        invariant Progress(g, to, open, busy', st0, ignore, Now(), ignore') && OtherJobs(g, base, comp, st0.jobCtx, jobCtx)
      {
        var sibling :| sibling in todo;
        todo := todo - {sibling};
        if sibling in ignore' {
          continue;
        }
        ghost var st1, mid := Now(), ignore';
        ClosedJob(g, base, comp, c, sibling);
        assert g.edges[sibling].bs !in open by { assert sibling in g.Incident(g.edges[sibling].bs); }
        ignore' := SetIgnore(g.edges[sibling].bs, to, ignore' + {sibling}, base, comp, ctx0, open, busy');
        ProgressEdge(g, to, open, busy', sibling, st1, mid, Now(), ignore');
        ProgressAgain(g, to, open, busy', st0, ignore, st1, mid, Now(), ignore');
        OtherJobsTrans(g, base, comp, st0.jobCtx, st1.jobCtx, jobCtx);
      }
      ProgressJob(g, to, open, busy, j, st0, ignore, Now(), ignore');
      OtherJobsSet(g, base, comp, st0.jobCtx, jobCtx, j, c, to);
      jobCtx := jobCtx[j := to];
    }

    /** bdrv_child_try_set_aio_context, on a component that lies in one AioContext.
        It succeeds exactly when every edge of the component is willing.  Then every
        node of the component is moved exactly once and ends in the new context, and
        nothing outside the component moves; otherwise nothing changes at all. */
    method TrySet(bs: Node, to: Ctx, ignoreChild: set<EdgeId>) returns (ok: bool)
      requires g.NoSelfEdge() && bs in ctx
      requires forall n :: n in Component(g, ignoreChild, bs) ==> n in ctx && ctx[n] == ctx[bs]
      modifies this
      ensures old(ctx[bs]) == to ==> ok && ctx == old(ctx) && jobCtx == old(jobCtx) && moves == []
      ensures old(ctx[bs]) != to ==>
                (ok <==> forall e :: e in g.edges && e !in ignoreChild && g.edges[e].bs in Component(g, ignoreChild, bs) ==> g.Willing(e))
      ensures !ok ==> ctx == old(ctx) && jobCtx == old(jobCtx) && moves == []
      ensures ok && old(ctx[bs]) != to ==> NoDup(moves) && forall n: Node :: n in moves <==> n in Component(g, ignoreChild, bs)
      ensures ok && old(ctx[bs]) != to ==>
                ctx.Keys == old(ctx).Keys && forall n :: n in ctx ==>
                  ctx[n] == if n in Component(g, ignoreChild, bs) then to else old(ctx)[n]
      ensures ok && old(ctx[bs]) != to ==>
                forall e :: e in g.edges && e !in ignoreChild && g.edges[e].bs in Component(g, ignoreChild, bs) ==>
                  g.edges[e].parent.JobParent? ==> JobMoved(Now(), to, g.edges[e].parent.job)
      ensures OtherJobs(g, ignoreChild, Component(g, ignoreChild, bs), old(jobCtx), jobCtx)
    {
      moves := [];
      OtherJobsSelf(g, ignoreChild, Component(g, ignoreChild, bs), jobCtx);
      if ctx[bs] == to {
        // Both walks return at once.
        return true;
      }
      ghost var comp := Component(g, ignoreChild, bs);
      ComponentClosed(g, ignoreChild, bs);
      hide Component;
      var ignore;
      ok, ignore := CanSet(bs, to, ignoreChild, ignoreChild, comp, iset{}, iset{});
      if !ok {
        return;
      }
      AllAsked(g, ctx, to, ignoreChild, bs, ignore);
      ghost var ctx0, st0 := ctx, Now();
      ignore := SetIgnore(bs, to, ignoreChild, ignoreChild, comp, ctx0, iset{}, iset{});
      AllMoved(g, to, ignoreChild, bs, ctx0, st0, Now(), ignore);
    }
  }

  /** A job that uses no node of the component keeps its context. */
  ghost predicate OtherJobs(g: Graph, base: set<EdgeId>, comp: iset<Node>, before: map<Job, Ctx>, after: map<Job, Ctx>) {
    forall j :: (forall e :: e in g.JobEdges(j) && e !in base ==> g.edges[e].bs !in comp) ==>
      (j in before <==> j in after) && (j in before ==> after[j] == before[j])
  }

  lemma {:induction false} OtherJobsSelf(g: Graph, base: set<EdgeId>, comp: iset<Node>, a: map<Job, Ctx>)
    ensures OtherJobs(g, base, comp, a, a)
  {}

  lemma {:induction false} OtherJobsTrans(g: Graph, base: set<EdgeId>, comp: iset<Node>,
                                          a: map<Job, Ctx>, b: map<Job, Ctx>, c: map<Job, Ctx>)
    requires OtherJobs(g, base, comp, a, b) && OtherJobs(g, base, comp, b, c)
    ensures OtherJobs(g, base, comp, a, c)
  {}

  lemma {:induction false} OtherJobsSet(g: Graph, base: set<EdgeId>, comp: iset<Node>,
                                        a: map<Job, Ctx>, b: map<Job, Ctx>, j: Job, e: EdgeId, to: Ctx)
    requires OtherJobs(g, base, comp, a, b) && e in g.JobEdges(j) && e !in base && g.edges[e].bs in comp
    ensures OtherJobs(g, base, comp, a, b[j := to])
  {}

  lemma {:induction false} AllAsked(g: Graph, ctx: map<Node, Ctx>, to: Ctx, base: set<EdgeId>, bs: Node, ignore: set<EdgeId>)
    requires Asked(g, ctx, to, base, Component(g, base, bs), iset{}, iset{}, base, ignore, true)
    requires bs in Walked(g, ctx, to, ignore)
    requires forall n :: n in Component(g, base, bs) ==> n in ctx && ctx[n] != to
    ensures forall e :: e in g.edges && e !in base && g.edges[e].bs in Component(g, base, bs) ==> g.Willing(e)
  {
    var done := Walked(g, ctx, to, ignore);
    assert iset{} + done == done;
    FollowedAll(g, base, ignore, done, bs);
    forall e | e in g.edges && e !in base && g.edges[e].bs in Component(g, base, bs) ensures g.Willing(e) {
      assert e in g.Incident(g.edges[e].bs);
    }
  }

  lemma {:induction false} AllMoved(g: Graph, to: Ctx, base: set<EdgeId>, bs: Node, ctx0: map<Node, Ctx>, st0: Contents, st: Contents, ignore: set<EdgeId>)
    requires Sound(g, to, Component(g, base, bs), ctx0, iset{}, st, ignore)
    requires Progress(g, to, iset{}, iset{}, st0, base, st, ignore) && bs in st.moves
    ensures forall n: Node :: n in st.moves <==> n in Component(g, base, bs)
    ensures forall e :: e in g.edges && e !in base && g.edges[e].bs in Component(g, base, bs) ==>
              g.edges[e].parent.JobParent? ==> JobMoved(st, to, g.edges[e].parent.job)
  {
    var done := MovedNodes(st);
    assert iset{} + done == done;
    FollowedAll(g, base, ignore, done, bs);
    forall e | e in g.edges && e !in base && g.edges[e].bs in Component(g, base, bs) && g.edges[e].parent.JobParent?
      ensures JobMoved(st, to, g.edges[e].parent.job)
    {
      assert e in g.Incident(g.edges[e].bs);
    }
  }

  lemma {:induction false} MovedIff(g: Graph, to: Ctx, comp: iset<Node>, ctx0: map<Node, Ctx>, open: iset<Node>, st: Contents, ignore: set<EdgeId>, n: Node)
    requires Sound(g, to, comp, ctx0, open, st, ignore) && n in ctx0 && ctx0[n] != to
    ensures n in st.ctx && (n in st.moves <==> st.ctx[n] == to)
  {}

  lemma {:induction false} Collected(g: Graph, to: Ctx, comp: iset<Node>, ctx0: map<Node, Ctx>, open: iset<Node>, bs: Node, st: Contents, ignore: set<EdgeId>)
    requires Sound(g, to, comp, ctx0, open, st, ignore) && bs !in st.moves && g.NoSelfEdge()
    ensures Sound(g, to, comp, ctx0, open + iset{bs}, st, ignore + g.Incident(bs))
    ensures forall c :: c in g.Children(bs) && c !in ignore ==> g.edges[c].bs !in open + iset{bs}
    ensures forall c :: c in g.Parents(bs) && c !in ignore && g.edges[c].parent.NodeParent? ==> g.edges[c].parent.node !in open + iset{bs}
  {
    forall c | c in g.Children(bs) && c !in ignore ensures g.edges[c].bs !in open {
      assert c in g.Incident(g.edges[c].bs);
    }
    forall c | c in g.Parents(bs) && c !in ignore && g.edges[c].parent.NodeParent? ensures g.edges[c].parent.node !in open {
      assert c in g.Incident(g.edges[c].parent.node);
    }
  }

  lemma {:induction false} ProgressNone(g: Graph, to: Ctx, open: iset<Node>, busy: iset<Job>, st: Contents, ignore: set<EdgeId>)
    ensures Progress(g, to, open, busy, st, ignore, st, ignore)
  {}

  lemma {:induction false} AskedNothing(g: Graph, ctx: map<Node, Ctx>, to: Ctx, base: set<EdgeId>, comp: iset<Node>,
                                        open: iset<Node>, busy: iset<Job>, ignore: set<EdgeId>)
    ensures Asked(g, ctx, to, base, comp, open, busy, ignore, ignore, true)
  {}

  lemma {:induction false} AskedGrows(g: Graph, ctx: map<Node, Ctx>, to: Ctx, base: set<EdgeId>, comp: iset<Node>,
                                      open: iset<Node>, busy: iset<Job>, ignore: set<EdgeId>, ignore': set<EdgeId>, ok: bool)
    requires Asked(g, ctx, to, base, comp, open, busy, ignore, ignore', ok)
    ensures ignore <= ignore'
  {}

  lemma {:induction false} WalkedHere(g: Graph, ctx: map<Node, Ctx>, to: Ctx, ignore: set<EdgeId>, n: Node)
    requires g.Incident(n) <= ignore
    ensures n in Walked(g, ctx, to, ignore)
  {}
}
