/**
 The layered form's vertices and edges, where a long edge passes through dummy vertices, and the lanes of the
 vertical form.
 */
module LayoutRoutes {
  import opened Domain
  import opened Layout

  datatype Vertex = Real(ordinal: int) | Dummy(source: int, target: int, rank: nat)

  datatype Edge = Edge(source: Vertex, target: Vertex)

  datatype Layered = Layered(vertices: map<Vertex, nat>, edges: seq<Edge>)

  const MAX_LAYOUT_VERTICES := 512

  // ----- Vertices and edges -----

  /** A dependency between two nodes that are shown. */
  predicate Depends(nodes: Nodes, source: int, target: int) {
    target in nodes && source in nodes[target] && source in nodes
  }

  /** Where the route of a dependency stands at a rank. */
  function Stop(ranks: map<int, nat>, source: int, target: int, rank: nat): Vertex
    requires source in ranks && target in ranks
  {
    if rank == ranks[source] then Real(source) else if rank == ranks[target] then Real(target) else Dummy(source, target, rank)
  }

  function RankOf(ranks: map<int, nat>, v: Vertex): nat {
    match v
    case Real(n) => if n in ranks then ranks[n] else 0
    case Dummy(_, _, rank) => rank
  }

  /** The node or the dummy of a dependency in `done`. */
  predicate Shown(ranks: map<int, nat>, done: set<(int, int)>, v: Vertex) {
    match v
    case Real(n) => n in ranks
    case Dummy(s, t, rank) => (s, t) in done && s in ranks && t in ranks && ranks[s] < rank < ranks[t]
  }

  function From(e: Edge): int { if e.source.Real? then e.source.ordinal else e.source.source }

  function Into(e: Edge): int { if e.target.Real? then e.target.ordinal else e.target.target }

  /** One step of the route of a dependency in `done`. */
  predicate OnRoute(ranks: map<int, nat>, done: set<(int, int)>, e: Edge) {
    var (s, t, rank) := (From(e), Into(e), RankOf(ranks, e.source));
    && (s, t) in done && s in ranks && t in ranks && ranks[s] <= rank < ranks[t]
    && e == Edge(Stop(ranks, s, t, rank), Stop(ranks, s, t, rank + 1))
  }

  /** A route passes every rank between its ends, one edge to the next rank each. */
  lemma StepsAreOnRoute(ranks: map<int, nat>, done: set<(int, int)>, source: int, target: int, rank: nat)
    requires source in ranks && target in ranks && ranks[source] <= rank < ranks[target] && (source, target) in done
    ensures OnRoute(ranks, done, Edge(Stop(ranks, source, target, rank), Stop(ranks, source, target, rank + 1)))
  {
  }

  ghost predicate Drawn(ranks: map<int, nat>, done: set<(int, int)>, vertices: map<Vertex, nat>, edges: seq<Edge>) {
    && (forall v :: v in vertices <==> Shown(ranks, done, v))
    && (forall v :: v in vertices ==> vertices[v] == RankOf(ranks, v))
    && forall e :: e in edges <==> OnRoute(ranks, done, e)
  }

  /** While one dependency is drawn: its route is there up to the rank reached. */
  ghost predicate Drawing(ranks: map<int, nat>, done: set<(int, int)>, source: int, target: int, reached: nat,
                          vertices: map<Vertex, nat>, edges: seq<Edge>)
  {
    && (forall v :: v in vertices <==> Shown(ranks, done, v) || (Shown(ranks, {(source, target)}, v) && RankOf(ranks, v) <= reached)
                                       || (v.Real? && v.ordinal in ranks))
    && (forall v :: v in vertices ==> vertices[v] == RankOf(ranks, v))
    && forall e :: e in edges <==> OnRoute(ranks, done, e) || (OnRoute(ranks, {(source, target)}, e) && RankOf(ranks, e.source) < reached)
  }

  lemma DrawStep(ranks: map<int, nat>, done: set<(int, int)>, source: int, target: int, reached: nat,
                 vertices: map<Vertex, nat>, edges: seq<Edge>)
    requires source in ranks && target in ranks && ranks[source] <= reached < ranks[target]
    requires Drawing(ranks, done, source, target, reached, vertices, edges)
    ensures var next := Stop(ranks, source, target, reached + 1);
            Drawing(ranks, done, source, target, reached + 1, vertices[next := reached + 1],
                    edges + [Edge(Stop(ranks, source, target, reached), next)])
  {
    var next := Stop(ranks, source, target, reached + 1);
    var step := Edge(Stop(ranks, source, target, reached), next);
    StepsAreOnRoute(ranks, {(source, target)}, source, target, reached);
    forall v ensures Shown(ranks, {(source, target)}, v) && RankOf(ranks, v) == reached + 1 ==> v.Real? || v == next {
    }
    forall e ensures OnRoute(ranks, {(source, target)}, e) && RankOf(ranks, e.source) == reached ==> e == step {
    }
  }

  /** The next edge of a route, with the vertex that it leads to. */
  method DrawNext(ranks: map<int, nat>, ghost done: set<(int, int)>, source: int, target: int, ghost reached: nat, previous: Vertex,
                  key: Vertex, rank: nat, vertices: map<Vertex, nat>, edges: seq<Edge>) returns (more: map<Vertex, nat>, longer: seq<Edge>)
    requires source in ranks && target in ranks && ranks[source] <= reached < ranks[target] && rank == reached + 1
    requires Drawing(ranks, done, source, target, reached, vertices, edges)
    requires previous == Stop(ranks, source, target, reached) && key == Stop(ranks, source, target, rank) && RankOf(ranks, key) == rank
    ensures Drawing(ranks, done, source, target, rank, more, longer)
  {
    hide *;
    DrawStep(ranks, done, source, target, reached, vertices, edges);
    KeyKept(ranks, done, source, target, reached, vertices, edges, key);
    more := if key in vertices then vertices else vertices[key := rank];
    longer := edges + [Edge(previous, key)];
  }

  lemma Stops(ranks: map<int, nat>, source: int, target: int, rank: nat)
    requires source in ranks && target in ranks && ranks[source] < rank <= ranks[target]
    ensures var key := if rank < ranks[target] then Dummy(source, target, rank) else Real(target);
            Stop(ranks, source, target, rank) == key && RankOf(ranks, key) == rank
    ensures Stop(ranks, source, target, ranks[source]) == Real(source)
  {
  }

  lemma NothingDrawn(ranks: map<int, nat>, done: set<(int, int)>, source: int, target: int, vertices: map<Vertex, nat>, edges: seq<Edge>)
    requires source in ranks && target in ranks && ranks[source] < ranks[target] && Drawn(ranks, done, vertices, edges)
    ensures Drawing(ranks, done, source, target, ranks[source], vertices, edges)
  {
  }

  /** Draw one dependency, through a dummy vertex at every rank between. */
  method DrawRoute(ranks: map<int, nat>, ghost done: set<(int, int)>, source: int, target: int,
                   vertices: map<Vertex, nat>, edges: seq<Edge>) returns (more: map<Vertex, nat>, longer: seq<Edge>)
    requires source in ranks && target in ranks && ranks[source] < ranks[target] && Drawn(ranks, done, vertices, edges)
    ensures Drawn(ranks, done + {(source, target)}, more, longer)
  {
    hide *;
    more, longer := vertices, edges;
    var previous := Real(source);
    var rank := ranks[source] + 1;
    NothingDrawn(ranks, done, source, target, vertices, edges);
    Stops(ranks, source, target, rank);
    while rank < ranks[target]
      invariant ranks[source] < rank <= ranks[target]
      invariant Drawing(ranks, done, source, target, rank - 1, more, longer)
      invariant previous == Stop(ranks, source, target, rank - 1)
    {
      var key := Dummy(source, target, rank);
      Stops(ranks, source, target, rank);
      more, longer := DrawNext(ranks, done, source, target, rank - 1, previous, key, rank, more, longer);
      previous := key;
      rank := rank + 1;
    }
    Stops(ranks, source, target, rank);
    more, longer := DrawNext(ranks, done, source, target, rank - 1, previous, Real(target), rank, more, longer);
    AllDrawn(ranks, done, source, target, more, longer);
  }

  /** A vertex that is there already has its rank. */
  lemma KeyKept(ranks: map<int, nat>, done: set<(int, int)>, source: int, target: int, reached: nat,
                vertices: map<Vertex, nat>, edges: seq<Edge>, key: Vertex)
    requires Drawing(ranks, done, source, target, reached, vertices, edges)
    ensures key in vertices ==> vertices[key := RankOf(ranks, key)] == vertices
    ensures key.Real? && key.ordinal in ranks ==> key in vertices
  {
  }

  lemma AllDrawn(ranks: map<int, nat>, done: set<(int, int)>, source: int, target: int, vertices: map<Vertex, nat>, edges: seq<Edge>)
    requires source in ranks && target in ranks && ranks[source] < ranks[target]
    requires Drawing(ranks, done, source, target, ranks[target], vertices, edges)
    ensures Drawn(ranks, done + {(source, target)}, vertices, edges)
  {
    var all := done + {(source, target)};
    forall v ensures Shown(ranks, all, v) <==> Shown(ranks, done, v) || Shown(ranks, {(source, target)}, v) {
    }
    forall e ensures OnRoute(ranks, all, e) <==> OnRoute(ranks, done, e) || OnRoute(ranks, {(source, target)}, e) {
    }
  }

  /** Every edge goes to the next rank. */
  lemma EdgesJoinAdjacentRanks(ranks: map<int, nat>, done: set<(int, int)>, vertices: map<Vertex, nat>, edges: seq<Edge>, e: Edge)
    requires Drawn(ranks, done, vertices, edges) && e in edges
    ensures e.source in vertices && e.target in vertices && vertices[e.target] == vertices[e.source] + 1
  {
    assert OnRoute(ranks, done, e);
    assert Shown(ranks, done, e.source) && Shown(ranks, done, e.target);
  }

  /** The dependencies of one node that are shown. */
  function PairsOf(nodes: Nodes, target: int): set<(int, int)>
    requires target in nodes
  {
    set s | s in nodes[target] && s in nodes :: (s, target)
  }

  function AllPairs(nodes: Nodes): set<(int, int)> { set t, s | t in nodes && s in nodes[t] && s in nodes :: (s, t) }

  /** The nodes, and a dummy for every rank that a dependency passes. */
  function AllVertices(nodes: Nodes, ranks: map<int, nat>): set<Vertex> {
    (set n | n in ranks :: Real(n))
    + set t, s, rank | t in nodes && s in nodes[t] && s in nodes && s in ranks && t in ranks && ranks[s] < rank < ranks[t] :: Dummy(s, t, rank)
  }

  lemma ShownIsVertex(nodes: Nodes, ranks: map<int, nat>, done: set<(int, int)>, v: Vertex)
    requires done <= AllPairs(nodes)
    ensures Shown(ranks, done, v) ==> v in AllVertices(nodes, ranks)
    ensures done == AllPairs(nodes) ==> (Shown(ranks, done, v) <==> v in AllVertices(nodes, ranks))
  {
    if v.Dummy? { assert (v.source, v.target) in AllPairs(nodes) <==> Depends(nodes, v.source, v.target); }
  }

  lemma VerticesDrawn(nodes: Nodes, ranks: map<int, nat>, done: set<(int, int)>, vertices: map<Vertex, nat>, edges: seq<Edge>)
    requires Drawn(ranks, done, vertices, edges) && done <= AllPairs(nodes)
    ensures |vertices| <= |AllVertices(nodes, ranks)|
    ensures done == AllPairs(nodes) ==> vertices.Keys == AllVertices(nodes, ranks)
  {
    hide Shown, AllVertices, OnRoute, AllPairs;
    forall v ensures v in vertices ==> v in AllVertices(nodes, ranks) { ShownIsVertex(nodes, ranks, done, v); }
    Fewer(vertices.Keys, AllVertices(nodes, ranks));
    assert |vertices| == |vertices.Keys|;
    if done == AllPairs(nodes) {
      forall v ensures v in vertices <==> v in AllVertices(nodes, ranks) { ShownIsVertex(nodes, ranks, done, v); }
    }
  }

  lemma Fewer<T>(some: set<T>, all: set<T>)
    requires some <= all
    ensures |some| <= |all|
  {
    assert all == some + (all - some);
  }

  predicate TooMany(vertices: map<Vertex, nat>) { |vertices| > MAX_LAYOUT_VERTICES }

  /** In a leveled graph a dependency ranks lower. */
  lemma DependencyRanksLower(nodes: Nodes, ranks: map<int, nat>, source: int, target: int)
    requires Leveled(nodes, ranks) && target in ranks && source in nodes[target] && source in nodes
    ensures source in ranks && ranks[source] < ranks[target]
  {
    LevelIs(ranks, nodes[target]);
  }

  /** All dependencies of one node, unless there are too many vertices. */
  method DrawTarget(nodes: Nodes, ranks: map<int, nat>, ghost done: set<(int, int)>, target: int,
                    vertices: map<Vertex, nat>, edges: seq<Edge>)
    returns (full: bool, more: map<Vertex, nat>, longer: seq<Edge>, ghost after: set<(int, int)>)
    requires Leveled(nodes, ranks) && target in ranks && target in nodes && Drawn(ranks, done, vertices, edges)
    requires done != {} ==> !TooMany(vertices)
    ensures Drawn(ranks, after, more, longer) && after <= done + PairsOf(nodes, target)
    ensures full ==> after != {} && TooMany(more)
    ensures !full ==> after == done + PairsOf(nodes, target) && (after != {} ==> !TooMany(more))
  {
    hide *;
    var sources := Sort(nodes[target], Leq());
    SortHolds(nodes[target], Leq());
    full, more, longer, after := false, vertices, edges, done;
    NoneYet(nodes, target);
    assert sources[..0] == [];
    for j := 0 to |sources|
      invariant Drawn(ranks, after, more, longer) && after == done + SomePairs(nodes, sources[..j], target)
      invariant after != {} ==> !TooMany(more)
    {
      var source := sources[j];
      assert sources[..j + 1] == sources[..j] + [source];
      SourceIn(nodes[target], sources, j);
      PairIsOne(nodes, target, source, done, sources[..j]);
      if source in nodes {
        DependencyRanksLower(nodes, ranks, source, target);
        more, longer := DrawRoute(ranks, after, source, target, more, longer);
        after := after + {(source, target)};
        ManyMeans(more);
        if |more| > MAX_LAYOUT_VERTICES { return true, more, longer, after; }
      }
    }
    assert sources[..|sources|] == sources;
    SamePairs(nodes, target, sources);
  }

  lemma NoneYet(nodes: Nodes, target: int)
    ensures SomePairs(nodes, [], target) == {}
  {
  }

  function SomePairs(nodes: Nodes, sources: seq<int>, target: int): set<(int, int)> {
    set s | s in sources && s in nodes :: (s, target)
  }

  lemma SourceIn(deps: seq<int>, sources: seq<int>, j: nat)
    requires multiset(sources) == multiset(deps) && j < |sources|
    ensures sources[j] in deps && forall s :: s in sources[..j] ==> s in deps
  {
    forall s | s in sources ensures s in deps { assert s in multiset(sources) && s in multiset(deps); }
    var n := sources[j];
    assert n in sources;
  }

  lemma PairIsOne(nodes: Nodes, target: int, source: int, done: set<(int, int)>, before: seq<int>)
    requires target in nodes && source in nodes[target] && forall s :: s in before ==> s in nodes[target]
    ensures done + SomePairs(nodes, before + [source], target)
         == done + SomePairs(nodes, before, target) + if source in nodes then {(source, target)} else {}
    ensures done + SomePairs(nodes, before + [source], target) <= done + PairsOf(nodes, target)
  {
  }

  lemma SamePairs(nodes: Nodes, target: int, sources: seq<int>)
    requires target in nodes && multiset(sources) == multiset(nodes[target])
    ensures SomePairs(nodes, sources, target) == PairsOf(nodes, target)
  {
    forall s ensures s in sources <==> s in nodes[target] {
      assert s in sources <==> s in multiset(sources);
      assert s in nodes[target] <==> s in multiset(nodes[target]);
    }
  }

  /** Of the first nodes of an order. */
  function PairsUpTo(nodes: Nodes, order: seq<int>): set<(int, int)>
    requires forall n :: n in order ==> n in nodes
  {
    set t, s | t in order && s in nodes[t] && s in nodes :: (s, t)
  }

  lemma PairsMore(nodes: Nodes, order: seq<int>, i: nat)
    requires (forall n :: n in order ==> n in nodes) && i < |order|
    ensures forall n :: n in order[..i] ==> n in nodes
    ensures forall n :: n in order[..i + 1] ==> n in nodes
    ensures order[i] in nodes
    ensures PairsUpTo(nodes, order[..i]) + PairsOf(nodes, order[i]) == PairsUpTo(nodes, order[..i + 1]) <= AllPairs(nodes)
  {
    assert order[..i + 1] == order[..i] + [order[i]];
  }

  /** The nodes themselves. */
  method Places(order: seq<int>, ranks: map<int, nat>) returns (vertices: map<Vertex, nat>)
    requires forall n :: n in order <==> n in ranks
    ensures Drawn(ranks, {}, vertices, [])
  {
    vertices := map[];
    for i := 0 to |order|
      invariant forall v :: v in vertices <==> v.Real? && v.ordinal in order[..i]
      invariant forall v :: v in vertices ==> v.ordinal in ranks && vertices[v] == ranks[v.ordinal]
    {
      var n := order[i];
      assert n in order && n in ranks;
      vertices := vertices[Real(n) := ranks[n]];
    }
    assert order[..|order|] == order;
  }

  /** The routes of all nodes in order, unless there are too many vertices. */
  method DrawAll(nodes: Nodes, order: seq<int>, ranks: map<int, nat>) returns (layout: Option<Layered>)
    requires Leveled(nodes, ranks) && forall n :: n in order <==> n in ranks
    requires forall n :: n in order <==> n in nodes
    ensures layout.Some? ==> Drawn(ranks, AllPairs(nodes), layout.value.vertices, layout.value.edges)
    ensures layout.None? <==> AllPairs(nodes) != {} && |AllVertices(nodes, ranks)| > MAX_LAYOUT_VERTICES
  {
    hide *;
    var vertices := Places(order, ranks);
    var edges: seq<Edge> := [];
    ghost var done: set<(int, int)> := {};
    NoPairs(nodes);
    assert order[..0] == [];
    for i := 0 to |order|
      invariant forall n :: n in order[..i] ==> n in nodes && n in ranks
      invariant Drawn(ranks, done, vertices, edges) && done == PairsUpTo(nodes, order[..i])
      invariant done != {} ==> !TooMany(vertices)
    {
      var target := order[i];
      assert target in order && target in nodes && target in ranks;
      PairsMore(nodes, order, i);
      var full;
      ghost var after;
      full, vertices, edges, after := DrawTarget(nodes, ranks, done, target, vertices, edges);
      if full {
        VerticesDrawn(nodes, ranks, after, vertices, edges);
        ManyMeans(vertices);
        return None;
      }
      done := after;
    }
    assert order[..|order|] == order;
    AllUpTo(nodes, order);
    VerticesDrawn(nodes, ranks, done, vertices, edges);
    ManyMeans(vertices);
    assert |vertices| == |vertices.Keys|;
    layout := Some(Layered(vertices, edges));
  }

  lemma NoPairs(nodes: Nodes)
    ensures PairsUpTo(nodes, []) == {}
  {
  }

  lemma ManyMeans(vertices: map<Vertex, nat>)
    ensures TooMany(vertices) <==> |vertices| > MAX_LAYOUT_VERTICES
  {
  }

  lemma AllUpTo(nodes: Nodes, order: seq<int>)
    requires forall n :: n in order <==> n in nodes
    ensures PairsUpTo(nodes, order) == AllPairs(nodes)
  {
  }

  /**
   `_layered_vertices` before it reorders within ranks. There is no layout when there is a cycle, or, if any edge is
   to be drawn, when there are too many vertices.
   */
  method LayeredVertices(nodes: Nodes, listing: seq<int>) returns (layout: Option<Layered>, ranks: map<int, nat>)
    requires Lists(listing, nodes)
    ensures Leveled(nodes, ranks) && (Acyclic(nodes) <==> ranks.Keys == nodes.Keys)
    ensures layout.Some? ==> Acyclic(nodes) && Drawn(ranks, AllPairs(nodes), layout.value.vertices, layout.value.edges)
    ensures layout.None? <==> !Acyclic(nodes) || (AllPairs(nodes) != {} && |AllVertices(nodes, ranks)| > MAX_LAYOUT_VERTICES)
  {
    var order, levels := Kahn(nodes, listing);
    ranks := levels;
    AllEmitted(nodes, order);
    GreedyOnce(nodes, order);
    hide Leveled, Drawn, Greedy, NoneFree, Acyclic, AllVertices, AllPairs;
    assert forall n :: n in ranks ==> n in nodes;
    if |order| != |nodes| { return None, ranks; }
    layout := DrawAll(nodes, order, levels);
  }

  // ----- The limit on vertices -----

  function Listing(count: nat): seq<int> { seq(count, i => i) }

  lemma ListingHas(count: nat)
    ensures forall n :: n in Listing(count) <==> 0 <= n < count
  {
    forall n | 0 <= n < count ensures n in Listing(count) { assert Listing(count)[n] == n; }
  }

  /** Nodes without dependencies. */
  function Lone(count: nat): Nodes { map n | n in Listing(count) :: [] }

  /** The same, but the second node depends on the first. */
  function WithOneEdge(count: nat): Nodes { Lone(count)[1 := [0]] }

  function Reals(count: nat): set<Vertex> { set n | n in Listing(count) :: Real(n) }

  lemma {:induction false} RealCount(count: nat)
    ensures |Reals(count)| == count
  {
    ListingHas(count);
    if count == 0 {
      assert Reals(count) == {};
    } else {
      RealCount(count - 1);
      ListingHas(count - 1);
      hide Listing;
      assert Reals(count) == Reals(count - 1) + {Real(count - 1)} && Real(count - 1) !in Reals(count - 1);
    }
  }

  lemma LoneHasNoEdge(count: nat)
    ensures AllPairs(Lone(count)) == {} && Acyclic(Lone(count)) && Lists(Listing(count), Lone(count))
  {
    assert Ranks(Lone(count), map n | n in Listing(count) :: 0);
    hide Ranks;
  }

  lemma OneEdgeRanks(count: nat)
    requires count >= 2
    ensures Ranks(WithOneEdge(count), map n | n in Listing(count) :: if n == 1 then 1 else 0)
    ensures WithOneEdge(count).Keys == Lone(count).Keys
  {
    ListingHas(count);
  }

  lemma HasOneEdge(count: nat)
    requires count >= 2
    ensures AllPairs(WithOneEdge(count)) != {} && Acyclic(WithOneEdge(count)) && Lists(Listing(count), WithOneEdge(count))
  {
    ListingHas(count);
    OneEdgeRanks(count);
    hide Ranks;
    var nodes := WithOneEdge(count);
    assert nodes[1] == [0] && 1 in nodes && 0 in nodes[1] && 0 in nodes;
    assert (0, 1) in AllPairs(nodes);
    assert forall n :: n in nodes <==> n in Listing(count);
  }

  lemma AtLeastReals(nodes: Nodes, ranks: map<int, nat>, count: nat)
    requires ranks.Keys == nodes.Keys && forall n :: n in Listing(count) ==> n in nodes
    ensures |AllVertices(nodes, ranks)| >= count
  {
    RealCount(count);
    hide Listing;
    Fewer(Reals(count), AllVertices(nodes, ranks));
  }

  /** Without an edge any number of nodes is laid out. */
  method LoneNodes(count: nat) returns (layout: Option<Layered>)
    ensures layout.Some? && |layout.value.vertices| >= count
  {
    var ranks;
    LoneHasNoEdge(count);
    hide *;
    layout, ranks := LayeredVertices(Lone(count), Listing(count));
    AllLaidOut(Lone(count), ranks, layout, count);
  }

  /** With a single edge, more than 512 nodes are too many. */
  method LinkedNodes(count: nat) returns (layout: Option<Layered>)
    requires count > MAX_LAYOUT_VERTICES
    ensures layout.None?
  {
    var ranks;
    HasOneEdge(count);
    assert MAX_LAYOUT_VERTICES == 512;
    hide *;
    layout, ranks := LayeredVertices(WithOneEdge(count), Listing(count));
    ListedAreNodes(WithOneEdge(count), count);
    AtLeastReals(WithOneEdge(count), ranks, count);
  }

  lemma ListedAreNodes(nodes: Nodes, count: nat)
    requires Lists(Listing(count), nodes)
    ensures forall n :: n in Listing(count) ==> n in nodes
  {
    hide Listing;
  }

  lemma AllLaidOut(nodes: Nodes, ranks: map<int, nat>, layout: Option<Layered>, count: nat)
    requires nodes == Lone(count) && layout.Some? && ranks.Keys == nodes.Keys
    requires Drawn(ranks, AllPairs(nodes), layout.value.vertices, layout.value.edges)
    ensures |layout.value.vertices| >= count
  {
    VerticesDrawn(nodes, ranks, AllPairs(nodes), layout.value.vertices, layout.value.edges);
    AtLeastReals(nodes, ranks, count);
    hide Drawn, AllPairs, AllVertices;
    assert |layout.value.vertices| == |layout.value.vertices.Keys|;
  }

  // ----- Lanes -----

  /** Rows that an edge takes, both ends included. */
  type Span = (int, int)

  predicate Alive(e: Span, row: int) { e.0 <= row <= e.1 }

  /** The first lane whose last edge has ended, or a new one. */
  function FirstFree(ends: seq<int>, source: int): (lane: nat)
    ensures lane <= |ends| && (lane < |ends| ==> ends[lane] < source)
    ensures forall i :: 0 <= i < lane ==> ends[i] >= source
  {
    if ends == [] || ends[0] < source then 0
    else
      var lane := 1 + FirstFree(ends[1..], source);
      assert forall i :: 0 < i < lane ==> ends[i] == ends[1..][i - 1];
      lane
  }

  /** Edges that share a lane do not share a row. */
  ghost predicate Disjoint(edges: seq<Span>, lanes: seq<nat>)
    requires |lanes| <= |edges|
  {
    forall i, j :: 0 <= i < j < |lanes| && lanes[i] == lanes[j] ==> edges[i].1 < edges[j].0
  }

  /** `last` names the last edge of every lane. */
  ghost predicate LastOf(edges: seq<Span>, lanes: seq<nat>, ends: seq<int>, last: seq<nat>)
    requires |lanes| <= |edges|
  {
    && |last| == |ends|
    && (forall i :: 0 <= i < |lanes| ==> lanes[i] < |ends| && edges[i].1 <= ends[lanes[i]])
    && forall k :: 0 <= k < |last| ==> last[k] < |lanes| && lanes[last[k]] == k && edges[last[k]].1 == ends[k]
  }

  /** `busy` names an edge of every lane, and all of these are alive at one row. */
  ghost predicate AllBusy(edges: seq<Span>, lanes: seq<nat>, busy: seq<nat>, row: int)
    requires |lanes| <= |edges|
  {
    forall k :: 0 <= k < |busy| ==> busy[k] < |lanes| && lanes[busy[k]] == k && Alive(edges[busy[k]], row)
  }

  predicate Ordered(edges: seq<Span>) {
    && (forall i :: 0 <= i < |edges| ==> edges[i].0 < edges[i].1)
    && forall i, j :: 0 <= i < j < |edges| ==> edges[i].0 <= edges[j].0
  }

  /** The lane allocation loop of `_render_vertical_layout`. */
  method RouteLanes(edges: seq<Span>) returns (lanes: seq<nat>, ends: seq<int>, ghost busy: seq<nat>, ghost row: int)
    requires Ordered(edges)
    ensures |lanes| == |edges| && Disjoint(edges, lanes)
    ensures forall i :: 0 <= i < |lanes| ==> lanes[i] < |ends|
    ensures |busy| == |ends| && AllBusy(edges, lanes, busy, row)
  {
    lanes, ends, busy, row := [], [], [], 0;
    ghost var last: seq<nat> := [];
    for n := 0 to |edges|
      invariant |lanes| == n && Disjoint(edges, lanes) && LastOf(edges, lanes, ends, last)
      invariant |busy| == |ends| && AllBusy(edges, lanes, busy, row)
    {
      var (source, target) := edges[n];
      var lane := FirstFree(ends, source);
      if lane == |ends| {
        NewLane(edges, lanes, ends, last);
        ends, last, row := ends + [target], last + [n], source;
        busy := last;
      } else {
        OldLane(edges, lanes, ends, last, lane);
        ends, last := ends[lane := target], last[lane := n];
      }
      lanes := lanes + [lane];
    }
  }

  lemma OldLane(edges: seq<Span>, lanes: seq<nat>, ends: seq<int>, last: seq<nat>, lane: nat)
    requires |lanes| < |edges| && Ordered(edges) && Disjoint(edges, lanes) && LastOf(edges, lanes, ends, last)
    requires lane < |ends| && ends[lane] < edges[|lanes|].0
    ensures Disjoint(edges, lanes + [lane])
    ensures LastOf(edges, lanes + [lane], ends[lane := edges[|lanes|].1], last[lane := |lanes|])
  {
  }

  /** A new lane is opened at a row where the last edge of every other lane is still alive. */
  lemma NewLane(edges: seq<Span>, lanes: seq<nat>, ends: seq<int>, last: seq<nat>)
    requires |lanes| < |edges| && Ordered(edges) && Disjoint(edges, lanes) && LastOf(edges, lanes, ends, last)
    requires forall k :: 0 <= k < |ends| ==> ends[k] >= edges[|lanes|].0
    ensures Disjoint(edges, lanes + [|ends|])
    ensures LastOf(edges, lanes + [|ends|], ends + [edges[|lanes|].1], last + [|lanes|])
    ensures AllBusy(edges, lanes + [|ends|], last + [|lanes|], edges[|lanes|].0)
  {
  }

  /** The edges alive at a row. */
  function AliveAt(edges: seq<Span>, row: int): set<int> { set i | 0 <= i < |edges| && Alive(edges[i], row) }

  /** Whatever lanes keep edges apart, there are at least as many as edges alive at any row. */
  lemma LanesNeeded(edges: seq<Span>, lanes: seq<nat>, count: nat, row: int)
    requires |lanes| == |edges| && Disjoint(edges, lanes) && forall i :: 0 <= i < |lanes| ==> lanes[i] < count
    ensures |AliveAt(edges, row)| <= count
  {
    LanesOf(edges, lanes, row, AliveAt(edges, row), count);
  }

  lemma {:induction false} LanesOf(edges: seq<Span>, lanes: seq<nat>, row: int, some: set<int>, count: nat)
    requires |lanes| == |edges| && Disjoint(edges, lanes) && some <= AliveAt(edges, row)
    requires forall i :: i in some ==> lanes[i] < count
    ensures |some| <= count
    decreases count
  {
    if some != {} {
      var i :| i in some;
      assert i in AliveAt(edges, row) && lanes[i] < count;
      var top := set i | i in some && lanes[i] == count - 1;
      AtMostOne(edges, lanes, row, top, count - 1);
      LanesOf(edges, lanes, row, some - top, count - 1);
      assert some == top + (some - top);
    }
  }

  lemma AtMostOne(edges: seq<Span>, lanes: seq<nat>, row: int, some: set<int>, lane: nat)
    requires |lanes| == |edges| && Disjoint(edges, lanes) && some <= AliveAt(edges, row)
    requires forall i :: i in some ==> lanes[i] == lane
    ensures |some| <= 1
  {
    if some != {} {
      var a :| a in some;
      forall b | b in some ensures a == b {
        assert a in AliveAt(edges, row) && b in AliveAt(edges, row);
      }
      assert some == {a};
    }
  }

  /** A row where all lanes are busy has an edge alive for each. */
  lemma {:induction false} BusyEdges(edges: seq<Span>, lanes: seq<nat>, busy: seq<nat>, row: int)
    requires |lanes| == |edges| && AllBusy(edges, lanes, busy, row)
    ensures |busy| <= |AliveAt(edges, row)|
  {
    var some := set k | 0 <= k < |busy| :: busy[k] as int;
    SetOfBusy(edges, lanes, busy, row, |busy|);
    Fewer(some, AliveAt(edges, row));
  }

  lemma {:induction false} SetOfBusy(edges: seq<Span>, lanes: seq<nat>, busy: seq<nat>, row: int, n: nat)
    requires |lanes| == |edges| && AllBusy(edges, lanes, busy, row) && n <= |busy|
    ensures |set k | 0 <= k < n :: busy[k] as int| == n
  {
    if n > 0 {
      SetOfBusy(edges, lanes, busy, row, n - 1);
      var before := set k | 0 <= k < n - 1 :: busy[k] as int;
      assert busy[n - 1] !in before;
      assert (set k | 0 <= k < n :: busy[k] as int) == before + {busy[n - 1]};
    }
  }

  /** The router uses exactly as many lanes as the busiest row has edges: none could do with fewer. */
  lemma LanesAreOptimal(edges: seq<Span>, lanes: seq<nat>, busy: seq<nat>, row: int)
    requires |lanes| == |edges| && Disjoint(edges, lanes) && AllBusy(edges, lanes, busy, row)
    requires forall i :: 0 <= i < |lanes| ==> lanes[i] < |busy|
    ensures |AliveAt(edges, row)| == |busy|
    ensures forall other :: |AliveAt(edges, other)| <= |busy|
  {
    BusyEdges(edges, lanes, busy, row);
    forall other ensures |AliveAt(edges, other)| <= |busy| { LanesNeeded(edges, lanes, |busy|, other); }
  }

  // ----- The edges that the lanes are for -----

  function LeqSpan(): (Span, Span) -> bool { (a: Span, b: Span) => a.0 < b.0 || (a.0 == b.0 && a.1 <= b.1) }

  /** From the row of a dependency to the row of a node below it. */
  predicate Spans(nodes: Nodes, order: seq<int>, e: Span) {
    0 <= e.0 < e.1 < |order| && order[e.1] in nodes && order[e.0] in nodes[order[e.1]]
  }

  method IndexByOrdinal(order: seq<int>) returns (index: map<int, int>)
    requires forall i, j :: 0 <= i < j < |order| ==> order[i] != order[j]
    ensures forall n :: n in index <==> n in order
    ensures forall n :: n in index ==> 0 <= index[n] < |order| && order[index[n]] == n
  {
    index := map[];
    for i := 0 to |order|
      invariant forall n :: n in index <==> n in order[..i]
      invariant forall n :: n in index ==> 0 <= index[n] < i && order[index[n]] == n
    {
      index := index[order[i] := i];
    }
    assert order[..|order|] == order;
  }

  /** The edges into one row. */
  method EdgesInto(nodes: Nodes, order: seq<int>, index: map<int, int>, row: nat, edges: seq<Span>) returns (more: seq<Span>)
    requires row < |order| && order[row] in nodes && forall i, j :: 0 <= i < j < |order| ==> order[i] != order[j]
    requires forall n :: n in index <==> n in order
    requires forall n :: n in index ==> 0 <= index[n] < |order| && order[index[n]] == n
    ensures forall e :: e in more <==> e in edges || (e.1 == row && Spans(nodes, order, e))
  {
    more := edges;
    var deps := nodes[order[row]];
    for j := 0 to |deps|
      invariant forall e :: e in more <==> e in edges || (e.1 == row && Spans(nodes, order, e) && order[e.0] in deps[..j])
    {
      var d := deps[j];
      assert deps[..j + 1] == deps[..j] + [d];
      forall e: Span | e.1 == row && Spans(nodes, order, e) && order[e.0] == d ensures d in index && index[d] == e.0 {
        assert order[e.0] in order;
      }
      if d in index && index[d] < row { more := more + [(index[d], row)]; }
    }
    assert deps[..|deps|] == deps;
  }

  method RawEdges(nodes: Nodes, order: seq<int>) returns (edges: seq<Span>)
    requires Lists(order, nodes)
    ensures Ordered(edges) && forall e :: e in edges <==> Spans(nodes, order, e)
  {
    var index := IndexByOrdinal(order);
    var found: seq<Span> := [];
    for row := 0 to |order|
      invariant forall e :: e in found <==> e.1 < row && Spans(nodes, order, e)
    {
      var n := order[row];
      assert n in order && n in nodes;
      found := EdgesInto(nodes, order, index, row, found);
    }
    edges := Sort(found, LeqSpan());
    SortHolds(found, LeqSpan());
    SortSorts(found, LeqSpan());
    forall e ensures e in edges <==> e in found { assert e in edges <==> e in multiset(edges); }
    hide Sort, Spans;
    InOrder(nodes, order, edges);
  }

  lemma InOrder(nodes: Nodes, order: seq<int>, edges: seq<Span>)
    requires Sorted(edges, LeqSpan()) && forall e :: e in edges ==> Spans(nodes, order, e)
    ensures Ordered(edges)
  {
    forall i | 0 <= i < |edges| ensures edges[i].0 < edges[i].1 {
      var e := edges[i];
      assert e in edges;
    }
    forall i, j | 0 <= i < j < |edges| ensures edges[i].0 <= edges[j].0 { assert LeqSpan()(edges[i], edges[j]); }
  }

  /** In Kahn's order no dependency is without its edge; only a cycle loses some. */
  lemma EveryDependencyRouted(nodes: Nodes, order: seq<int>, edges: seq<Span>, source: int, target: int)
    requires Greedy(nodes, order) && Lists(order, nodes) && Depends(nodes, source, target)
    requires forall e :: e in edges <==> Spans(nodes, order, e)
    ensures (IndexIn(order, source), IndexIn(order, target)) in edges
  {
    var (i, j) := (IndexIn(order, source), IndexIn(order, target));
    assert LeastFree(nodes, order[..j], order[j]);
    assert source in order[..j];
    var k :| 0 <= k < j && order[k] == source;
    assert k == i;
    assert Spans(nodes, order, (i, j));
  }
}
