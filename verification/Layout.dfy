/**
 Layout of a Code Mode graph: Kahn's order, ranks as longest paths, dummy vertices on long edges, and the lanes of
 the vertical form. Nodes are named by their ordinals; a dependency may name a node that is not shown.
 */
module Layout {
  import opened Domain

  /** The dependencies of each node shown, by ordinal. */
  type Nodes = map<int, seq<int>>

  // ----- Sorting -----

  predicate Sorted<T(!new)>(s: seq<T>, leq: (T, T) -> bool) { forall i, j :: 0 <= i < j < |s| ==> leq(s[i], s[j]) }

  ghost predicate TotalOrder<T(!new)>(leq: (T, T) -> bool) {
    && (forall a, b :: leq(a, b) || leq(b, a))
    && forall a, b, c :: leq(a, b) && leq(b, c) ==> leq(a, c)
  }

  function Insert<T(!new)>(s: seq<T>, x: T, leq: (T, T) -> bool): seq<T> {
    if s == [] || leq(s[|s| - 1], x) then s + [x] else Insert(s[..|s| - 1], x, leq) + [s[|s| - 1]]
  }

  function Sort<T(!new)>(s: seq<T>, leq: (T, T) -> bool): seq<T> {
    if s == [] then [] else Insert(Sort(s[..|s| - 1], leq), s[|s| - 1], leq)
  }

  lemma {:induction false} InsertHolds<T(!new)>(s: seq<T>, x: T, leq: (T, T) -> bool)
    ensures multiset(Insert(s, x, leq)) == multiset(s) + multiset{x}
  {
    if s != [] && !leq(s[|s| - 1], x) {
      InsertHolds(s[..|s| - 1], x, leq);
      assert s == s[..|s| - 1] + [s[|s| - 1]];
    }
  }

  lemma {:induction false} InsertSorts<T(!new)>(s: seq<T>, x: T, leq: (T, T) -> bool)
    requires TotalOrder(leq) && Sorted(s, leq)
    ensures Sorted(Insert(s, x, leq), leq)
  {
    if s != [] && !leq(s[|s| - 1], x) {
      var front, last := s[..|s| - 1], s[|s| - 1];
      InsertSorts(front, x, leq);
      InsertHolds(front, x, leq);
      forall i | 0 <= i < |Insert(front, x, leq)| ensures leq(Insert(front, x, leq)[i], last) {
        assert Insert(front, x, leq)[i] in multiset(front) + multiset{x};
      }
    }
  }

  lemma {:induction false} SortHolds<T(!new)>(s: seq<T>, leq: (T, T) -> bool)
    ensures multiset(Sort(s, leq)) == multiset(s)
  {
    if s != [] {
      SortHolds(s[..|s| - 1], leq);
      InsertHolds(Sort(s[..|s| - 1], leq), s[|s| - 1], leq);
      hide Insert;
      assert s == s[..|s| - 1] + [s[|s| - 1]];
    }
  }

  lemma {:induction false} SortSorts<T(!new)>(s: seq<T>, leq: (T, T) -> bool)
    requires TotalOrder(leq)
    ensures Sorted(Sort(s, leq), leq)
  {
    hide TotalOrder, Insert;
    if s != [] {
      SortSorts(s[..|s| - 1], leq);
      InsertSorts(Sort(s[..|s| - 1], leq), s[|s| - 1], leq);
    }
  }

  // ----- What the order is -----

  /** Nothing that the node waits for is still to come. */
  predicate Free(nodes: Nodes, emitted: seq<int>, n: int) {
    n in nodes && n !in emitted && forall d :: d in nodes[n] && d in nodes ==> d in emitted
  }

  /** Each entry is the least node that is free at its turn. */
  ghost predicate Greedy(nodes: Nodes, order: seq<int>) {
    forall i :: 0 <= i < |order| ==> LeastFree(nodes, order[..i], order[i])
  }

  ghost predicate LeastFree(nodes: Nodes, emitted: seq<int>, n: int) {
    Free(nodes, emitted, n) && forall m :: Free(nodes, emitted, m) ==> n <= m
  }

  ghost predicate NoneFree(nodes: Nodes, order: seq<int>) { forall n :: !Free(nodes, order, n) }

  /** Some ranking puts every dependency shown below its dependents. */
  ghost predicate Acyclic(nodes: Nodes) { exists rank: map<int, nat> :: Ranks(nodes, rank) }

  ghost predicate Ranks(nodes: Nodes, rank: map<int, nat>) {
    rank.Keys == nodes.Keys && forall n, d :: n in nodes && d in nodes[n] && d in nodes ==> rank[d] < rank[n]
  }

  lemma GreedyOnce(nodes: Nodes, order: seq<int>)
    requires Greedy(nodes, order)
    ensures forall i :: 0 <= i < |order| ==> order[i] in nodes
    ensures forall i, j :: 0 <= i < j < |order| ==> order[i] != order[j]
    ensures |order| <= |nodes|
  {
    forall i | 0 <= i < |order| ensures order[i] in nodes && order[i] !in order[..i] {
      assert LeastFree(nodes, order[..i], order[i]);
    }
    forall i, j | 0 <= i < j < |order| ensures order[i] != order[j] {
      assert order[..j][i] == order[i];
    }
    DistinctFits(order, nodes.Keys);
  }

  lemma {:induction false} DistinctFits(s: seq<int>, all: set<int>)
    requires forall i, j :: 0 <= i < j < |s| ==> s[i] != s[j]
    requires forall i :: 0 <= i < |s| ==> s[i] in all
    ensures |s| <= |all| && (|s| == |all| ==> forall n :: n in all ==> n in s)
  {
    if s != [] {
      var last := s[|s| - 1];
      DistinctFits(s[..|s| - 1], all - {last});
      assert s == s[..|s| - 1] + [last];
    }
  }

  /** The least-ranked node that is left is free. */
  lemma {:induction false} LeftHasFree(nodes: Nodes, rank: map<int, nat>, order: seq<int>, n: int)
    requires Ranks(nodes, rank) && n in nodes && n !in order
    ensures exists m :: Free(nodes, order, m)
    decreases rank[n]
  {
    if !Free(nodes, order, n) {
      var d :| d in nodes[n] && d in nodes && d !in order;
      LeftHasFree(nodes, rank, order, d);
    }
  }

  function IndexIn(order: seq<int>, n: int): (i: nat)
    requires n in order
    ensures i < |order| && order[i] == n
  {
    if order[0] == n then 0 else 1 + IndexIn(order[1..], n)
  }

  /** A node's place ranks it above its dependencies. */
  lemma PlacesRank(nodes: Nodes, order: seq<int>)
    requires Greedy(nodes, order) && forall n :: n in nodes ==> n in order
    ensures Acyclic(nodes)
  {
    GreedyOnce(nodes, order);
    var rank: map<int, nat> := map n | n in nodes :: IndexIn(order, n);
    forall n, d | n in nodes && d in nodes[n] && d in nodes ensures rank[d] < rank[n] {
      var i := IndexIn(order, n);
      assert LeastFree(nodes, order[..i], order[i]);
      assert d in order[..i];
      var j :| 0 <= j < i && order[j] == d;
    }
    assert Ranks(nodes, rank);
  }

  /** Kahn's loop emits every node exactly when the graph has no cycle. */
  lemma AllEmitted(nodes: Nodes, order: seq<int>)
    requires Greedy(nodes, order) && NoneFree(nodes, order)
    ensures |order| == |nodes| <==> Acyclic(nodes)
    ensures |order| == |nodes| <==> forall n :: n in nodes ==> n in order
  {
    GreedyOnce(nodes, order);
    DistinctFits(order, nodes.Keys);
    assert |nodes| == |nodes.Keys|;
    if |order| == |nodes| { PlacesRank(nodes, order); }
    if Acyclic(nodes) {
      var rank: map<int, nat> :| Ranks(nodes, rank);
      forall n | n in nodes ensures n in order {
        if n !in order { LeftHasFree(nodes, rank, order, n); }
      }
    }
    if forall n :: n in nodes ==> n in order { Covers(order, nodes.Keys); }
  }

  lemma {:induction false} Covers(s: seq<int>, all: set<int>)
    requires forall n :: n in all ==> n in s
    ensures |all| <= |s|
  {
    if s != [] {
      var last := s[|s| - 1];
      forall n | n in all - {last} ensures n in s[..|s| - 1] {
        var i :| 0 <= i < |s| && s[i] == n;
        assert s[..|s| - 1][i] == n;
      }
      Covers(s[..|s| - 1], all - {last});
    } else {
      assert forall n :: n in all ==> n in s && n !in s;
      assert |all| == 0;
    }
  }

  // ----- Ranks -----

  /** One above the highest dependency ranked so far; 0 where there is none. */
  function Level(ranks: map<int, nat>, deps: seq<int>): nat {
    if deps == [] then 0
    else
      var (d, rest) := (deps[|deps| - 1], Level(ranks, deps[..|deps| - 1]));
      if d in ranks && rest < ranks[d] + 1 then ranks[d] + 1 else rest
  }

  lemma {:induction false} LevelIs(ranks: map<int, nat>, deps: seq<int>)
    ensures forall d :: d in deps && d in ranks ==> ranks[d] < Level(ranks, deps)
    ensures Level(ranks, deps) == 0 || exists d :: d in deps && d in ranks && ranks[d] == Level(ranks, deps) - 1
  {
    if deps != [] {
      LevelIs(ranks, deps[..|deps| - 1]);
      assert deps == deps[..|deps| - 1] + [deps[|deps| - 1]];
    }
  }

  /** A rank given later to a node that is no dependency does not matter. */
  lemma {:induction false} LevelStays(ranks: map<int, nat>, deps: seq<int>, n: int, rank: nat)
    requires n !in deps
    ensures Level(ranks[n := rank], deps) == Level(ranks, deps)
  {
    if deps != [] {
      LevelStays(ranks, deps[..|deps| - 1], n, rank);
      assert deps[|deps| - 1] in deps;
    }
  }

  /** Every node ranked is one above the highest of its dependencies, and these are ranked. */
  ghost predicate Leveled(nodes: Nodes, ranks: map<int, nat>) {
    forall n :: n in ranks ==>
      n in nodes && ranks[n] == Level(ranks, nodes[n]) && forall d :: d in nodes[n] && d in nodes ==> d in ranks
  }

  /** A chain of dependencies, each entry a dependency of the next. */
  ghost predicate Chain(nodes: Nodes, path: seq<int>) {
    && path != [] && (forall i :: 0 <= i < |path| ==> path[i] in nodes)
    && forall i :: 0 < i < |path| ==> path[i - 1] in nodes[path[i]]
  }

  /** No chain that ends in a ranked node is longer than its rank allows. */
  lemma {:induction false} ChainsAreShort(nodes: Nodes, ranks: map<int, nat>, path: seq<int>)
    requires Leveled(nodes, ranks) && Chain(nodes, path) && path[|path| - 1] in ranks
    ensures |path| <= ranks[path[|path| - 1]] + 1
    decreases |path|
  {
    if |path| > 1 {
      var front, n := path[..|path| - 1], path[|path| - 1];
      assert front[|front| - 1] == path[|path| - 2];
      assert Chain(nodes, front);
      ChainsAreShort(nodes, ranks, front);
      LevelIs(ranks, nodes[n]);
    }
  }

  /** And some chain is that long: the rank is the length of the longest path. */
  lemma {:induction false} LongestChain(nodes: Nodes, ranks: map<int, nat>, n: int) returns (path: seq<int>)
    requires Leveled(nodes, ranks) && n in ranks
    ensures Chain(nodes, path) && path[|path| - 1] == n && |path| == ranks[n] + 1
    decreases ranks[n]
  {
    LevelIs(ranks, nodes[n]);
    if ranks[n] == 0 {
      path := [n];
    } else {
      var d :| d in nodes[n] && d in ranks && ranks[d] == ranks[n] - 1;
      path := LongestChain(nodes, ranks, d);
      path := path + [n];
    }
  }

  // ----- Counting open dependencies -----

  /** How many of the dependencies shown have not been emitted; a repeated one counts each time. */
  function Open(nodes: Nodes, emitted: seq<int>, deps: seq<int>): nat {
    if deps == [] then 0
    else
      var d := deps[|deps| - 1];
      Open(nodes, emitted, deps[..|deps| - 1]) + if d in nodes && d !in emitted then 1 else 0
  }

  lemma {:induction false} OpenIsZero(nodes: Nodes, emitted: seq<int>, deps: seq<int>)
    ensures Open(nodes, emitted, deps) == 0 <==> forall d :: d in deps && d in nodes ==> d in emitted
  {
    if deps != [] {
      OpenIsZero(nodes, emitted, deps[..|deps| - 1]);
      assert deps == deps[..|deps| - 1] + [deps[|deps| - 1]];
    }
  }

  lemma {:induction false} OpenFalls(nodes: Nodes, emitted: seq<int>, deps: seq<int>, n: int)
    requires n in nodes && n !in emitted
    ensures Open(nodes, emitted, deps) == Open(nodes, emitted + [n], deps) + multiset(deps)[n]
  {
    if deps != [] {
      OpenFalls(nodes, emitted, deps[..|deps| - 1], n);
      assert deps == deps[..|deps| - 1] + [deps[|deps| - 1]];
    }
  }

  function Leq(): (int, int) -> bool { (a: int, b: int) => a <= b }

  /** Once the dependencies in `done` are counted: how many of them are shown. */
  ghost predicate Counted(nodes: Nodes, done: Nodes, indegree: map<int, int>) {
    indegree.Keys == nodes.Keys == done.Keys && forall n :: n in nodes ==> indegree[n] == Open(nodes, [], done[n])
  }

  /** And each of them lists its dependent, one entry for each mention. */
  ghost predicate Listed(nodes: Nodes, done: Nodes, children: map<int, seq<int>>) {
    && children.Keys == nodes.Keys == done.Keys
    && (forall n, d :: d in nodes && n in children[d] ==> n in nodes)
    && forall n, d :: n in nodes && d in nodes ==> multiset(children[d])[n] == multiset(done[n])[d]
  }

  lemma CountedMore(nodes: Nodes, done: Nodes, indegree: map<int, int>, node: int, dependency: int)
    requires Counted(nodes, done, indegree) && node in nodes
    ensures Counted(nodes, done[node := done[node] + [dependency]],
                    indegree[node := indegree[node] + if dependency in nodes then 1 else 0])
  {
    assert (done[node] + [dependency])[..|done[node]|] == done[node];
    assert dependency !in [];
  }

  lemma ListedMore(nodes: Nodes, done: Nodes, children: map<int, seq<int>>, node: int, dependency: int)
    requires Listed(nodes, done, children) && node in nodes && dependency in nodes
    ensures Listed(nodes, done[node := done[node] + [dependency]], children[dependency := children[dependency] + [node]])
  {
    var after, longer := done[node := done[node] + [dependency]], children[dependency := children[dependency] + [node]];
    forall n, d | n in nodes && d in nodes ensures multiset(longer[d])[n] == multiset(after[n])[d] {
      assert multiset(children[d])[n] == multiset(done[n])[d];
      assert multiset(longer[d]) == if d == dependency then multiset(children[d]) + multiset{node} else multiset(children[d]);
      assert multiset(after[n]) == if n == node then multiset(done[n]) + multiset{dependency} else multiset(done[n]);
    }
  }

  lemma UnlistedMore(nodes: Nodes, done: Nodes, children: map<int, seq<int>>, node: int, dependency: int)
    requires Listed(nodes, done, children) && node in nodes && dependency !in nodes
    ensures Listed(nodes, done[node := done[node] + [dependency]], children)
  {
    var after := done[node := done[node] + [dependency]];
    forall n, d | n in nodes && d in nodes ensures multiset(children[d])[n] == multiset(after[n])[d] {
      assert multiset(children[d])[n] == multiset(done[n])[d];
      assert multiset(after[n]) == if n == node then multiset(done[n]) + multiset{dependency} else multiset(done[n]);
    }
  }

  method Mention(nodes: Nodes, ghost done: Nodes, indegree: map<int, int>, children: map<int, seq<int>>, node: int, dependency: int)
    returns (more: map<int, int>, longer: map<int, seq<int>>)
    requires Counted(nodes, done, indegree) && Listed(nodes, done, children) && node in nodes
    requires node in indegree && (dependency in nodes ==> dependency in children)
    ensures node in done
    ensures Counted(nodes, done[node := done[node] + [dependency]], more)
    ensures Listed(nodes, done[node := done[node] + [dependency]], longer)
  {
    assert node in done;
    CountedMore(nodes, done, indegree, node, dependency);
    hide Counted, Listed;
    if dependency in nodes {
      ListedMore(nodes, done, children, node, dependency);
      more := indegree[node := indegree[node] + 1];
      longer := children[dependency := children[dependency] + [node]];
    } else {
      UnlistedMore(nodes, done, children, node, dependency);
      more, longer := indegree, children;
      assert indegree[node := indegree[node] + 0] == indegree;
    }
  }

  /** All dependencies of one node. */
  method MentionAll(nodes: Nodes, ghost done: Nodes, indegree: map<int, int>, children: map<int, seq<int>>, node: int)
    returns (more: map<int, int>, longer: map<int, seq<int>>)
    requires Counted(nodes, done, indegree) && Listed(nodes, done, children) && node in nodes && done[node] == []
    ensures Counted(nodes, done[node := nodes[node]], more) && Listed(nodes, done[node := nodes[node]], longer)
  {
    more, longer := indegree, children;
    assert done[node := []] == done;
    for j := 0 to |nodes[node]|
      invariant Counted(nodes, done[node := nodes[node][..j]], more) && Listed(nodes, done[node := nodes[node][..j]], longer)
    {
      ghost var before := done[node := nodes[node][..j]];
      assert nodes[node][..j + 1] == nodes[node][..j] + [nodes[node][j]];
      assert before[node := before[node] + [nodes[node][j]]] == done[node := nodes[node][..j + 1]];
      more, longer := Mention(nodes, before, more, longer, node, nodes[node][j]);
    }
    assert nodes[node][..|nodes[node]|] == nodes[node];
  }

  ghost predicate Lists(listing: seq<int>, nodes: Nodes) {
    && (forall n :: n in nodes <==> n in listing)
    && forall i, j :: 0 <= i < j < |listing| ==> listing[i] != listing[j]
  }

  ghost predicate DoneSoFar(nodes: Nodes, listing: seq<int>, i: nat, done: Nodes) {
    && done.Keys == nodes.Keys
    && forall k :: 0 <= k < |listing| && listing[k] in nodes ==> done[listing[k]] == if k < i then nodes[listing[k]] else []
  }

  lemma DoneMore(nodes: Nodes, listing: seq<int>, i: nat, done: Nodes)
    requires Lists(listing, nodes) && DoneSoFar(nodes, listing, i, done) && i < |listing|
    ensures listing[i] in nodes && listing[i] in done && done[listing[i]] == []
    ensures DoneSoFar(nodes, listing, i + 1, done[listing[i] := nodes[listing[i]]])
  {
    assert listing[i] in listing;
  }

  lemma DoneAll(nodes: Nodes, listing: seq<int>, done: Nodes)
    requires Lists(listing, nodes) && DoneSoFar(nodes, listing, |listing|, done)
    ensures done == nodes
  {
    forall n | n in nodes ensures done[n] == nodes[n] {
      var k :| 0 <= k < |listing| && listing[k] == n;
    }
  }

  method BuildTables(nodes: Nodes, listing: seq<int>) returns (indegree: map<int, int>, children: map<int, seq<int>>)
    requires Lists(listing, nodes)
    ensures Counted(nodes, nodes, indegree) && Listed(nodes, nodes, children)
  {
    indegree := map n | n in nodes :: 0;
    children := map n | n in nodes :: [];
    ghost var done: Nodes := map n | n in nodes :: [];
    assert Counted(nodes, done, indegree) && Listed(nodes, done, children) && DoneSoFar(nodes, listing, 0, done);
    hide Counted, Listed, DoneSoFar, Lists;
    for i := 0 to |listing|
      invariant Counted(nodes, done, indegree) && Listed(nodes, done, children) && DoneSoFar(nodes, listing, i, done)
    {
      DoneMore(nodes, listing, i, done);
      indegree, children := MentionAll(nodes, done, indegree, children, listing[i]);
      done := done[listing[i] := nodes[listing[i]]];
    }
    DoneAll(nodes, listing, done);
  }

  // ----- Kahn's loop -----

  predicate Increasing(s: seq<int>) { forall i, j :: 0 <= i < j < |s| ==> s[i] < s[j] }

  /** Between turns: the counts are right, and the ready list holds the free nodes in order. */
  ghost predicate AtTurn(nodes: Nodes, order: seq<int>, indegree: map<int, int>, ready: seq<int>) {
    && indegree.Keys == nodes.Keys
    && (forall n :: n in nodes ==> indegree[n] == Open(nodes, order, nodes[n]))
    && Increasing(ready) && forall n :: n in ready <==> Free(nodes, order, n)
  }

  /** Within the turn of `ordinal`, when the dependents in `seen` have been counted down. */
  ghost predicate InTurn(nodes: Nodes, order: seq<int>, ordinal: int, seen: seq<int>, indegree: map<int, int>, ready: seq<int>) {
    && indegree.Keys == nodes.Keys
    && (forall n :: n in nodes ==> indegree[n] == Open(nodes, order, nodes[n]) - multiset(seen)[n])
    && Increasing(ready)
    && forall n :: n in ready <==> n in nodes && n !in order && n != ordinal && indegree[n] == 0
  }

  lemma TurnBegins(nodes: Nodes, order: seq<int>, indegree: map<int, int>, ready: seq<int>)
    requires AtTurn(nodes, order, indegree, ready) && ready != []
    ensures LeastFree(nodes, order, ready[0]) && InTurn(nodes, order, ready[0], [], indegree, ready[1..])
  {
    assert ready[0] in ready;
    forall m | Free(nodes, order, m) ensures ready[0] <= m { assert m in ready; }
    forall n | n in nodes ensures n in ready[1..] <==> n !in order && n != ready[0] && indegree[n] == 0 {
      OpenIsZero(nodes, order, nodes[n]);
      if n in ready[1..] {
        var k :| 0 <= k < |ready[1..]| && ready[1..][k] == n;
        assert ready[k + 1] == n && ready[0] < ready[k + 1];
      }
      if n != ready[0] && n in ready {
        var k :| 0 <= k < |ready| && ready[k] == n;
        assert ready[1..][k - 1] == n;
      }
    }
    assert forall n :: n in ready[1..] ==> n in ready;
  }

  lemma InsertIncreasing(ready: seq<int>, n: int)
    requires Increasing(ready) && n !in ready
    ensures Increasing(Insert(ready, n, Leq())) && forall m :: m in Insert(ready, n, Leq()) <==> m in ready || m == n
  {
    InsertSorts(ready, n, Leq());
    InsertHolds(ready, n, Leq());
    var s := Insert(ready, n, Leq());
    assert forall m :: m in s <==> m in multiset(s);
    forall m ensures multiset(s)[m] <= 1 { OnceIn(ready, m); }
    hide Insert;
    OnceEach(s);
  }

  /** A sorted list without repetition increases. */
  lemma OnceEach(s: seq<int>)
    requires Sorted(s, Leq()) && forall n :: multiset(s)[n] <= 1
    ensures Increasing(s)
  {
    forall i, j | 0 <= i < j < |s| ensures s[i] < s[j] {
      assert Leq()(s[i], s[j]);
      if s[i] == s[j] { TwiceIn(s, i, j); }
    }
  }

  lemma TwiceIn(s: seq<int>, i: nat, j: nat)
    requires i < j < |s| && s[i] == s[j]
    ensures multiset(s)[s[i]] >= 2
  {
    assert s == s[..i] + [s[i]] + s[i + 1..j] + [s[j]] + s[j + 1..];
  }

  lemma {:induction false} OnceIn(s: seq<int>, n: int)
    requires Increasing(s)
    ensures multiset(s)[n] == if n in s then 1 else 0
  {
    if s != [] {
      OnceIn(s[..|s| - 1], n);
      assert s == s[..|s| - 1] + [s[|s| - 1]];
    }
  }

  /** One dependent counted down, and made ready when it waits for nothing more. */
  method CountDown(nodes: Nodes, ghost order: seq<int>, ghost ordinal: int, ghost seen: seq<int>,
                   indegree: map<int, int>, ready: seq<int>, child: int) returns (less: map<int, int>, more: seq<int>)
    requires InTurn(nodes, order, ordinal, seen, indegree, ready) && Free(nodes, order, ordinal) && child in nodes
    requires Emitted(nodes, order)
    requires multiset(seen)[child] < multiset(nodes[child])[ordinal]
    ensures InTurn(nodes, order, ordinal, seen + [child], less, more)
  {
    OpenFalls(nodes, order, nodes[child], ordinal);
    OpenIsZero(nodes, order, nodes[ordinal]);
    less := indegree[child := indegree[child] - 1];
    more := ready;
    assert child !in order && child != ordinal && child !in ready;
    if less[child] == 0 {
      InsertIncreasing(ready, child);
      more := Insert(ready, child, Leq());
    }
  }

  /** The counts before a turn, with the emitted nodes' own counts at zero. */
  ghost predicate Emitted(nodes: Nodes, order: seq<int>) {
    forall n :: n in order ==> n in nodes && Open(nodes, order, nodes[n]) == 0
  }

  lemma EmittedMore(nodes: Nodes, order: seq<int>, ordinal: int)
    requires Emitted(nodes, order) && Free(nodes, order, ordinal)
    ensures Emitted(nodes, order + [ordinal])
  {
    forall n | n in order + [ordinal] ensures n in nodes && Open(nodes, order + [ordinal], nodes[n]) == 0 {
      OpenIsZero(nodes, order, nodes[n]);
      OpenIsZero(nodes, order + [ordinal], nodes[n]);
    }
  }

  lemma TurnEnds(nodes: Nodes, order: seq<int>, ordinal: int, seen: seq<int>, indegree: map<int, int>, ready: seq<int>)
    requires InTurn(nodes, order, ordinal, seen, indegree, ready) && Free(nodes, order, ordinal)
    requires forall n :: n in nodes ==> multiset(seen)[n] == multiset(nodes[n])[ordinal]
    ensures AtTurn(nodes, order + [ordinal], indegree, ready)
  {
    forall n | n in nodes
      ensures indegree[n] == Open(nodes, order + [ordinal], nodes[n])
      ensures n in ready <==> Free(nodes, order + [ordinal], n)
    {
      OpenFalls(nodes, order, nodes[n], ordinal);
      OpenIsZero(nodes, order + [ordinal], nodes[n]);
    }
  }

  /** The turn of one node: its dependents are counted down in order. */
  method Turn(nodes: Nodes, ghost order: seq<int>, ordinal: int, indegree: map<int, int>, ready: seq<int>, dependents: seq<int>)
    returns (less: map<int, int>, more: seq<int>)
    requires InTurn(nodes, order, ordinal, [], indegree, ready) && Free(nodes, order, ordinal) && Emitted(nodes, order)
    requires forall n :: n in nodes ==> multiset(dependents)[n] == multiset(nodes[n])[ordinal]
    requires forall n :: n in dependents ==> n in nodes
    ensures AtTurn(nodes, order + [ordinal], less, more)
  {
    hide *;
    less, more := indegree, ready;
    var sorted := Sort(dependents, Leq());
    SortedDependents(nodes, ordinal, dependents, sorted);
    for k := 0 to |sorted|
      invariant InTurn(nodes, order, ordinal, sorted[..k], less, more)
    {
      assert sorted[..k + 1] == sorted[..k] + [sorted[k]];
      PartCounts(sorted, k);
      less, more := CountDown(nodes, order, ordinal, sorted[..k], less, more, sorted[k]);
    }
    assert sorted[..|sorted|] == sorted;
    TurnEnds(nodes, order, ordinal, sorted, less, more);
  }

  lemma SortedDependents(nodes: Nodes, ordinal: int, dependents: seq<int>, sorted: seq<int>)
    requires forall n :: n in nodes ==> multiset(dependents)[n] == multiset(nodes[n])[ordinal]
    requires (forall n :: n in dependents ==> n in nodes) && sorted == Sort(dependents, Leq())
    ensures forall n :: n in nodes ==> multiset(sorted)[n] == multiset(nodes[n])[ordinal]
    ensures forall k :: 0 <= k < |sorted| ==> sorted[k] in nodes
  {
    SortHolds(dependents, Leq());
    forall k | 0 <= k < |sorted| ensures sorted[k] in nodes {
      var n := sorted[k];
      assert n in multiset(sorted) && n in multiset(dependents);
      assert n in dependents;
      assert n in nodes;
    }
  }

  lemma PartCounts(s: seq<int>, k: nat)
    requires k < |s|
    ensures multiset(s[..k])[s[k]] < multiset(s)[s[k]]
  {
    assert s == s[..k] + [s[k]] + s[k + 1..];
  }

  lemma LeveledMore(nodes: Nodes, order: seq<int>, ranks: map<int, nat>, n: int)
    requires Leveled(nodes, ranks) && (forall m :: m in order <==> m in ranks) && Free(nodes, order, n)
    ensures Leveled(nodes, ranks[n := Level(ranks, nodes[n])])
  {
    var rank := Level(ranks, nodes[n]);
    LevelStays(ranks, nodes[n], n, rank);
    forall m | m in ranks ensures Level(ranks[n := rank], nodes[m]) == ranks[m] { LevelStays(ranks, nodes[m], n, rank); }
  }

  lemma GreedyMore(nodes: Nodes, order: seq<int>, n: int)
    requires Greedy(nodes, order) && LeastFree(nodes, order, n)
    ensures Greedy(nodes, order + [n])
  {
    var more := order + [n];
    forall i | 0 <= i < |more| ensures LeastFree(nodes, more[..i], more[i]) {
      assert more[..i] == order[..i];
      assert order[..|order|] == order;
    }
  }

  lemma DependentsOf(nodes: Nodes, children: map<int, seq<int>>, ordinal: int)
    requires Listed(nodes, nodes, children) && ordinal in nodes
    ensures ordinal in children
    ensures forall n :: n in nodes ==> multiset(children[ordinal])[n] == multiset(nodes[n])[ordinal]
    ensures forall n :: n in children[ordinal] ==> n in nodes
  {
  }

  /** The nodes that wait for nothing, in order. */
  method FirstReady(nodes: Nodes, listing: seq<int>, indegree: map<int, int>) returns (ready: seq<int>)
    requires Lists(listing, nodes) && Counted(nodes, nodes, indegree)
    ensures AtTurn(nodes, [], indegree, ready)
  {
    var zero: seq<int> := [];
    for i := 0 to |listing|
      invariant forall n :: n in zero <==> n in listing[..i] && indegree[n] == 0
      invariant forall a, b :: 0 <= a < b < |zero| ==> zero[a] != zero[b]
    {
      assert listing[i] in listing && listing[i] in nodes && listing[i] !in listing[..i];
      if indegree[listing[i]] == 0 { zero := zero + [listing[i]]; }
    }
    assert listing[..|listing|] == listing;
    ready := Sort(zero, Leq());
    SortIncreasing(zero);
    forall n | n in nodes ensures n in ready <==> Free(nodes, [], n) { OpenIsZero(nodes, [], nodes[n]); }
  }

  lemma SortIncreasing(s: seq<int>)
    requires forall i, j :: 0 <= i < j < |s| ==> s[i] != s[j]
    ensures Increasing(Sort(s, Leq())) && forall n :: n in Sort(s, Leq()) <==> n in s
  {
    SortSorts(s, Leq());
    SortHolds(s, Leq());
    hide Sort, Increasing;
    var t := Sort(s, Leq());
    forall n ensures n in t <==> n in s { assert n in t <==> n in multiset(t); }
    forall n ensures multiset(t)[n] <= 1 { DistinctOnce(s, n); }
    OnceEach(t);
  }

  lemma {:induction false} DistinctOnce(s: seq<int>, n: int)
    requires forall i, j :: 0 <= i < j < |s| ==> s[i] != s[j]
    ensures multiset(s)[n] <= 1
  {
    if s != [] {
      DistinctOnce(s[..|s| - 1], n);
      assert s == s[..|s| - 1] + [s[|s| - 1]];
      if s[|s| - 1] == n { assert n !in s[..|s| - 1] && n !in multiset(s[..|s| - 1]); }
    }
  }

  /** One turn, as the loop takes it. */
  method TakeTurn(nodes: Nodes, order: seq<int>, ranks: map<int, nat>, indegree: map<int, int>, children: map<int, seq<int>>, ready: seq<int>)
    returns (less: map<int, int>, more: seq<int>, level: nat)
    requires AtTurn(nodes, order, indegree, ready) && ready != [] && Listed(nodes, nodes, children)
    requires Greedy(nodes, order) && Emitted(nodes, order) && Leveled(nodes, ranks) && forall n :: n in order <==> n in ranks
    ensures AtTurn(nodes, order + [ready[0]], less, more)
    ensures Greedy(nodes, order + [ready[0]]) && Emitted(nodes, order + [ready[0]]) && Leveled(nodes, ranks[ready[0] := level])
  {
    var ordinal := ready[0];
    TurnBegins(nodes, order, indegree, ready);
    hide AtTurn, InTurn, Listed, Greedy, Emitted, Leveled, Level, Open;
    GreedyMore(nodes, order, ordinal);
    EmittedMore(nodes, order, ordinal);
    LeveledMore(nodes, order, ranks, ordinal);
    DependentsOf(nodes, children, ordinal);
    level := Level(ranks, nodes[ordinal]);
    less, more := Turn(nodes, order, ordinal, indegree, ready[1..], children[ordinal]);
  }

  lemma NoMoreTurns(nodes: Nodes, order: seq<int>, indegree: map<int, int>)
    requires AtTurn(nodes, order, indegree, [])
    ensures NoneFree(nodes, order)
  {
    forall n ensures !Free(nodes, order, n) { assert n !in []; }
  }

  /** The loop that both layouts share. */
  method Kahn(nodes: Nodes, listing: seq<int>) returns (order: seq<int>, ranks: map<int, nat>)
    requires Lists(listing, nodes)
    ensures Greedy(nodes, order) && NoneFree(nodes, order)
    ensures Leveled(nodes, ranks) && forall n :: n in order <==> n in ranks
  {
    var indegree, children := BuildTables(nodes, listing);
    var ready := FirstReady(nodes, listing, indegree);
    order, ranks := [], map[];
    assert Emitted(nodes, order);
    hide AtTurn, Listed, Emitted, Leveled, NoneFree;
    while ready != []
      invariant AtTurn(nodes, order, indegree, ready) && Greedy(nodes, order) && Emitted(nodes, order)
      invariant Leveled(nodes, ranks) && forall n :: n in order <==> n in ranks
      decreases |nodes| - |order|
    {
      var ordinal := ready[0];
      var level;
      indegree, ready, level := TakeTurn(nodes, order, ranks, indegree, children, ready);
      order, ranks := order + [ordinal], ranks[ordinal := level];
      GreedyOnce(nodes, order);
    }
    NoMoreTurns(nodes, order, indegree);
  }

  /** `_topological_nodes`: Kahn's order, or plain ordinal order when there is a cycle. */
  method TopologicalNodes(nodes: Nodes, listing: seq<int>) returns (result: seq<int>)
    requires Lists(listing, nodes)
    ensures Acyclic(nodes) ==> Greedy(nodes, result)
    ensures !Acyclic(nodes) ==> Increasing(result)
    ensures Lists(result, nodes)
  {
    var order, ranks := Kahn(nodes, listing);
    AllEmitted(nodes, order);
    GreedyOnce(nodes, order);
    if |order| != |nodes| {
      SortIncreasing(listing);
      return Sort(listing, Leq());
    }
    result := order;
  }
}
