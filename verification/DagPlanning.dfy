/**
 Depth-first planning of Code Mode graphs: the parent's topological order of a request, the
 worker's closure of what is still to be submitted, and the parent's closure of the targets.
 */
module DagPlanning {
  import opened Domain
  import opened CodeDag
  import opened DagScheduler

  datatype PlanError = Cyclic | UnknownReference

  /** Dependencies were submitted before, or rank lower in the same batch. */
  ghost predicate RankedAbove(batch: Graph, known: set<Id>, rank: map<Id, nat>) {
    && batch.Keys <= rank.Keys
    && forall n, d :: n in batch && d in batch[n].deps ==> d in known || (d in batch && rank[d] < rank[n])
  }

  ghost predicate HasCycle(batch: Graph) {
    exists n :: Ancestor(batch, n, n)
  }

  ghost predicate HasUnknown(batch: Graph, known: set<Id>) {
    exists n, d :: n in batch && d in batch[n].deps && d !in batch && d !in known
  }

  /** Each node comes once and after its dependencies, unless those were submitted before. */
  ghost predicate DepsFirst(batch: Graph, known: set<Id>, ordered: seq<Id>) {
    && Distinct(ordered) && (forall n :: n in ordered ==> n in batch)
    && forall i, d :: 0 <= i < |ordered| && d in batch[ordered[i]].deps ==> d in known || d in ordered[..i]
  }

  lemma {:induction false} RankedPathsDescend(batch: Graph, known: set<Id>, rank: map<Id, nat>, path: seq<Id>)
    requires RankedAbove(batch, known, rank) && known !! batch.Keys && Leads(batch, path)
    ensures rank[path[|path| - 1]] <= rank[path[0]] - (|path| - 1)
  {
    if |path| > 1 {
      assert Leads(batch, path[1..]) by {
        assert forall i :: 0 <= i < |path| - 1 ==> path[1..][i] == path[i + 1];
      }
      RankedPathsDescend(batch, known, rank, path[1..]);
      assert path[1] in batch[path[0]].deps;
    }
  }

  /** A ranked batch has neither a cycle nor an unknown reference. */
  lemma RankedIsSound(batch: Graph, known: set<Id>, rank: map<Id, nat>)
    requires RankedAbove(batch, known, rank) && known !! batch.Keys
    ensures !HasCycle(batch) && !HasUnknown(batch, known)
  {
    if HasCycle(batch) {
      var n :| Ancestor(batch, n, n);
      var path :| Leads(batch, path) && |path| > 1 && path[0] == n && path[|path| - 1] == n;
      RankedPathsDescend(batch, known, rank, path);
      assert false;
    }
  }

  lemma NeverRanked(batch: Graph, known: set<Id>)
    requires known !! batch.Keys
    ensures HasCycle(batch) || HasUnknown(batch, known) ==> !exists rank :: RankedAbove(batch, known, rank)
  {
    forall rank | RankedAbove(batch, known, rank) ensures !HasCycle(batch) && !HasUnknown(batch, known) {
      RankedIsSound(batch, known, rank);
    }
  }

  function IndexOf(ids: seq<Id>, n: Id): (i: nat)
    requires n in ids
    ensures i < |ids| && ids[i] == n
  {
    if ids[0] == n then 0 else 1 + IndexOf(ids[1..], n)
  }

  /** An order with dependencies first ranks the batch by position. */
  lemma OrderRanks(batch: Graph, known: set<Id>, ordered: seq<Id>)
    requires DepsFirst(batch, known, ordered) && forall n :: n in batch ==> n in ordered
    ensures exists rank :: RankedAbove(batch, known, rank)
  {
    var rank := map n | n in batch :: IndexOf(ordered, n);
    forall n, d | n in batch && d in batch[n].deps ensures d in known || (d in batch && rank[d] < rank[n]) {
      var i := IndexOf(ordered, n);
      if d !in known {
        var j :| 0 <= j < |ordered[..i]| && ordered[..i][j] == d;
        assert ordered[j] == d;
        assert IndexOf(ordered, d) == j;
      }
    }
    assert RankedAbove(batch, known, rank);
  }

  lemma CycleFound(batch: Graph, stack: seq<Id>, n: Id)
    requires Leads(batch, stack) && n in stack && n in batch[stack[|stack| - 1]].deps
    ensures HasCycle(batch)
  {
    var k :| 0 <= k < |stack| && stack[k] == n;
    var path := stack[k..] + [n];
    assert forall i :: 0 <= i < |path| - 1 ==> path[i] == stack[k + i];
    assert Leads(batch, path) && path[0] == n && path[|path| - 1] == n;
    assert Ancestor(batch, n, n);
  }

  /** What a visit may add: the node itself and what it depends on, directly or not. */
  ghost predicate Reached(batch: Graph, n: Id, before: set<Id>, after: set<Id>) {
    before <= after && forall m :: m in after && m !in before ==> m == n || Ancestor(batch, n, m)
  }

  lemma ReachedThrough(batch: Graph, n: Id, d: Id, before: set<Id>, middle: set<Id>, after: set<Id>)
    requires n in batch && d in batch[n].deps && after <= batch.Keys
    requires Reached(batch, n, before, middle) && Reached(batch, d, middle, after)
    ensures Reached(batch, n, before, after) && middle <= after
  {
    forall m | m in after && m !in before ensures m == n || Ancestor(batch, n, m) {
      if m !in middle {
        if m == d { DirectAncestor(batch, n, d); } else { AncestorThrough(batch, n, d, m); }
      }
    }
  }

  lemma ReachedMore(batch: Graph, n: Id, before: set<Id>, after: set<Id>)
    requires Reached(batch, n, before, after)
    ensures before <= after
  {
  }

  lemma ReachedSelf(batch: Graph, n: Id, before: set<Id>, after: set<Id>)
    requires Reached(batch, n, before, after)
    ensures Reached(batch, n, before, after + {n})
  {
  }

  lemma OrderedInside(batch: Graph, known: set<Id>, ordered: seq<Id>, permanent: set<Id>)
    requires DepsFirst(batch, known, ordered) && forall n :: n in ordered <==> n in permanent
    ensures permanent <= batch.Keys && forall n :: n in ordered ==> n in batch
  {
  }

  lemma OrderExtends(batch: Graph, known: set<Id>, ordered: seq<Id>, n: Id)
    requires DepsFirst(batch, known, ordered) && n in batch && n !in ordered
    requires forall d :: d in batch[n].deps ==> d in known || d in ordered
    ensures DepsFirst(batch, known, ordered + [n])
  {
    var more := ordered + [n];
    forall i, d | 0 <= i < |more| && d in batch[more[i]].deps ensures d in known || d in more[..i] {
      assert more[..i] == ordered[..i];
      assert i == |ordered| ==> ordered[..i] == ordered;
    }
  }

  class DepthFirst {
    const batch: Graph
    const known: set<Id>
    var temporary: set<Id>
    var permanent: set<Id>
    var ordered: seq<Id>

    ghost predicate Valid()
      reads this
    {
      && known !! batch.Keys && temporary <= batch.Keys && temporary !! permanent
      && DepsFirst(batch, known, ordered) && forall n :: n in ordered <==> n in permanent
    }

    constructor (batch: Graph, known: set<Id>)
      requires known !! batch.Keys
      ensures Valid() && this.batch == batch && this.known == known && permanent == {} && temporary == {} && ordered == []
    {
      this.batch, this.known := batch, known;
      temporary, permanent, ordered := {}, {}, [];
    }

    /** Visit one node and, before it, everything it depends on. */
    method Visit(n: Id, ghost stack: seq<Id>) returns (error: Option<PlanError>)
      requires Valid() && (forall t :: t in temporary <==> t in stack)
      requires if stack == [] then n in batch || n in known else Leads(batch, stack) && n in batch[stack[|stack| - 1]].deps
      modifies `temporary, `permanent, `ordered
      ensures Valid() && (error == Some(Cyclic) ==> HasCycle(batch)) && (error == Some(UnknownReference) ==> HasUnknown(batch, known))
      ensures error.None? ==> temporary == old(temporary) && Reached(batch, n, old(permanent), permanent)
      ensures error.None? ==> n in permanent || n in known
      decreases batch.Keys - temporary
    {
      if n in permanent || n in known { return None; }
      if n in temporary {
        CycleFound(batch, stack, n);
        return Some(Cyclic);
      }
      if n !in batch { return Some(UnknownReference); }
      temporary := temporary + {n};
      var deps := batch[n].deps;
      assert Leads(batch, stack + [n]);
      ghost var before := permanent;
      assert Reached(batch, n, before, permanent);
      hide Leads, HasCycle, HasUnknown, Reached, DepsFirst;
      for i := 0 to |deps|
        invariant Valid() && temporary == old(temporary) + {n} && Reached(batch, n, before, permanent)
        invariant forall j :: 0 <= j < i ==> deps[j] in permanent || deps[j] in known
      {
        ghost var middle := permanent;
        error := Visit(deps[i], stack + [n]);
        if error.Some? { return; }
        OrderedInside(batch, known, ordered, permanent);
        ReachedThrough(batch, n, deps[i], before, middle, permanent);
      }
      OrderExtends(batch, known, ordered, n);
      ReachedSelf(batch, n, before, permanent);
      temporary, permanent, ordered := temporary - {n}, permanent + {n}, ordered + [n];
      return None;
    }
  }

  /** The parent's order of a request: it exists exactly when the request is closed and acyclic. */
  method Topological(batch: Graph, known: set<Id>) returns (r: Result<seq<Id>, PlanError>)
    requires known !! batch.Keys
    ensures r.Ok? ==> DepsFirst(batch, known, r.value) && forall n :: n in r.value <==> n in batch
    ensures r == Err(Cyclic) ==> HasCycle(batch)
    ensures r == Err(UnknownReference) ==> HasUnknown(batch, known)
    ensures r.Ok? <==> exists rank :: RankedAbove(batch, known, rank)
  {
    var search := new DepthFirst(batch, known);
    var sorted := SortedByOrdinal(batch, batch.Keys);
    hide HasCycle, HasUnknown, DepsFirst, RankedAbove, Reached;
    for i := 0 to |sorted|
      invariant search.Valid() && search.temporary == {} && fresh(search) && search.batch == batch && search.known == known
      invariant forall j :: 0 <= j < i ==> sorted[j] in search.permanent
    {
      ghost var before := search.permanent;
      var error := search.Visit(sorted[i], []);
      if error.Some? {
        assert error.value.Cyclic? || error.value.UnknownReference?;
        assert HasCycle(batch) || HasUnknown(batch, known);
        NeverRanked(batch, known);
        return Err(error.value);
      }
      ReachedMore(batch, sorted[i], before, search.permanent);
    }
    r := Ok(search.ordered);
    OrderedInside(batch, known, search.ordered, search.permanent);
    OrderRanks(batch, known, search.ordered);
  }

  /** The nodes that the worker sends: what the targets need and has not been submitted, by ordinal. */
  method WorkerClosure(nodes: Graph, submitted: set<Id>, targets: seq<Id>) returns (r: Result<seq<Id>, PlanError>)
    requires forall t :: t in targets ==> t in nodes
    requires submitted <= nodes.Keys
    ensures r.Ok? ==> Distinct(r.value) && InOrder(nodes, r.value)
    ensures r.Ok? ==> forall m :: m in r.value <==> m !in submitted && NeededBy(Rest(nodes, submitted), targets, m)
    ensures r.Ok? ==> forall m, d :: m in r.value && d in nodes[m].deps ==> d in submitted || d in r.value
    ensures r == Err(Cyclic) ==> HasCycle(Rest(nodes, submitted))
    ensures r == Err(UnknownReference) ==> HasUnknown(Rest(nodes, submitted), submitted)
  {
    var batch := Rest(nodes, submitted);
    var search := new DepthFirst(batch, submitted);
    hide HasCycle, HasUnknown;
    for i := 0 to |targets|
      invariant search.Valid() && search.temporary == {} && fresh(search) && search.batch == batch && search.known == submitted
      invariant forall j :: 0 <= j < i ==> targets[j] in search.permanent || targets[j] in submitted
      invariant forall m :: m in search.permanent ==> NeededBy(batch, targets, m)
    {
      var error := search.Visit(targets[i], []);
      if error.Some? { return Err(error.value); }
    }
    var sorted := SortedByOrdinal(nodes, search.permanent);
    ClosedHasNeeded(batch, submitted, targets, search.permanent);
    return Ok(sorted);
  }

  /** The nodes that are still to be submitted. */
  function Rest(nodes: Graph, submitted: set<Id>): Graph {
    map n | n in nodes && n !in submitted :: nodes[n]
  }

  /** A target, or something that a target depends on, directly or not. */
  ghost predicate NeededBy(g: Graph, targets: seq<Id>, m: Id) {
    m in g && exists t :: t in targets && t in g && (t == m || Ancestor(g, t, m))
  }

  lemma {:induction false} PathStays(g: Graph, known: set<Id>, included: set<Id>, path: seq<Id>)
    requires known !! g.Keys && Leads(g, path) && path[0] in included
    requires forall n, d :: n in included && n in g && d in g[n].deps ==> d in included || d in known
    ensures path[|path| - 1] in included
  {
    if |path| > 1 {
      assert path[1] in g[path[0]].deps && path[1] in g;
      assert Leads(g, path[1..]) by {
        assert forall i :: 0 <= i < |path| - 1 ==> path[1..][i] == path[i + 1];
      }
      PathStays(g, known, included, path[1..]);
    }
  }

  /** A closed set with the targets has everything that the targets need. */
  lemma ClosedHasNeeded(g: Graph, known: set<Id>, targets: seq<Id>, included: set<Id>)
    requires known !! g.Keys && forall t :: t in targets ==> t in included || t in known
    requires forall n, d :: n in included && n in g && d in g[n].deps ==> d in included || d in known
    ensures forall m :: NeededBy(g, targets, m) ==> m in included
  {
    forall m | NeededBy(g, targets, m) ensures m in included {
      var t :| t in targets && t in g && (t == m || Ancestor(g, t, m));
      if t != m {
        var path :| Leads(g, path) && |path| > 1 && path[0] == t && path[|path| - 1] == m;
        PathStays(g, known, included, path);
      }
    }
  }

  /** What a visit has added so far, and that all of it but the visited node has its dependencies in. */
  ghost predicate Gathering(g: Graph, n: Id, before: set<Id>, now: set<Id>) {
    && Reached(g, n, before, now) && n in now && now <= g.Keys
    && forall m, d :: m in now && m !in before && m != n && d in g[m].deps ==> d in now
  }

  /** Add a node and everything that it depends on. */
  method Gather(g: Graph, n: Id, included: set<Id>) returns (more: set<Id>)
    requires n in g && included <= g.Keys && forall m, d :: m in g && d in g[m].deps ==> d in g
    ensures Gathering(g, n, included, more) && forall m, d :: m in more && m !in included && d in g[m].deps ==> d in more
    decreases g.Keys - included
  {
    more := included;
    if n in more { return; }
    more := more + {n};
    var deps := g[n].deps;
    for i := 0 to |deps|
      invariant Gathering(g, n, included, more) && included + {n} <= more
      invariant forall j :: 0 <= j < i ==> deps[j] in more
    {
      assert more <= g.Keys && deps[i] in g;
      hide Gathering;
      ghost var before := more;
      more := Gather(g, deps[i], more);
      GatheringGoesOn(g, n, deps[i], included, before, more);
    }
  }

  lemma GatheringGoesOn(g: Graph, n: Id, d: Id, included: set<Id>, before: set<Id>, now: set<Id>)
    requires n in g && d in g[n].deps && Gathering(g, n, included, before) && Gathering(g, d, before, now)
    requires forall m, k :: m in now && m !in before && k in g[m].deps ==> k in now
    ensures Gathering(g, n, included, now) && before <= now && d in now
  {
    ReachedThrough(g, n, d, included, before, now);
  }

  /** The parent's closure: exactly what the targets need. */
  method Closure(g: Graph, targets: seq<Id>) returns (included: set<Id>)
    requires (forall m, d :: m in g && d in g[m].deps ==> d in g) && forall t :: t in targets ==> t in g
    ensures ClosedUnder(g, included) && forall m :: m in included <==> NeededBy(g, targets, m)
  {
    included := {};
    for i := 0 to |targets|
      invariant included <= g.Keys && (forall m, d :: m in included && d in g[m].deps ==> d in included)
      invariant forall j :: 0 <= j < i ==> targets[j] in included
      invariant forall m :: m in included ==> NeededBy(g, targets, m)
    {
      ghost var before := included;
      included := Gather(g, targets[i], included);
      forall m | m in included ensures NeededBy(g, targets, m) {
        assert m in before || m == targets[i] || Ancestor(g, targets[i], m);
      }
    }
    ClosedHasNeeded(g, {}, targets, included);
  }

  lemma AncestorInMore(g: Graph, more: Graph, n: Id, m: Id)
    requires Ancestor(g, n, m) && forall k :: k in g ==> k in more && more[k].deps == g[k].deps
    ensures Ancestor(more, n, m)
  {
    var path :| Leads(g, path) && |path| > 1 && path[0] == n && path[|path| - 1] == m;
    assert Leads(more, path);
  }
}
