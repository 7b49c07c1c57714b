/**
 The worker's side of a run: nodes are created and ordered, and what its targets need is sent to the parent when it is
 awaited, each node once. With the parent of `CodeExchange` this is the whole exchange.
 */
module CodeWorker {
  import opened Domain
  import opened CodeDag
  import opened DagScheduler
  import opened DagPlanning
  import E = CodeExchange
  import X = GraphExchange
  import R = Reducer
  import Recovery

  function NodeId(ordinal: nat): Id { "node-" + Decimal(ordinal) }

  lemma NodeIdInjective(a: nat, b: nat)
    requires NodeId(a) == NodeId(b)
    ensures a == b
  {
    assert Decimal(a) == NodeId(a)[5..] && Decimal(b) == NodeId(b)[5..];
    DecimalInjective(a, b);
  }

  /** The nodes to be sent, as the parent reads them. */
  function Request(nodes: Graph, names: map<Id, string>, pending: seq<Id>): seq<X.RawNode>
    requires forall n :: n in pending ==> n in nodes && n in names
  {
    seq(|pending|, i requires 0 <= i < |pending| => X.RawNode(pending[i], nodes[pending[i]].ordinal, names[pending[i]], nodes[pending[i]].deps))
  }

  function Part(nodes: Graph, ids: seq<Id>): Graph { map n | n in ids && n in nodes :: nodes[n] }

  lemma PartMore(nodes: Graph, ids: seq<Id>, last: Id)
    requires last in nodes
    ensures Part(nodes, ids + [last]) == Part(nodes, ids)[last := nodes[last]]
  {
  }

  lemma BatchMore(request: seq<X.RawNode>, node: X.RawNode)
    requires node.ordinal >= 1
    ensures X.BatchOf(request + [node]) == X.BatchOf(request)[node.local := Spec(node.ordinal, node.deps)]
  {
    assert (request + [node])[..|request|] == request;
  }

  lemma {:induction false} RequestGraph(nodes: Graph, names: map<Id, string>, pending: seq<Id>)
    requires forall n :: n in pending ==> n in nodes && n in names && nodes[n].ordinal >= 1
    ensures X.BatchOf(Request(nodes, names, pending)) == Part(nodes, pending)
  {
    if pending == [] {
      assert Part(nodes, []) == map[];
    } else {
      var front, last := pending[..|pending| - 1], pending[|pending| - 1];
      assert pending == front + [last] && last in pending;
      RequestGraph(nodes, names, front);
      hide X.BatchOf, Part;
      var node := X.RawNode(last, nodes[last].ordinal, names[last], nodes[last].deps);
      assert Request(nodes, names, pending) == Request(nodes, names, front) + [node];
      BatchMore(Request(nodes, names, front), node);
      PartMore(nodes, front, last);
    }
  }

  /** Whatever lies on the way from a target to a needed node is needed too. */
  lemma NeededOnTheWay(g: Graph, targets: seq<Id>, path: seq<Id>, i: nat)
    requires Leads(g, path) && path[0] in targets && i < |path|
    ensures NeededBy(g, targets, path[i])
  {
    if i > 0 {
      var part := path[..i + 1];
      assert Leads(g, part);
      assert Ancestor(g, path[0], path[i]);
    }
  }

  /** What is needed among the nodes still to be sent is needed within what is sent. */
  lemma SentIsNeeded(nodes: Graph, submitted: set<Id>, targets: seq<Id>, pending: seq<Id>, m: Id)
    requires forall n :: n in pending <==> n !in submitted && NeededBy(Rest(nodes, submitted), targets, n)
    requires m in pending
    ensures NeededBy(Part(nodes, pending), targets, m)
  {
    var rest := Rest(nodes, submitted);
    var batch := Part(nodes, pending);
    var t :| t in targets && t in rest && (t == m || Ancestor(rest, t, m));
    if t == m {
      assert m in batch;
    } else {
      var path :| Leads(rest, path) && |path| > 1 && path[0] == t && path[|path| - 1] == m;
      hide NeededBy;
      forall i | 0 <= i < |path| ensures path[i] in batch && batch[path[i]] == rest[path[i]] {
        NeededOnTheWay(rest, targets, path, i);
        assert path[i] in rest;
      }
      NeededThrough(batch, rest, targets, path);
    }
  }

  lemma NeededThrough(batch: Graph, rest: Graph, targets: seq<Id>, path: seq<Id>)
    requires Leads(rest, path) && |path| > 1 && path[0] in targets
    requires forall i :: 0 <= i < |path| ==> path[i] in batch && batch[path[i]] == rest[path[i]]
    ensures NeededBy(batch, targets, path[|path| - 1])
  {
    assert Leads(batch, path);
    assert Ancestor(batch, path[0], path[|path| - 1]);
  }

  datatype Executed =
    | Raised(error: PlanError)
    | RejectedBy(why: X.Rejection)
    | Stopped
    | Answered(results: map<Id, ToolStatus>)

  /** Nodes are numbered as they were created and name each dependency once; what was sent was answered. */
  ghost predicate Numbered(nodes: Graph, names: map<Id, string>, next: nat, submitted: set<Id>, outcomes: map<Id, ToolStatus>) {
    && next >= 1 && names.Keys == nodes.Keys && submitted <= nodes.Keys && outcomes.Keys == submitted
    && forall n :: n in nodes ==> 1 <= nodes[n].ordinal < next && n == NodeId(nodes[n].ordinal) && Distinct(nodes[n].deps)
  }

  /** What is sent is there to be sent, and with what was sent before it covers the targets. */
  lemma NeededNodes(nodes: Graph, names: map<Id, string>, next: nat, submitted: set<Id>, outcomes: map<Id, ToolStatus>,
                    targets: seq<Id>, sent: seq<Id>)
    requires Numbered(nodes, names, next, submitted, outcomes) && forall t :: t in targets ==> t in nodes
    requires forall n :: n in sent <==> n !in submitted && NeededBy(Rest(nodes, submitted), targets, n)
    ensures forall n :: n in sent ==> n in nodes && n in names && nodes[n].ordinal >= 1 && Distinct(nodes[n].deps)
    ensures forall t :: t in targets ==> t in outcomes || t in sent
  {
    hide Ancestor, Distinct, NodeId;
    forall t | t in targets && t !in submitted ensures t in sent {
      assert t in Rest(nodes, submitted);
      assert NeededBy(Rest(nodes, submitted), targets, t);
    }
  }

  /** The request holds what is sent, each node needed, and none names a dependency twice. */
  lemma RequestHas(nodes: Graph, names: map<Id, string>, submitted: set<Id>, targets: seq<Id>, sent: seq<Id>)
    requires (forall n :: n in sent ==> n in nodes && n in names && nodes[n].ordinal >= 1 && Distinct(nodes[n].deps)) && Distinct(sent)
    requires forall n :: n in sent <==> n !in submitted && NeededBy(Rest(nodes, submitted), targets, n)
    ensures var request := Request(nodes, names, sent);
            && E.AllNeeded(request, targets) && |request| == |sent|
            && (forall i :: 0 <= i < |request| ==> Distinct(request[i].deps) && request[i].local == sent[i])
            && forall l :: X.Has(request, l) <==> l in sent
  {
    RequestGraph(nodes, names, sent);
    hide NeededBy, Rest, Distinct, X.BatchOf;
    var request := Request(nodes, names, sent);
    forall i | 0 <= i < |request| ensures NeededBy(X.BatchOf(request), targets, request[i].local) && Distinct(request[i].deps) {
      assert sent[i] in sent;
      SentIsNeeded(nodes, submitted, targets, sent, sent[i]);
    }
    forall l ensures X.Has(request, l) <==> l in sent {
      if l in sent {
        var i :| 0 <= i < |sent| && sent[i] == l;
        assert request[i].local == l;
      }
    }
  }

  function SetOf(ids: seq<Id>): set<Id> { set n | n in ids }

  function OutcomesOf(ids: seq<Id>, results: map<Id, ToolStatus>): map<Id, ToolStatus>
    requires forall n :: n in ids ==> n in results
  {
    map n | n in ids :: results[n]
  }

  /** After the answer every node sent is submitted, with its outcome. */
  lemma StillNumbered(nodes: Graph, names: map<Id, string>, next: nat, submitted: set<Id>, outcomes: map<Id, ToolStatus>,
                      sent: seq<Id>, results: map<Id, ToolStatus>)
    requires Numbered(nodes, names, next, submitted, outcomes)
    requires forall n :: n in sent ==> n in nodes && n in results && n !in submitted
    ensures var more := outcomes + OutcomesOf(sent, results);
            && Numbered(nodes, names, next, submitted + SetOf(sent), more)
            && (forall n :: n in submitted + SetOf(sent) <==> n in submitted || n in sent)
            && (forall n :: n in more <==> n in outcomes || n in sent)
            && (forall n :: n in outcomes ==> more[n] == outcomes[n]) && forall n :: n in sent ==> more[n] == results[n]
  {
    hide NodeId, Distinct;
  }

  /** The node has ended in the parent's table with this outcome. */
  predicate EndedAs(names: map<Id, string>, t: Table, n: Id, outcomes: map<Id, ToolStatus>) {
    && n in names && names[n] in t && n in outcomes && t[names[n]].status == outcomes[n] && outcomes[n].IsTerminal()
  }

  /** Each node that was sent is planned with the ordinal, name and dependencies that it has here. */
  ghost predicate SentAsCreated(s: State, run: string, given: map<Id, string>, nodes: Graph, names: map<Id, string>, submitted: set<Id>) {
    forall n :: n in submitted ==> n in nodes && n in names && X.PlannedAs(s, run, given, n, nodes[n].ordinal, names[n], nodes[n].deps)
  }

  /** Nothing changes for the nodes that were sent. */
  lemma SentStays(s: State, run: string, given: map<Id, string>, nodes: Graph, names: map<Id, string>, submitted: set<Id>,
                  more: Graph, called: map<Id, string>)
    requires SentAsCreated(s, run, given, nodes, names, submitted)
    requires forall n :: n in submitted ==> n in more && n in called && (n in nodes ==> more[n] == nodes[n]) && (n in names ==> called[n] == names[n])
    ensures SentAsCreated(s, run, given, more, called, submitted)
  {
    hide X.PlannedAs;
  }

  /** What is sent is planned as it is here, and what was sent before stays so. */
  lemma SentMore(s: State, u: State, run: string, given: map<Id, string>, now: map<Id, string>, nodes: Graph, names: map<Id, string>,
                 submitted: set<Id>, sent: seq<Id>)
    requires SentAsCreated(s, run, given, nodes, names, submitted) && X.PlansKept(s, u, given, now)
    requires forall n :: n in sent ==> n in nodes && n in names
    requires var request := Request(nodes, names, sent);
             forall i :: 0 <= i < |request| ==> X.PlannedAs(u, run, now, request[i].local, request[i].ordinal, request[i].name, request[i].deps)
    ensures SentAsCreated(u, run, now, nodes, names, submitted + SetOf(sent))
    ensures forall l :: l in given ==> l in now && now[l] == given[l]
  {
    assert forall l :: l in given ==> l in now && now[l] == given[l];
    hide X.PlannedAs, X.PlansKept;
    forall n | n in submitted + SetOf(sent) ensures n in nodes && n in names && X.PlannedAs(u, run, now, n, nodes[n].ordinal, names[n], nodes[n].deps) {
      if n in submitted {
        X.PlanStays(s, u, run, given, now, n, nodes[n].ordinal, names[n], nodes[n].deps);
      } else {
        var i :| 0 <= i < |sent| && sent[i] == n;
        assert Request(nodes, names, sent)[i].local == n;
      }
    }
  }

  lemma SentKept(s: State, u: State, run: string, names: map<Id, string>, nodes: Graph, called: map<Id, string>, submitted: set<Id>)
    requires SentAsCreated(s, run, names, nodes, called, submitted) && X.PlansKept(s, u, names, names)
    ensures SentAsCreated(u, run, names, nodes, called, submitted)
  {
    hide X.PlannedAs, X.PlansKept;
    forall n | n in submitted ensures n in nodes && n in called && X.PlannedAs(u, run, names, n, nodes[n].ordinal, called[n], nodes[n].deps) {
      X.PlanStays(s, u, run, names, names, n, nodes[n].ordinal, called[n], nodes[n].deps);
    }
  }

  /** Every node that was sent has ended with its outcome. */
  ghost predicate AllEndedAs(given: map<Id, string>, t: Table, submitted: set<Id>, outcomes: map<Id, ToolStatus>) {
    forall n :: n in submitted ==> EndedAs(given, t, n, outcomes)
  }

  lemma OldEndedAs(given: map<Id, string>, now: map<Id, string>, before: Table, t: Table, submitted: set<Id>, outcomes: map<Id, ToolStatus>,
                   more: map<Id, ToolStatus>)
    requires AllEndedAs(given, before, submitted, outcomes) && E.EndedStay(before, t)
    requires (forall l :: l in given ==> l in now && now[l] == given[l]) && forall n :: n in outcomes ==> n in more && more[n] == outcomes[n]
    ensures AllEndedAs(now, t, submitted, more)
  {
  }

  /** The outcomes are those of nodes that ended as their dependencies, refusals and bodies tell. */
  ghost predicate AllAsTold(g: Graph, c: E.Config, given: map<Id, string>, t: Table, submitted: set<Id>, outcomes: map<Id, ToolStatus>) {
    forall n :: n in submitted ==>
      n in given && n in outcomes && given[n] in t && t[given[n]].status == outcomes[n] && EndsAsTold(g, c.refusals, c.bodies, t, given[n])
  }

  lemma EndedStays(names: map<Id, string>, t: Table, n: Id, results: map<Id, ToolStatus>, outcomes: map<Id, ToolStatus>)
    requires EndedAs(names, t, n, results) && n in outcomes && outcomes[n] == results[n]
    ensures EndedAs(names, t, n, outcomes)
  {
  }

  class GraphClient {
    const parent: E.Exchange
    var nodes: Graph
    var names: map<Id, string>
    var nextOrdinal: nat
    var submitted: set<Id>
    /** What was answered for the nodes that were sent. */
    var outcomes: map<Id, ToolStatus>

    ghost predicate NodesOk()
      reads this
    {
      Numbered(nodes, names, nextOrdinal, submitted, outcomes)
    }

    /** Both sides know the same nodes, and every one that was sent has ended. */
    ghost predicate Valid()
      reads this, parent, parent.session, parent.session.session
    {
      && NodesOk() && parent.Ready() && E.AllEnded(parent.table)
      && (forall n :: n in submitted <==> n in parent.session.localToDurable)
      && Sent(submitted, outcomes)
    }

    /** The nodes that were sent are planned as they were created, and have ended with their outcomes. */
    ghost predicate Sent(sent: set<Id>, results: map<Id, ToolStatus>)
      reads this, parent, parent.session, parent.session.session
    {
      && SentAsCreated(parent.session.session.Abs(), parent.session.run, parent.session.localToDurable, nodes, names, sent)
      && AllEndedAs(parent.session.localToDurable, parent.table, sent, results)
    }

    constructor (parent: E.Exchange)
      requires parent.Ready() && E.AllEnded(parent.table) && parent.session.localToDurable == map[]
      ensures Valid() && this.parent == parent && nodes == map[]
    {
      this.parent := parent;
      nodes, names, nextOrdinal, submitted, outcomes := map[], map[], 1, {}, map[];
    }

    /** A new node, after others; a dependency that is named again is not added again. */
    method Create(name: string, after: seq<Id>) returns (node: Id)
      requires NodesOk() && forall d :: d in after ==> d in nodes
      modifies `nodes, `names, `nextOrdinal
      ensures NodesOk() && node !in old(nodes) && node in nodes && nodes[node].ordinal == old(nextOrdinal)
      ensures forall d :: d in nodes[node].deps <==> d in after
      ensures forall n :: n in old(nodes) ==> n in nodes && nodes[n] == old(nodes)[n]
      ensures names == old(names)[node := name]
    {
      hide NodeId;
      var deps := Once([], after);
      node := NodeId(nextOrdinal);
      if node in nodes { NodeIdInjective(nodes[node].ordinal, nextOrdinal); }
      nodes, names := nodes[node := Spec(nextOrdinal, deps)], names[node := name];
      nextOrdinal := nextOrdinal + 1;
    }

    method Once(deps: seq<Id>, more: seq<Id>) returns (all: seq<Id>)
      requires Distinct(deps)
      ensures Distinct(all) && forall d :: d in all <==> d in deps || d in more
    {
      all := deps;
      for i := 0 to |more|
        invariant Distinct(all) && forall d :: d in all <==> d in deps || d in more[..i]
      {
        assert more[..i + 1] == more[..i] + [more[i]];
        if more[i] !in all { all := all + [more[i]]; }
      }
      assert more[..|more|] == more;
    }

    method AddDependency(node: Id, dependency: Id)
      requires NodesOk() && node in nodes && dependency in nodes
      modifies `nodes
      ensures NodesOk() && nodes.Keys == old(nodes).Keys
      ensures forall d :: d in nodes[node].deps <==> d in old(nodes)[node].deps || d == dependency
      ensures forall n :: n in nodes && n != node ==> nodes[n] == old(nodes)[n]
    {
      hide NodeId, Distinct;
      var deps := Once(nodes[node].deps, [dependency]);
      nodes := nodes[node := nodes[node].(deps := deps)];
    }

    /** More dependencies for a node that was not sent yet, up to the node itself, which may not wait for itself. */
    method After(node: Id, dependencies: seq<Id>) returns (ok: bool)
      requires NodesOk() && node in nodes && forall d :: d in dependencies ==> d in nodes
      modifies `nodes
      ensures NodesOk() && nodes.Keys == old(nodes).Keys && ok == (node !in submitted && node !in dependencies)
      ensures ok ==> forall d :: d in nodes[node].deps <==> d in old(nodes)[node].deps || d in dependencies
      ensures node in submitted ==> nodes == old(nodes)
      ensures forall d :: d in nodes[node].deps ==> d in old(nodes)[node].deps || (d in dependencies && d != node)
      ensures forall n :: n in nodes && n != node ==> nodes[n] == old(nodes)[n]
    {
      if node in submitted { return false; }
      hide NodesOk;
      for i := 0 to |dependencies|
        invariant NodesOk() && nodes.Keys == old(nodes).Keys && node !in dependencies[..i]
        invariant forall d :: d in nodes[node].deps <==> d in old(nodes)[node].deps || d in dependencies[..i]
        invariant forall n :: n in nodes && n != node ==> nodes[n] == old(nodes)[n]
      {
        if dependencies[i] == node { return false; }
        assert dependencies[..i + 1] == dependencies[..i] + [dependencies[i]];
        AddDependency(node, dependencies[i]);
      }
      assert dependencies[..|dependencies|] == dependencies;
      ok := true;
    }

    /**
     Await targets. What they need and has not been sent goes to the parent in one request; the parent rejects it with
     nothing changed, or answers every node of it, each ended, so that the run may be finished. It never refuses a
     fact that it has written.
     */
    method Execute(targets: seq<Id>) returns (r: Executed, ghost pending: seq<Id>)
      requires Valid() && forall t :: t in targets ==> t in nodes
      modifies this, parent, parent.session, parent.session.session
      ensures NodesOk() && nodes == old(nodes) && names == old(names) && nextOrdinal == old(nextOrdinal)
      ensures !r.Stopped? ==> Valid()
      ensures r.Stopped? ==> parent.cancelled
      ensures r.Raised? ==> HasCycle(Rest(nodes, old(submitted))) || HasUnknown(Rest(nodes, old(submitted)), old(submitted))
      ensures !r.Raised? ==> forall n :: n in pending <==> n !in old(submitted) && NeededBy(Rest(nodes, old(submitted)), targets, n)
      ensures r.RejectedBy? ==> (forall n :: n in pending ==> n in nodes) && pending != []
      ensures r.RejectedBy? ==> !X.Acceptable(Request(nodes, names, pending), targets, old(parent.session.localToDurable).Keys,
                                              old(parent.session.session.Abs()), parent.session.run, parent.session.maxNodes)
      ensures r.Raised? || r.RejectedBy? ==> submitted == old(submitted) && outcomes == old(outcomes)
      ensures r.Answered? ==> forall n :: n in submitted <==> n in old(submitted) || n in pending
      ensures r.Answered? ==> forall t :: t in targets ==> t in outcomes
      ensures r.Answered? ==> forall n :: n in old(outcomes) ==> n in outcomes && outcomes[n] == old(outcomes)[n]
      ensures r.Answered? ==> forall n :: n in pending ==> EndedAs(parent.session.localToDurable, parent.table, n, outcomes)
      ensures r.Answered? ==>
        SentAsCreated(parent.session.session.Abs(), parent.session.run, parent.session.localToDurable, nodes, names, SetOf(pending))
    {
      hide *;
      Parts();
      var closure := WorkerClosure(nodes, submitted, targets);
      if closure.Err? {
        PlanErrors(closure);
        return Raised(closure.error), [];
      }
      var sent := closure.value;
      pending := sent;
      NeededNodes(nodes, names, nextOrdinal, submitted, outcomes, targets, sent);
      if sent == [] {
        PendingPlanned(pending);
        return Answered(map[]), sent;
      }
      r := Send(targets, sent);
      if r.Answered? { PendingPlanned(pending); }
    }

    lemma PendingPlanned(pending: seq<Id>)
      requires Valid() && forall n :: n in pending ==> n in submitted
      ensures SentAsCreated(parent.session.session.Abs(), parent.session.run, parent.session.localToDurable, nodes, names, SetOf(pending))
    {
      hide X.PlannedAs, NodesOk, E.AllEnded;
    }

    /** Send a request and keep its answer. */
    method Send(targets: seq<Id>, sent: seq<Id>) returns (r: Executed)
      requires Valid() && Distinct(sent)
      requires forall n :: n in sent ==> n in nodes && n in names && nodes[n].ordinal >= 1 && Distinct(nodes[n].deps)
      requires forall t :: t in targets ==> t in outcomes || t in sent
      requires forall n :: n in sent <==> n !in submitted && NeededBy(Rest(nodes, submitted), targets, n)
      modifies this, parent, parent.session, parent.session.session
      ensures NodesOk() && nodes == old(nodes) && names == old(names) && nextOrdinal == old(nextOrdinal) && !r.Raised?
      ensures if r.Stopped? then parent.cancelled else Valid()
      ensures r.RejectedBy? ==> !X.Acceptable(Request(nodes, names, sent), targets, old(parent.session.localToDurable).Keys,
                                              old(parent.session.session.Abs()), parent.session.run, parent.session.maxNodes)
      ensures r.RejectedBy? ==> submitted == old(submitted) && outcomes == old(outcomes)
      ensures r.Answered? ==> (forall n :: n in submitted <==> n in old(submitted) || n in sent) && forall t :: t in targets ==> t in outcomes
      ensures r.Answered? ==> forall n :: n in old(outcomes) ==> n in outcomes && outcomes[n] == old(outcomes)[n]
      ensures r.Answered? ==> forall n :: n in sent ==> EndedAs(parent.session.localToDurable, parent.table, n, outcomes)
    {
      hide *;
      Parts();
      RequestHas(nodes, names, submitted, targets, sent);
      var request := Request(nodes, names, sent);
      ghost var s, given, before := parent.session.session.Abs(), parent.session.localToDurable, parent.table;
      SentNow();
      var outcome, results, interrupted := parent.ExecuteGraph(request, targets);
      if outcome.Rejected? {
        SentSame(submitted, outcomes, s, given, before);
        ValidNow();
        return RejectedBy(outcome.why);
      }
      if interrupted {
        NodesNow();
        return Stopped;
      }
      assert forall i :: 0 <= i < |sent| ==> request[i].local == sent[i] && sent[i] in results;
      SentMore(s, parent.session.session.Abs(), parent.session.run, given, parent.session.localToDurable, nodes, names, submitted, sent);
      Keep(targets, sent, results, given, before);
      r := Answered(results);
    }

    /** Keep the outcomes of what was sent. */
    method Keep(targets: seq<Id>, sent: seq<Id>, results: map<Id, ToolStatus>, ghost given: map<Id, string>, ghost before: Table)
      requires Numbered(nodes, names, nextOrdinal, submitted, outcomes) && parent.Ready() && E.AllEnded(parent.table)
      requires forall n :: n in parent.session.localToDurable <==> n in submitted || n in sent
      requires E.Answers(results, targets, parent.session.localToDurable, parent.table)
      requires forall n :: n in sent ==> n in nodes && n in results && n !in submitted
      requires forall t :: t in targets ==> t in outcomes || t in sent
      requires SentAsCreated(parent.session.session.Abs(), parent.session.run, parent.session.localToDurable, nodes, names, submitted + SetOf(sent))
      requires AllEndedAs(given, before, submitted, outcomes) && E.EndedStay(before, parent.table)
      requires forall l :: l in given ==> l in parent.session.localToDurable && parent.session.localToDurable[l] == given[l]
      modifies `submitted, `outcomes
      ensures Valid() && NodesOk()
      ensures (forall n :: n in submitted <==> n in old(submitted) || n in sent) && forall t :: t in targets ==> t in outcomes
      ensures forall n :: n in old(outcomes) ==> n in outcomes && outcomes[n] == old(outcomes)[n]
      ensures forall n :: n in sent ==> EndedAs(parent.session.localToDurable, parent.table, n, outcomes)
    {
      hide *;
      StillNumbered(nodes, names, nextOrdinal, submitted, outcomes, sent, results);
      OldEndedAs(given, parent.session.localToDurable, before, parent.table, submitted, outcomes, outcomes + OutcomesOf(sent, results));
      ghost var earlier := submitted;
      submitted := submitted + SetOf(sent);
      outcomes := outcomes + OutcomesOf(sent, results);
      AnswersMean(results, targets, sent);
      forall n | n in sent ensures EndedAs(parent.session.localToDurable, parent.table, n, outcomes) {
        EndedStays(parent.session.localToDurable, parent.table, n, results, outcomes);
      }
      AllEndedNow(parent.session.localToDurable, parent.table, earlier, sent, outcomes);
      SentIs();
      ValidNow();
    }

    lemma SentIs()
      requires SentAsCreated(parent.session.session.Abs(), parent.session.run, parent.session.localToDurable, nodes, names, submitted)
      requires AllEndedAs(parent.session.localToDurable, parent.table, submitted, outcomes)
      ensures Sent(submitted, outcomes)
    {
      hide SentAsCreated, AllEndedAs;
    }

    lemma SentNow()
      requires Valid()
      ensures SentAsCreated(parent.session.session.Abs(), parent.session.run, parent.session.localToDurable, nodes, names, submitted)
      ensures AllEndedAs(parent.session.localToDurable, parent.table, submitted, outcomes)
    {
      hide SentAsCreated, AllEndedAs, NodesOk, E.AllEnded;
    }

    lemma SentSame(sent: set<Id>, results: map<Id, ToolStatus>, s: State, given: map<Id, string>, before: Table)
      requires parent.session.session.Abs() == s && parent.session.localToDurable == given && parent.table == before
      requires SentAsCreated(s, parent.session.run, given, nodes, names, sent) && AllEndedAs(given, before, sent, results)
      ensures Sent(sent, results)
    {
      hide SentAsCreated, AllEndedAs;
    }

    lemma AllEndedNow(given: map<Id, string>, t: Table, earlier: set<Id>, sent: seq<Id>, results: map<Id, ToolStatus>)
      requires AllEndedAs(given, t, earlier, results) && forall n :: n in sent ==> EndedAs(given, t, n, results)
      ensures AllEndedAs(given, t, earlier + SetOf(sent), results)
    {
      hide EndedAs;
    }

    lemma PlanErrors(r: Result<seq<Id>, PlanError>)
      requires r.Err?
      ensures r == Err(Cyclic) || r == Err(UnknownReference)
    {
      match r.error
      case Cyclic =>
      case UnknownReference =>
    }

    lemma Parts()
      requires Valid()
      ensures NodesOk() && Numbered(nodes, names, nextOrdinal, submitted, outcomes) && submitted <= nodes.Keys
      ensures parent.Ready() && E.AllEnded(parent.table) && forall n :: n in submitted <==> n in parent.session.localToDurable
    {
    }

    lemma NodesNow()
      requires Numbered(nodes, names, nextOrdinal, submitted, outcomes)
      ensures NodesOk()
    {
    }

    lemma ValidNow()
      requires Numbered(nodes, names, nextOrdinal, submitted, outcomes) && parent.Ready() && E.AllEnded(parent.table)
      requires forall n :: n in submitted <==> n in parent.session.localToDurable
      requires Sent(submitted, outcomes)
      ensures Valid() && NodesOk()
    {
    }

    lemma AnswersMean(results: map<Id, ToolStatus>, targets: seq<Id>, sent: seq<Id>)
      requires E.Answers(results, targets, parent.session.localToDurable, parent.table)
      requires forall n :: n in sent ==> n in results
      ensures forall n :: n in sent ==> EndedAs(parent.session.localToDurable, parent.table, n, results)
    {
    }

    lemma NumberedNow()
      requires NodesOk()
      ensures Numbered(nodes, names, nextOrdinal, submitted, outcomes)
    {
    }

    method TryCreate(name: string, after: seq<Id>)
      requires Valid()
      modifies `nodes, `names, `nextOrdinal
      ensures Valid() && (forall n :: n in old(nodes) ==> n in nodes && n in names && n in old(names) && names[n] == old(names)[n])
      ensures forall n :: n in nodes && n !in old(nodes) ==> n in names && names[n] == name
      ensures (forall d :: d in after ==> d in old(nodes)) ==> exists n :: n in nodes && n !in old(nodes) && nodes[n].ordinal == old(nextOrdinal)
    {
      hide *;
      Parts();
      SentNow();
      NamedAll();
      ghost var graph, called := nodes, names;
      if forall d :: d in after ==> d in nodes {
        var node := Create(name, after);
        assert node in nodes;
      }
      NumberedNow();
      NamedAll();
      SentStays(parent.session.session.Abs(), parent.session.run, parent.session.localToDurable, graph, called, submitted, nodes, names);
      SentIs();
      ValidNow();
    }

    lemma NamedAll()
      requires NodesOk()
      ensures names.Keys == nodes.Keys && submitted <= nodes.Keys
    {
    }

    method TryAfter(node: Id, dependencies: seq<Id>)
      requires Valid()
      modifies `nodes
      ensures Valid() && nodes.Keys == old(nodes).Keys
    {
      hide *;
      Parts();
      SentNow();
      NamedAll();
      ghost var graph := nodes;
      if node in nodes && forall d :: d in dependencies ==> d in nodes { var _ := After(node, dependencies); }
      NumberedNow();
      NamedAll();
      SentStays(parent.session.session.Abs(), parent.session.run, parent.session.localToDurable, graph, names, submitted, nodes, names);
      SentIs();
      ValidNow();
    }

    /** Without a cancellation the outcomes are those that the refusals and the bodies tell, and upstream failures. */
    lemma OutcomesAsTold()
      requires Valid() && !parent.cancelled
      ensures AllAsTold(X.GraphOf(parent.session.session.Abs(), parent.session.run), parent.config, parent.session.localToDurable, parent.table,
                        submitted, outcomes)
    {
      parent.RunAsTold();
      parent.SameKeys();
      hide E.AllEnded, NodesOk, SentAsCreated, EndsAsTold;
    }

    /** Let the parent end the run: the reducer accepts it after any number of awaits. */
    method Finish(status: RunStatus)
      requires Valid() && !status.RunActive?
      modifies parent.session, parent.session.session
      ensures parent.session.localToDurable == old(parent.session.localToDurable)
      ensures SentAsCreated(parent.session.session.Abs(), parent.session.run, parent.session.localToDurable, nodes, names, submitted)
      ensures R.Replay(EMPTY, parent.session.log) == Ok(parent.session.session.Abs())
      ensures Recovery.Append(old(parent.session.session.Abs()), CodeRunFinished(parent.session.run, status)) == Ok(parent.session.session.Abs())
    {
      hide *;
      Parts();
      SentNow();
      ghost var s := parent.session.session.Abs();
      parent.FinishRun(status);
      RunEndKeepsPlans(s, parent.session.run, status, parent.session.localToDurable);
      SentKept(s, parent.session.session.Abs(), parent.session.run, parent.session.localToDurable, nodes, names, submitted);
    }
  }

  /** The end of a run changes no call and no node. */
  lemma RunEndKeepsPlans(s: State, run: string, status: RunStatus, names: map<Id, string>)
    requires Recovery.Append(s, CodeRunFinished(run, status)).Ok?
    ensures X.PlansKept(s, Recovery.Append(s, CodeRunFinished(run, status)).value, names, names)
    ensures X.GraphOf(Recovery.Append(s, CodeRunFinished(run, status)).value, run) == X.GraphOf(s, run)
  {
    hide R.HandleCallFact, R.HandleTurnFact, R.HandleOtherFact;
  }

  /** A node is called as the step that created it says. */
  ghost predicate CalledAsCreated(steps: seq<ClientStep>, count: nat, before: map<Id, string>, names: map<Id, string>) {
    && count <= |steps| && (forall n :: n in before ==> n in names && names[n] == before[n])
    && forall n :: n in names && n !in before ==> exists i :: 0 <= i < count && steps[i].New? && steps[i].name == names[n]
  }

  lemma CalledNext(steps: seq<ClientStep>, count: nat, before: map<Id, string>, names: map<Id, string>, more: map<Id, string>)
    requires count < |steps| && CalledAsCreated(steps, count, before, names)
    requires forall n :: n in names ==> n in more && more[n] == names[n]
    requires forall n :: n in more && n !in names ==> steps[count].New? && more[n] == steps[count].name
    ensures CalledAsCreated(steps, count + 1, before, more)
  {
    forall n | n in more && n !in before ensures exists i :: 0 <= i < count + 1 && steps[i].New? && steps[i].name == more[n] {
      if n in names {
        var i :| 0 <= i < count && steps[i].New? && steps[i].name == names[n];
        assert steps[i].name == more[n];
      }
    }
  }

  /** What a program does with its nodes. */
  datatype ClientStep = New(name: string, after: seq<Id>) | Order(node: Id, dependencies: seq<Id>) | Await(targets: seq<Id>)

  ghost predicate RunEnded(s: State, run: string, status: RunStatus) { run in s.runs && s.runs[run].status == status }

  lemma EndedMeans(s: State, run: string, status: RunStatus)
    requires Recovery.Append(s, CodeRunFinished(run, status)).Ok?
    ensures RunEnded(Recovery.Append(s, CodeRunFinished(run, status)).value, run, status)
  {
    hide R.HandleCallFact, R.HandleTurnFact, R.HandleOtherFact;
  }

  /** One step; a reference to a node that does not exist raises and does nothing. */
  method Take(client: GraphClient, step: ClientStep) returns (stopped: bool)
    requires client.Valid()
    modifies client, client.parent, client.parent.session, client.parent.session.session
    ensures if stopped then client.parent.cancelled else client.Valid()
    ensures forall n :: n in old(client.names) ==> n in client.names && client.names[n] == old(client.names)[n]
    ensures forall n :: n in client.names && n !in old(client.names) ==> step.New? && client.names[n] == step.name
    ensures step.New? && (forall d :: d in step.after ==> d in old(client.nodes)) ==>
              exists n :: n in client.nodes && n !in old(client.nodes) && client.nodes[n].ordinal == old(client.nextOrdinal)
  {
    hide *;
    stopped := false;
    client.Parts();
    client.NamedAll();
    match step
    case New(name, after) =>
      client.TryCreate(name, after);
      client.Parts();
      client.NamedAll();
    case Order(node, dependencies) => client.TryAfter(node, dependencies);
    case Await(targets) =>
      if forall t :: t in targets ==> t in client.nodes {
        var r, _ := client.Execute(targets);
        stopped := r.Stopped?;
      }
  }

  lemma NoneCreated(steps: seq<ClientStep>, names: map<Id, string>)
    ensures CalledAsCreated(steps, 0, names, names)
  {
  }

  /**
   A whole program: nodes are created, ordered and awaited in any way. Unless it is cancelled, every await leaves both
   sides agreed with all nodes sent ended, the rollout replays to the session, and the reducer accepts the end of the run.
   */
  method RunProgram(client: GraphClient, steps: seq<ClientStep>, status: RunStatus) returns (stopped: bool)
    requires client.Valid() && !status.RunActive?
    modifies client, client.parent, client.parent.session, client.parent.session.session
    ensures stopped ==> client.parent.cancelled
    ensures !stopped ==> R.Replay(EMPTY, client.parent.session.log) == Ok(client.parent.session.session.Abs())
    ensures !stopped ==> RunEnded(client.parent.session.session.Abs(), client.parent.session.run, status)
    ensures !stopped ==> CalledAsCreated(steps, |steps|, old(client.names), client.names)
    ensures !stopped ==> SentAsCreated(client.parent.session.session.Abs(), client.parent.session.run, client.parent.session.localToDurable,
                                       client.nodes, client.names, client.submitted)
    ensures !stopped && !client.parent.cancelled ==>
              AllAsTold(X.GraphOf(client.parent.session.session.Abs(), client.parent.session.run), client.parent.config,
                        client.parent.session.localToDurable, client.parent.table, client.submitted, client.outcomes)
  {
    NoneCreated(steps, client.names);
    hide *;
    stopped := false;
    for i := 0 to |steps|
      invariant client.Valid() && CalledAsCreated(steps, i, old(client.names), client.names)
    {
      ghost var names := client.names;
      stopped := Take(client, steps[i]);
      if stopped { return; }
      CalledNext(steps, i, old(client.names), names, client.names);
    }
    ghost var s := client.parent.session.session.Abs();
    if !client.parent.cancelled { client.OutcomesAsTold(); }
    client.Finish(status);
    RunEndKeepsPlans(s, client.parent.session.run, status, client.parent.session.localToDurable);
    EndedMeans(s, client.parent.session.run, status);
  }
}
