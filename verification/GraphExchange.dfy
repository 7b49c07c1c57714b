/**
 The parent's side of a graph request: it is rejected before any node is planned, or its nodes are
 planned in dependency order and the session reducer accepts them.
 */
module GraphExchange {
  import opened Domain
  import opened CodeDag
  import opened DagScheduler
  import opened DagPlanning
  import R = Reducer
  import I = ReducerInvariant
  import Runs = ReducerRuns
  import Recovery
  import opened Sessions

  datatype RawNode = RawNode(local: Id, ordinal: int, name: string, deps: seq<Id>)

  datatype Rejection =
    | TooManyNodes | InvalidNode | AlreadySubmitted | NotOrdered(cause: PlanError)
    | OrdinalRepeated | DurableIdUsed | UnavailableTool | UnknownTarget

  datatype Submission = Rejected(why: Rejection) | Refused(why_: Refusal) | Planned

  const CODE_TOOLS := {"read_file", "list_dir", "grep", "write_file", "edit_file", "bash"}

  /** The session-wide id of a node. */
  function Durable(run: string, ordinal: nat): string { run + ":node:" + Decimal(ordinal) }

  /** Every node of the run was named by this scheduler. */
  ghost predicate NodesNamed(s: State, run: string)
    requires run in s.runs
  {
    forall n :: n in s.runs[run].nodeIds ==> n in s.nodes && s.nodes[n].run == run && n == Durable(run, s.nodes[n].ordinal)
  }

  ghost predicate MayPlan(s: State, run: string) {
    s.created && s.active.Some? && run in s.runs && s.runs[run].status.RunActive? && NodesNamed(s, run)
  }

  /** The session after one more node was planned: one new requested call, and its mirror. */
  ghost predicate NodeAdded(s: State, u: State, run: string, id: string, ordinal: nat, deps: seq<string>)
    requires run in s.runs && run in u.runs
  {
    && id !in s.calls && u.calls.Keys == s.calls.Keys + {id} && u.nodes.Keys == s.nodes.Keys + {id}
    && (forall k :: k in s.calls ==> u.calls[k] == s.calls[k]) && (forall n :: n in s.nodes ==> u.nodes[n] == s.nodes[n])
    && u.calls[id].status.Requested? && u.calls[id].approved.None?
    && u.nodes[id] == CodeNode(run, ordinal, deps, Requested, [], [])
    && u.runs[run].nodeIds == s.runs[run].nodeIds + [id]
    && u.intent == s.intent && u.created == s.created && u.active == s.active
  }

  /** The reducer accepts a checked node exactly when its dependencies are distinct. */
  lemma PlanAccepted(s: State, run: string, ordinal: nat, name: string, deps: seq<string>)
    requires MayPlan(s, run) && ordinal >= 1 && name != "" && run != ""
    requires Durable(run, ordinal) !in s.nodes && Durable(run, ordinal) !in s.calls
    requires forall d :: d in deps ==> d in s.nodes && s.nodes[d].run == run
    ensures var u := R.ApplyNodePlanned(s, s.lastSeq + 1, run, Durable(run, ordinal), ordinal, name, deps);
            && (u.Ok? <==> Distinct(deps))
            && (u.Ok? ==> MayPlan(u.value.(lastSeq := s.lastSeq + 1), run))
            && (u.Ok? ==> NodeAdded(s, u.value.(lastSeq := s.lastSeq + 1), run, Durable(run, ordinal), ordinal, deps))
            && (u.Ok? ==> Durable(run, ordinal) in u.value.calls && u.value.calls[Durable(run, ordinal)].name == name)
  {
    var id := Durable(run, ordinal);
    assert id != "";
    hide Durable;
    assert !R.OrdinalTaken(s, s.runs[run], ordinal);
    assert forall i :: 0 <= i < |deps| ==> deps[i] in deps;
    assert R.KnownDependencies(s, run, deps);
    hide R.OrdinalTaken, R.KnownDependencies, Distinct;
  }

  // ----- The checks before anything is planned -----

  predicate RawOk(node: RawNode) { node.local != "" && node.ordinal >= 1 && node.name != "" }

  predicate WellFormed(nodes: seq<RawNode>, submitted: set<Id>) {
    && (forall i :: 0 <= i < |nodes| ==> RawOk(nodes[i]) && nodes[i].local !in submitted)
    && forall i, j :: 0 <= i < j < |nodes| ==> nodes[i].local != nodes[j].local
  }

  /** The request as a graph; the last node wins where a name repeats, which well-formed requests exclude. */
  function BatchOf(nodes: seq<RawNode>): Graph {
    if nodes == [] then map[]
    else
      var n := nodes[|nodes| - 1];
      BatchOf(nodes[..|nodes| - 1])[n.local := Spec(if n.ordinal >= 1 then n.ordinal else 0, n.deps)]
  }

  function NamesOf(nodes: seq<RawNode>): map<Id, string> {
    if nodes == [] then map[] else NamesOf(nodes[..|nodes| - 1])[nodes[|nodes| - 1].local := nodes[|nodes| - 1].name]
  }

  predicate Has(nodes: seq<RawNode>, l: Id) {
    exists i :: 0 <= i < |nodes| && nodes[i].local == l
  }

  lemma {:induction false} BatchKeys(nodes: seq<RawNode>)
    ensures BatchOf(nodes).Keys == NamesOf(nodes).Keys
    ensures forall l :: l in BatchOf(nodes) <==> Has(nodes, l)
  {
    if nodes != [] {
      var front, n := nodes[..|nodes| - 1], nodes[|nodes| - 1];
      BatchKeys(front);
      forall l ensures Has(nodes, l) <==> Has(front, l) || l == n.local {
        if Has(front, l) {
          var i :| 0 <= i < |front| && front[i].local == l;
          assert nodes[i].local == l;
        }
      }
    }
  }

  lemma {:induction false} BatchEntry(nodes: seq<RawNode>, submitted: set<Id>, i: nat)
    requires WellFormed(nodes, submitted) && i < |nodes|
    ensures nodes[i].local in BatchOf(nodes) && BatchOf(nodes)[nodes[i].local] == Spec(nodes[i].ordinal, nodes[i].deps)
    ensures nodes[i].local in NamesOf(nodes) && NamesOf(nodes)[nodes[i].local] == nodes[i].name
  {
    var front := nodes[..|nodes| - 1];
    if i < |front| {
      BatchEntry(front, submitted, i);
      assert front[i] == nodes[i] && nodes[|nodes| - 1].local != nodes[i].local;
    }
  }

  /** One node more: what makes the request ill-formed, and what it adds to the graph otherwise. */
  lemma NormalizeStep(nodes: seq<RawNode>, i: nat, submitted: set<Id>)
    requires i < |nodes| && WellFormed(nodes[..i], submitted)
    ensures var n := nodes[i];
            && (!RawOk(n) || n.local in submitted || n.local in BatchOf(nodes[..i]) ==> !WellFormed(nodes, submitted))
            && (RawOk(n) && n.local !in submitted && n.local !in BatchOf(nodes[..i]) ==> WellFormed(nodes[..i + 1], submitted))
            && BatchOf(nodes[..i + 1]) == BatchOf(nodes[..i])[n.local := Spec(if n.ordinal >= 1 then n.ordinal else 0, n.deps)]
            && NamesOf(nodes[..i + 1]) == NamesOf(nodes[..i])[n.local := n.name]
  {
    assert nodes[..i + 1][..i] == nodes[..i] && nodes[..i + 1][i] == nodes[i];
    BatchKeys(nodes[..i]);
    hide BatchOf, NamesOf;
    assert Has(nodes[..i], nodes[i].local) <==> exists j :: 0 <= j < i && nodes[j].local == nodes[i].local;
  }

  /** A well-formed request and its graph say the same. */
  lemma BatchHas(nodes: seq<RawNode>, submitted: set<Id>, l: Id)
    requires WellFormed(nodes, submitted) && l in BatchOf(nodes)
    ensures l !in submitted && l in NamesOf(nodes) && BatchOf(nodes)[l].ordinal >= 1 && NamesOf(nodes)[l] != ""
    ensures exists i :: 0 <= i < |nodes| && nodes[i].local == l && nodes[i].deps == BatchOf(nodes)[l].deps
  {
    BatchKeys(nodes);
    var i :| 0 <= i < |nodes| && nodes[i].local == l;
    BatchEntry(nodes, submitted, i);
    assert RawOk(nodes[i]);
  }

  predicate OrdinalsDistinct(batch: Graph) {
    forall a, b :: a in batch && b in batch && a != b ==> batch[a].ordinal != batch[b].ordinal
  }

  predicate IdsFree(batch: Graph, s: State, run: string) {
    && (forall a, b :: a in batch && b in batch && a != b ==> Durable(run, batch[a].ordinal) != Durable(run, batch[b].ordinal))
    && forall a :: a in batch ==> Durable(run, batch[a].ordinal) !in s.nodes && Durable(run, batch[a].ordinal) !in s.calls
  }

  predicate ToolsAvailable(batch: Graph, names: map<Id, string>) {
    forall a :: a in batch ==> a in names && names[a] in CODE_TOOLS
  }

  /** What `_validate_batch` objects to, in its order. */
  function BatchRejection(batch: Graph, names: map<Id, string>, s: State, run: string): Option<Rejection> {
    if !OrdinalsDistinct(batch) then Some(OrdinalRepeated)
    else if !IdsFree(batch, s, run) then Some(DurableIdUsed)
    else if !ToolsAvailable(batch, names) then Some(UnavailableTool)
    else None
  }

  /** The requests that the parent does not reject. */
  ghost predicate Acceptable(nodes: seq<RawNode>, targets: seq<Id>, submitted: set<Id>, s: State, run: string, maxNodes: nat) {
    && |submitted| + |nodes| <= maxNodes && WellFormed(nodes, submitted)
    && (exists rank :: RankedAbove(BatchOf(nodes), submitted, rank))
    && BatchRejection(BatchOf(nodes), NamesOf(nodes), s, run).None?
    && forall t :: t in targets ==> t in BatchOf(nodes) || t in submitted
  }

  ghost predicate Injective(m: map<Id, string>) {
    forall a, b :: a in m && b in m && a != b ==> m[a] != m[b]
  }

  function Renamed(ids: seq<Id>, names: map<Id, string>): seq<string>
    requires forall d :: d in ids ==> d in names
  {
    seq(|ids|, i requires 0 <= i < |ids| => names[ids[i]])
  }

  lemma RenamedDistinct(ids: seq<Id>, names: map<Id, string>)
    requires (forall d :: d in ids ==> d in names) && Injective(names)
    ensures Distinct(Renamed(ids, names)) <==> Distinct(ids)
  {
    var renamed := Renamed(ids, names);
    assert forall i :: 0 <= i < |ids| ==> ids[i] in ids && renamed[i] == names[ids[i]];
  }

  class GraphSession {
    const session: SessionState
    const run: string
    const maxNodes: nat
    var log: seq<Event>
    var localToDurable: map<Id, string>

    ghost predicate Valid()
      reads this, session
    {
      && R.Replay(EMPTY, log) == Ok(session.Abs()) && MayPlan(session.Abs(), run) && run != ""
      && Submitted(session.Abs(), run, localToDurable)
    }

    /** A run that has just been started. */
    constructor (session: SessionState, log: seq<Event>, run: string, maxNodes: nat)
      requires R.Replay(EMPTY, log) == Ok(session.Abs()) && session.created && session.active.Some? && run != ""
      requires run in session.runs && session.runs[run].status.RunActive? && session.runs[run].nodeIds == []
      ensures Valid() && localToDurable == map[] && this.session == session && this.log == log
      ensures this.run == run && this.maxNodes == maxNodes
    {
      this.session, this.log, this.run, this.maxNodes := session, log, run, maxNodes;
      localToDurable := map[];
    }

    lemma Reachable()
      requires Valid()
      ensures I.Inv(session.Abs())
    {
      hide I.Inv;
      Runs.ReachableInv(log);
    }

    /** Append a fact to the rollout, then let the reducer look at it. */
    method Append(fact: Fact) returns (refusal: Option<Refusal>)
      requires R.Replay(EMPTY, log) == Ok(session.Abs()) && !fact.AssistantAccepted?
      modifies this`log, session
      ensures var a := Recovery.Append(old(session.Abs()), fact);
              && (refusal.None? <==> a.Ok?)
              && (refusal.None? ==> R.Replay(EMPTY, log) == Ok(session.Abs()) && a == Ok(session.Abs()))
      ensures refusal.Some? ==> R.Replay(EMPTY, log).Err?
    {
      hide I.Inv, R.Step, HalfRecorded, R.Replay;
      Runs.ReachableInv(log);
      var event := Event(session.lastSeq + 1, fact);
      ghost var before, s := log, session.Abs();
      log := log + [event];
      refusal := session.Apply(event);
      NotHalf(s, session.Abs(), event, refusal);
      ReplayMore(before, s, event);
    }

    lemma NotHalf(s: State, u: State, e: Event, refusal: Option<Refusal>)
      requires !e.fact.AssistantAccepted?
      requires refusal == Some(DuplicateCallKey) ==> HalfRecorded(s, u, e.seqNo, e.fact)
      ensures refusal != Some(DuplicateCallKey)
    {
    }

    lemma {:induction false} ReplayMore(before: seq<Event>, s: State, e: Event)
      requires R.Replay(EMPTY, before) == Ok(s)
      ensures R.Replay(EMPTY, before + [e]) == R.Step(s, e)
    {
      hide R.Step;
      assert (before + [e])[..|before|] == before;
    }

    method Normalize(nodes: seq<RawNode>) returns (why: Option<Rejection>, batch: Graph, names: map<Id, string>)
      ensures why.None? <==> WellFormed(nodes, localToDurable.Keys)
      ensures why.None? ==> batch == BatchOf(nodes) && names == NamesOf(nodes)
    {
      batch, names := map[], map[];
      for i := 0 to |nodes|
        invariant WellFormed(nodes[..i], localToDurable.Keys)
        invariant batch == BatchOf(nodes[..i]) && names == NamesOf(nodes[..i])
      {
        var n := nodes[i];
        hide WellFormed, BatchOf, NamesOf, RawOk;
        NormalizeStep(nodes, i, localToDurable.Keys);
        if !RawOk(n) { return Some(InvalidNode), batch, names; }
        if n.local in localToDurable || n.local in batch { return Some(AlreadySubmitted), batch, names; }
        batch, names := batch[n.local := Spec(n.ordinal, n.deps)], names[n.local := n.name];
      }
      assert nodes[..|nodes|] == nodes;
      why := None;
    }

    /** Append the planning fact of one node, then let the reducer look at it. */
    method PlanNode(n: Id, spec: Spec, name: string) returns (refusal: Option<Refusal>)
      requires Valid() && spec.ordinal >= 1 && name != "" && n !in localToDurable
      requires forall d :: d in spec.deps ==> d in localToDurable
      requires Durable(run, spec.ordinal) !in session.nodes && Durable(run, spec.ordinal) !in session.calls
      modifies this, session
      ensures refusal.None? <==> Distinct(spec.deps)
      ensures refusal.Some? ==> R.Replay(EMPTY, log).Err?
      ensures refusal.None? ==> Valid() && localToDurable == old(localToDurable)[n := Durable(run, spec.ordinal)]
      ensures refusal.None? ==>
        NodeAdded(old(session.Abs()), session.Abs(), run, Durable(run, spec.ordinal), spec.ordinal, Renamed(spec.deps, old(localToDurable)))
      ensures refusal.None? ==> Durable(run, spec.ordinal) in session.calls && session.calls[Durable(run, spec.ordinal)].name == name
    {
      hide Durable, NodeAdded, MayPlan, Injective, Renamed, R.Replay, R.Step;
      var id, deps := Durable(run, spec.ordinal), Renamed(spec.deps, localToDurable);
      ghost var s := session.Abs();
      PlanStep(s, run, localToDurable, spec, name, Event(s.lastSeq + 1, CodeNodePlanned(run, id, spec.ordinal, name, deps)));
      refusal := Append(CodeNodePlanned(run, id, spec.ordinal, name, deps));
      if refusal.Some? { return; }
      SubmittedGrows(s, session.Abs(), run, localToDurable, n, spec, deps);
      localToDurable := localToDurable[n := id];
    }

    /** Plan the nodes of an accepted request in dependency order, until the reducer refuses one. */
    method PlanAll(ordered: seq<Id>, batch: Graph, names: map<Id, string>) returns (refusal: Option<Refusal>)
      requires Valid() && Queue(ordered, 0, batch, names, session.Abs(), run, localToDurable)
      modifies this, session
      ensures refusal.None? <==> DepsDistinct(ordered, batch, |ordered|)
      ensures refusal.Some? ==> R.Replay(EMPTY, log).Err?
      ensures refusal.None? ==> Valid() && PlannedSoFar(ordered, |ordered|, batch, run, old(session.Abs()), session.Abs(), old(localToDurable), localToDurable)
      ensures refusal.None? ==> NamedSoFar(ordered, |ordered|, names, session.Abs(), localToDurable)
    {
      hide Durable, Queue, PlannedSoFar, NodeAdded, MayPlan, R.Replay, Injective, NamedSoFar;
      refusal := None;
      NamedNone(ordered, names, session.Abs(), localToDurable);
      ghost var s, m := session.Abs(), localToDurable;
      PlanBegins(ordered, batch, run, s, m);
      for i := 0 to |ordered|
        invariant refusal.None? && Valid() && Queue(ordered, i, batch, names, session.Abs(), run, localToDurable)
        invariant PlannedSoFar(ordered, i, batch, run, s, session.Abs(), m, localToDurable) && DepsDistinct(ordered, batch, i)
        invariant NamedSoFar(ordered, i, names, session.Abs(), localToDurable)
      {
        QueueNext(ordered, i, batch, names, session.Abs(), run, localToDurable);
        ghost var t, k := session.Abs(), localToDurable;
        var n := ordered[i];
        refusal := PlanNode(n, batch[n], names[n]);
        if refusal.Some? { return; }
        QueueMoves(ordered, i, batch, names, t, session.Abs(), run, k);
        PlannedGrows(ordered, i, batch, run, s, t, session.Abs(), m, k);
        NamedMore(ordered, i, names, t, session.Abs(), k, localToDurable, run);
      }
    }

    /**
     One request of the worker.  A rejected request leaves everything as it was; a request that no check
     rejects is planned as a whole, unless some node names a dependency twice: then the reducer refuses a
     fact that the rollout already holds.
     */
    method Submit(nodes: seq<RawNode>, targets: seq<Id>) returns (outcome: Submission)
      requires Valid()
      modifies this, session
      ensures outcome.Rejected? <==> !Acceptable(nodes, targets, old(localToDurable).Keys, old(session.Abs()), run, maxNodes)
      ensures outcome.Rejected? ==> Valid() && session.Abs() == old(session.Abs()) && log == old(log) && localToDurable == old(localToDurable)
      ensures outcome.Planned? <==> !outcome.Rejected? && forall i :: 0 <= i < |nodes| ==> Distinct(nodes[i].deps)
      ensures outcome.Planned? ==> Valid() && AllPlanned(nodes, run, old(session.Abs()), session.Abs(), old(localToDurable), localToDurable)
      ensures outcome.Refused? ==> R.Replay(EMPTY, log).Err?
    {
      hide Durable, BatchOf, NamesOf, RankedAbove, BatchRejection, WellFormed, DepsFirst, HasCycle, HasUnknown, MayPlan, Queue, PlannedSoFar, DepsDistinct, AllPlanned, Injective;
      if |localToDurable| + |nodes| > maxNodes {
        assert |localToDurable.Keys| == |localToDurable|;
        return Rejected(TooManyNodes);
      }
      assert |localToDurable.Keys| == |localToDurable|;
      var why, batch, names := Normalize(nodes);
      if why.Some? { return Rejected(why.value); }
      BatchApart(nodes, localToDurable.Keys);
      var order := Topological(batch, localToDurable.Keys);
      if order.Err? { return Rejected(NotOrdered(order.error)); }
      why := BatchRejection(batch, names, session.Abs(), run);
      if why.Some? { return Rejected(why.value); }
      if exists t :: t in targets && t !in batch && t !in localToDurable { return Rejected(UnknownTarget); }
      QueueBegins(nodes, order.value, session.Abs(), run, localToDurable);
      ghost var s, given := session.Abs(), localToDurable;
      var refusal := PlanAll(order.value, batch, names);
      SameDistinct(nodes, given.Keys, order.value);
      if refusal.Some? { return Refused(refusal.value); }
      AllPlannedFrom(nodes, order.value, run, s, session.Abs(), given, localToDurable);
      return Planned;
    }
  }

  /** Every node of the request is planned under its session-wide name; nothing older changed. */
  ghost predicate AllPlanned(nodes: seq<RawNode>, run: string, s: State, u: State, given: map<Id, string>, now: map<Id, string>) {
    && run in s.runs && run in u.runs && u.intent == s.intent
    && (forall l :: l in now <==> l in given || Has(nodes, l)) && (forall l :: l in given ==> now[l] == given[l])
    && (forall k :: k in s.calls ==> k in u.calls && u.calls[k] == s.calls[k])
    && (forall n :: n in s.nodes ==> n in u.nodes && u.nodes[n] == s.nodes[n])
    && (forall i :: 0 <= i < |nodes| ==> NodeIs(nodes[i].local, BatchOf(nodes), run, u, now))
    && (forall i :: 0 <= i < |nodes| ==> PlannedAs(u, run, now, nodes[i].local, nodes[i].ordinal, nodes[i].name, nodes[i].deps))
    && OnlyNamed(s, u, given, now) && u.created == s.created && u.active == s.active
  }

  /** The session has a node and a call for it, under its session-wide name, with its ordinal, tool and dependencies. */
  ghost predicate PlannedAs(s: State, run: string, names: map<Id, string>, l: Id, ordinal: int, name: string, deps: seq<Id>) {
    && l in names && names[l] in s.calls && s.calls[names[l]].name == name
    && ordinal >= 1 && names[l] == Durable(run, ordinal)
    && names[l] in s.nodes && s.nodes[names[l]].run == run && s.nodes[names[l]].ordinal == ordinal
    && (forall d :: d in deps ==> d in names) && s.nodes[names[l]].dependencies == Renamed(deps, names)
  }

  /** What was planned stays planned. */
  ghost predicate PlansKept(s: State, u: State, given: map<Id, string>, now: map<Id, string>) {
    && (forall l :: l in given ==> l in now && now[l] == given[l])
    && (forall k :: k in s.calls ==> k in u.calls && u.calls[k].name == s.calls[k].name)
    && forall n :: n in s.nodes ==>
         (n in u.nodes && u.nodes[n].run == s.nodes[n].run
          && u.nodes[n].ordinal == s.nodes[n].ordinal && u.nodes[n].dependencies == s.nodes[n].dependencies)
  }

  lemma PlanStays(s: State, u: State, run: string, given: map<Id, string>, now: map<Id, string>, l: Id, ordinal: int, name: string, deps: seq<Id>)
    requires PlansKept(s, u, given, now) && PlannedAs(s, run, given, l, ordinal, name, deps)
    ensures PlannedAs(u, run, now, l, ordinal, name, deps)
  {
    hide Durable;
    assert Renamed(deps, now) == Renamed(deps, given);
  }

  lemma PlanningKeepsPlans(nodes: seq<RawNode>, run: string, s: State, u: State, given: map<Id, string>, now: map<Id, string>)
    requires AllPlanned(nodes, run, s, u, given, now)
    ensures PlansKept(s, u, given, now)
    ensures forall i :: 0 <= i < |nodes| ==> PlannedAs(u, run, now, nodes[i].local, nodes[i].ordinal, nodes[i].name, nodes[i].deps)
  {
    hide NodeIs, OnlyNamed, BatchOf, Has, PlannedAs;
  }

  lemma PlansKeptOn(s: State, t: State, u: State, given: map<Id, string>, then_: map<Id, string>, now: map<Id, string>)
    requires PlansKept(s, t, given, then_) && PlansKept(t, u, then_, now)
    ensures PlansKept(s, u, given, now)
  {
  }

  /** Every new node is one that was given a name. */
  ghost predicate OnlyNamed(s: State, u: State, given: map<Id, string>, now: map<Id, string>) {
    forall n :: n in u.nodes && n !in s.nodes ==> NewName(given, now, n)
  }

  ghost predicate NewName(given: map<Id, string>, now: map<Id, string>, n: string) {
    exists l :: l in now && l !in given && now[l] == n
  }

  lemma BatchApart(nodes: seq<RawNode>, submitted: set<Id>)
    requires WellFormed(nodes, submitted)
    ensures submitted !! BatchOf(nodes).Keys
  {
    forall l | l in BatchOf(nodes) ensures l !in submitted { BatchHas(nodes, submitted, l); }
  }

  lemma QueueBegins(nodes: seq<RawNode>, ordered: seq<Id>, s: State, run: string, given: map<Id, string>)
    requires WellFormed(nodes, given.Keys) && DepsFirst(BatchOf(nodes), given.Keys, ordered)
    requires BatchRejection(BatchOf(nodes), NamesOf(nodes), s, run).None?
    ensures Queue(ordered, 0, BatchOf(nodes), NamesOf(nodes), s, run, given)
  {
    hide Durable, BatchOf, NamesOf;
    forall j | 0 <= j < |ordered|
      ensures ordered[j] !in given && ordered[j] in NamesOf(nodes) && NamesOf(nodes)[ordered[j]] != "" && BatchOf(nodes)[ordered[j]].ordinal >= 1
    {
      assert ordered[j] in ordered;
      BatchHas(nodes, given.Keys, ordered[j]);
    }
    assert forall j :: 0 <= j < |ordered| ==> ordered[j] in ordered;
  }

  lemma SameDistinct(nodes: seq<RawNode>, submitted: set<Id>, ordered: seq<Id>)
    requires WellFormed(nodes, submitted) && forall n :: n in ordered <==> n in BatchOf(nodes)
    ensures DepsDistinct(ordered, BatchOf(nodes), |ordered|) <==> forall i :: 0 <= i < |nodes| ==> Distinct(nodes[i].deps)
  {
    var batch := BatchOf(nodes);
    forall i | 0 <= i < |nodes| ensures nodes[i].local in ordered && batch[nodes[i].local].deps == nodes[i].deps {
      BatchEntry(nodes, submitted, i);
    }
    forall j | 0 <= j < |ordered| ensures exists i :: 0 <= i < |nodes| && nodes[i].deps == batch[ordered[j]].deps {
      assert ordered[j] in ordered;
      BatchHas(nodes, submitted, ordered[j]);
    }
    hide BatchOf, Distinct;
  }

  lemma AllPlannedFrom(nodes: seq<RawNode>, ordered: seq<Id>, run: string, s: State, u: State, given: map<Id, string>, now: map<Id, string>)
    requires PlannedSoFar(ordered, |ordered|, BatchOf(nodes), run, s, u, given, now) && WellFormed(nodes, given.Keys)
    requires forall n :: n in ordered <==> n in BatchOf(nodes)
    requires NamedSoFar(ordered, |ordered|, NamesOf(nodes), u, now)
    ensures AllPlanned(nodes, run, s, u, given, now)
  {
    hide *;
    EachPlannedAs(nodes, ordered, run, s, u, given, now);
    EachNodeIs(nodes, ordered, run, s, u, given, now);
    NowHas(nodes, ordered, run, s, u, given, now);
    AllTogether(nodes, ordered, run, s, u, given, now);
  }

  lemma NowHas(nodes: seq<RawNode>, ordered: seq<Id>, run: string, s: State, u: State, given: map<Id, string>, now: map<Id, string>)
    requires PlannedSoFar(ordered, |ordered|, BatchOf(nodes), run, s, u, given, now) && forall n :: n in ordered <==> n in BatchOf(nodes)
    ensures forall l :: l in now <==> l in given || Has(nodes, l)
  {
    BatchKeys(nodes);
    hide BatchOf, NamesOf, NodeIs, OnlyNamed, Has;
    assert ordered[..|ordered|] == ordered;
  }

  lemma AllTogether(nodes: seq<RawNode>, ordered: seq<Id>, run: string, s: State, u: State, given: map<Id, string>, now: map<Id, string>)
    requires PlannedSoFar(ordered, |ordered|, BatchOf(nodes), run, s, u, given, now)
    requires forall l :: l in now <==> l in given || Has(nodes, l)
    requires forall i :: 0 <= i < |nodes| ==> NodeIs(nodes[i].local, BatchOf(nodes), run, u, now)
    requires forall i :: 0 <= i < |nodes| ==> PlannedAs(u, run, now, nodes[i].local, nodes[i].ordinal, nodes[i].name, nodes[i].deps)
    ensures AllPlanned(nodes, run, s, u, given, now)
  {
    hide BatchOf, NamesOf, NodeIs, PlannedAs, OnlyNamed, Has;
  }

  lemma EachNodeIs(nodes: seq<RawNode>, ordered: seq<Id>, run: string, s: State, u: State, given: map<Id, string>, now: map<Id, string>)
    requires PlannedSoFar(ordered, |ordered|, BatchOf(nodes), run, s, u, given, now)
    requires forall n :: n in ordered <==> n in BatchOf(nodes)
    ensures forall i :: 0 <= i < |nodes| ==> NodeIs(nodes[i].local, BatchOf(nodes), run, u, now)
  {
    BatchKeys(nodes);
    hide BatchOf, NamesOf, NodeIs, OnlyNamed;
    forall i | 0 <= i < |nodes| ensures NodeIs(nodes[i].local, BatchOf(nodes), run, u, now) {
      assert Has(nodes, nodes[i].local);
      var j :| 0 <= j < |ordered| && ordered[j] == nodes[i].local;
    }
  }

  lemma EachPlannedAs(nodes: seq<RawNode>, ordered: seq<Id>, run: string, s: State, u: State, given: map<Id, string>, now: map<Id, string>)
    requires PlannedSoFar(ordered, |ordered|, BatchOf(nodes), run, s, u, given, now) && WellFormed(nodes, given.Keys)
    requires (forall n :: n in ordered <==> n in BatchOf(nodes)) && NamedSoFar(ordered, |ordered|, NamesOf(nodes), u, now)
    ensures forall i :: 0 <= i < |nodes| ==> PlannedAs(u, run, now, nodes[i].local, nodes[i].ordinal, nodes[i].name, nodes[i].deps)
  {
    hide *;
    forall i | 0 <= i < |nodes| ensures PlannedAs(u, run, now, nodes[i].local, nodes[i].ordinal, nodes[i].name, nodes[i].deps) {
      OnePlannedAs(nodes, ordered, run, s, u, given, now, i);
    }
  }

  lemma OnePlannedAs(nodes: seq<RawNode>, ordered: seq<Id>, run: string, s: State, u: State, given: map<Id, string>, now: map<Id, string>, i: nat)
    requires PlannedSoFar(ordered, |ordered|, BatchOf(nodes), run, s, u, given, now) && WellFormed(nodes, given.Keys)
    requires forall n :: n in ordered <==> n in BatchOf(nodes)
    requires NamedSoFar(ordered, |ordered|, NamesOf(nodes), u, now) && i < |nodes|
    ensures PlannedAs(u, run, now, nodes[i].local, nodes[i].ordinal, nodes[i].name, nodes[i].deps)
  {
    BatchEntry(nodes, given.Keys, i);
    hide BatchOf, NamesOf, Durable;
    var j :| 0 <= j < |ordered| && ordered[j] == nodes[i].local;
    assert NodeIs(ordered[j], BatchOf(nodes), run, u, now);
  }

  ghost predicate DepsDistinct(ordered: seq<Id>, batch: Graph, i: nat) {
    i <= |ordered| && forall j :: 0 <= j < i && ordered[j] in batch ==> Distinct(batch[ordered[j]].deps)
  }

  /** The nodes that are still to be planned: their names are free, and what they need is planned or earlier in the queue. */
  ghost predicate Queue(ordered: seq<Id>, i: nat, batch: Graph, names: map<Id, string>, s: State, run: string, given: map<Id, string>) {
    && i <= |ordered| && Distinct(ordered)
    && (forall j :: 0 <= j < |ordered| ==> ordered[j] in batch && ordered[j] in names && names[ordered[j]] != "" && batch[ordered[j]].ordinal >= 1)
    && (forall j :: 0 <= j < i ==> ordered[j] in given)
    && (forall j :: i <= j < |ordered| ==> ordered[j] !in given)
    && (forall j :: i <= j < |ordered| ==> Durable(run, batch[ordered[j]].ordinal) !in s.nodes && Durable(run, batch[ordered[j]].ordinal) !in s.calls)
    && (forall j, k :: 0 <= j < k < |ordered| ==> Durable(run, batch[ordered[j]].ordinal) != Durable(run, batch[ordered[k]].ordinal))
    && (forall j, d :: 0 <= j < |ordered| && d in batch[ordered[j]].deps ==> d in given || d in ordered[..j])
  }

  lemma QueueNext(ordered: seq<Id>, i: nat, batch: Graph, names: map<Id, string>, s: State, run: string, given: map<Id, string>)
    requires Queue(ordered, i, batch, names, s, run, given) && i < |ordered|
    ensures var n := ordered[i];
            && n in batch && n in names && names[n] != "" && batch[n].ordinal >= 1 && n !in given
            && Durable(run, batch[n].ordinal) !in s.nodes && Durable(run, batch[n].ordinal) !in s.calls
            && (forall d :: d in batch[n].deps ==> d in given)
  {
    hide Durable;
  }

  lemma QueueMoves(ordered: seq<Id>, i: nat, batch: Graph, names: map<Id, string>, s: State, u: State, run: string, given: map<Id, string>)
    requires Queue(ordered, i, batch, names, s, run, given) && i < |ordered| && run in s.runs && run in u.runs
    requires ordered[i] in batch && forall d :: d in batch[ordered[i]].deps ==> d in given
    requires NodeAdded(s, u, run, Durable(run, batch[ordered[i]].ordinal), batch[ordered[i]].ordinal, Renamed(batch[ordered[i]].deps, given))
    ensures Queue(ordered, i + 1, batch, names, u, run, given[ordered[i] := Durable(run, batch[ordered[i]].ordinal)])
  {
    hide Durable;
  }

  /** What was planned: each node under its new name, with its dependencies renamed; nothing older changed. */
  ghost predicate PlannedSoFar(ordered: seq<Id>, i: nat, batch: Graph, run: string, s: State, u: State,
                               given: map<Id, string>, now: map<Id, string>) {
    && i <= |ordered| && run in s.runs && run in u.runs
    && now.Keys == given.Keys + (set n | n in ordered[..i]) && (forall l :: l in given ==> now[l] == given[l])
    && (forall k :: k in s.calls ==> k in u.calls && u.calls[k] == s.calls[k])
    && (forall n :: n in s.nodes ==> n in u.nodes && u.nodes[n] == s.nodes[n])
    && (forall j :: 0 <= j < i ==> NodeIs(ordered[j], batch, run, u, now))
    && |u.runs[run].nodeIds| == |s.runs[run].nodeIds| + i && u.intent == s.intent
    && OnlyNamed(s, u, given, now) && u.created == s.created && u.active == s.active
  }

  /** The calls of the nodes planned so far ask for the tools that were named. */
  ghost predicate NamedSoFar(ordered: seq<Id>, i: nat, names: map<Id, string>, u: State, now: map<Id, string>) {
    i <= |ordered| && forall j :: 0 <= j < i ==>
      ordered[j] in names && ordered[j] in now && now[ordered[j]] in u.calls && u.calls[now[ordered[j]]].name == names[ordered[j]]
  }

  lemma NamedNone(ordered: seq<Id>, names: map<Id, string>, s: State, given: map<Id, string>)
    ensures NamedSoFar(ordered, 0, names, s, given)
  {
  }

  lemma NamedMore(ordered: seq<Id>, i: nat, names: map<Id, string>, t: State, u: State, given: map<Id, string>, now: map<Id, string>, run: string)
    requires i < |ordered| && NamedSoFar(ordered, i, names, t, given) && run in t.runs && run in u.runs
    requires ordered[i] in names && ordered[i] !in given && (forall l :: l in given ==> l in now && now[l] == given[l])
    requires exists id, ordinal, deps :: NodeAdded(t, u, run, id, ordinal, deps)
    requires ordered[i] in now && now[ordered[i]] in u.calls && u.calls[now[ordered[i]]].name == names[ordered[i]]
    ensures NamedSoFar(ordered, i + 1, names, u, now)
  {
  }

  ghost predicate NodeIs(n: Id, batch: Graph, run: string, u: State, now: map<Id, string>) {
    && n in batch && n in now && now[n] == Durable(run, batch[n].ordinal) && now[n] in u.nodes && now[n] in u.calls
    && (forall d :: d in batch[n].deps ==> d in now)
    && u.nodes[now[n]] == CodeNode(run, batch[n].ordinal, Renamed(batch[n].deps, now), Requested, [], [])
    && u.calls[now[n]].status.Requested? && u.calls[now[n]].approved.None?
  }

  lemma PlanBegins(ordered: seq<Id>, batch: Graph, run: string, s: State, given: map<Id, string>)
    requires run in s.runs
    ensures PlannedSoFar(ordered, 0, batch, run, s, s, given, given)
  {
  }

  lemma NodeStays(n: Id, batch: Graph, run: string, s: State, u: State, now: map<Id, string>, m: Id, id: string)
    requires NodeIs(n, batch, run, s, now) && m !in now
    requires (forall k :: k in s.calls ==> k in u.calls && u.calls[k] == s.calls[k])
    requires (forall k :: k in s.nodes ==> k in u.nodes && u.nodes[k] == s.nodes[k])
    ensures NodeIs(n, batch, run, u, now[m := id])
  {
    hide Durable;
    assert Renamed(batch[n].deps, now[m := id]) == Renamed(batch[n].deps, now);
  }

  lemma NodeBegins(n: Id, batch: Graph, run: string, s: State, u: State, now: map<Id, string>)
    requires n in batch && n !in now && (forall d :: d in batch[n].deps ==> d in now) && run in s.runs && run in u.runs
    requires NodeAdded(s, u, run, Durable(run, batch[n].ordinal), batch[n].ordinal, Renamed(batch[n].deps, now))
    ensures NodeIs(n, batch, run, u, now[n := Durable(run, batch[n].ordinal)])
  {
    hide Durable;
    assert Renamed(batch[n].deps, now[n := Durable(run, batch[n].ordinal)]) == Renamed(batch[n].deps, now);
  }

  lemma NamedGrows(s: State, t: State, u: State, given: map<Id, string>, now: map<Id, string>, l: Id, id: string)
    requires OnlyNamed(s, t, given, now) && u.nodes.Keys == t.nodes.Keys + {id} && l !in now && given.Keys <= now.Keys
    ensures OnlyNamed(s, u, given, now[l := id])
  {
    var then_ := now[l := id];
    forall n | n in u.nodes && n !in s.nodes ensures NewName(given, then_, n) {
      if n == id {
        assert then_[l] == n;
      } else {
        var m :| m in now && m !in given && now[m] == n;
        assert then_[m] == n;
      }
    }
  }

  lemma PlannedGrows(ordered: seq<Id>, i: nat, batch: Graph, run: string, s: State, t: State, u: State, given: map<Id, string>, now: map<Id, string>)
    requires PlannedSoFar(ordered, i, batch, run, s, t, given, now) && i < |ordered| && run in u.runs
    requires ordered[i] in batch && ordered[i] !in now && (forall d :: d in batch[ordered[i]].deps ==> d in now)
    requires NodeAdded(t, u, run, Durable(run, batch[ordered[i]].ordinal), batch[ordered[i]].ordinal, Renamed(batch[ordered[i]].deps, now))
    ensures PlannedSoFar(ordered, i + 1, batch, run, s, u, given, now[ordered[i] := Durable(run, batch[ordered[i]].ordinal)])
  {
    hide Durable, NodeIs, OnlyNamed;
    var n := ordered[i];
    var id := Durable(run, batch[n].ordinal);
    var then_ := now[n := id];
    NamedGrows(s, t, u, given, now, n, id);
    assert ordered[..i + 1] == ordered[..i] + [n];
    NodeBegins(n, batch, run, t, u, now);
    forall j | 0 <= j < i + 1 ensures NodeIs(ordered[j], batch, run, u, then_) {
      if j < i { NodeStays(ordered[j], batch, run, t, u, now, n, id); }
    }
    hide NodeIs;
  }

  /** What the reducer makes of a planned node whose dependencies were all submitted. */
  lemma PlanStep(s: State, run: string, names: map<Id, string>, spec: Spec, name: string, event: Event)
    requires MayPlan(s, run) && run != "" && Submitted(s, run, names) && spec.ordinal >= 1 && name != ""
    requires forall d :: d in spec.deps ==> d in names
    requires Durable(run, spec.ordinal) !in s.nodes && Durable(run, spec.ordinal) !in s.calls
    requires event == Event(s.lastSeq + 1, CodeNodePlanned(run, Durable(run, spec.ordinal), spec.ordinal, name, Renamed(spec.deps, names)))
    ensures var u := R.ApplyNodePlanned(s, event.seqNo, run, Durable(run, spec.ordinal), spec.ordinal, name, Renamed(spec.deps, names));
            && (u.Ok? <==> Distinct(spec.deps))
            && (u.Ok? ==> R.Step(s, event) == Ok(u.value.(lastSeq := event.seqNo)))
            && (u.Err? ==> R.Step(s, event).Err?)
            && (u.Ok? ==> MayPlan(u.value.(lastSeq := event.seqNo), run))
            && (u.Ok? ==> NodeAdded(s, u.value.(lastSeq := event.seqNo), run, Durable(run, spec.ordinal), spec.ordinal, Renamed(spec.deps, names)))
            && (u.Ok? ==> Durable(run, spec.ordinal) in u.value.calls && u.value.calls[Durable(run, spec.ordinal)].name == name)
  {
    hide Durable;
    RenamedDistinct(spec.deps, names);
    var deps := Renamed(spec.deps, names);
    forall d | d in deps ensures d in s.nodes && s.nodes[d].run == run {
      var i :| 0 <= i < |deps| && deps[i] == d;
      assert spec.deps[i] in spec.deps;
    }
    PlanAccepted(s, run, spec.ordinal, name, deps);
    hide R.ApplyNodePlanned, MayPlan, NodeAdded, R.HandleCallFact, R.HandleTurnFact, R.HandleOtherFact, Renamed;
  }

  lemma SubmittedGrows(s: State, u: State, run: string, names: map<Id, string>, n: Id, spec: Spec, deps: seq<string>)
    requires run in s.runs && run in u.runs && MayPlan(s, run) && Submitted(s, run, names) && n !in names
    requires Durable(run, spec.ordinal) !in s.nodes && NodeAdded(s, u, run, Durable(run, spec.ordinal), spec.ordinal, deps)
    ensures Submitted(u, run, names[n := Durable(run, spec.ordinal)])
  {
    hide Durable;
  }

  /** Names already given belong to distinct nodes of the run. */
  ghost predicate Submitted(s: State, run: string, names: map<Id, string>) {
    Injective(names) && run in s.runs && forall l :: l in names ==> names[l] in s.runs[run].nodeIds
  }

  /** The nodes of a run as a graph. */
  function GraphOf(s: State, run: string): Graph {
    map n | n in s.nodes && s.nodes[n].run == run :: Spec(s.nodes[n].ordinal, s.nodes[n].dependencies)
  }

  /** The nodes of a run are closed under dependencies and ranked by the order of planning. */
  lemma RunGraphRanked(s: State, run: string)
    requires I.Inv(s) && run in s.runs
    ensures exists rank :: Ranked(GraphOf(s, run), rank)
  {
    var ids, g := s.runs[run].nodeIds, GraphOf(s, run);
    assert I.RunsOk(s.nodes, s.runs) && I.NodesHome(s.nodes, s.runs);
    assert I.RunOk(s.nodes, run, s.runs[run]);
    hide I.Inv, I.RunsOk, IndexOf;
    OrderRanks(g, {}, ids);
    var rank :| RankedAbove(g, {}, rank);
    assert Ranked(g, rank);
  }
}
