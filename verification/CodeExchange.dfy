/**
 The parent's side of a run as one object: each request is planned, its closure driven to an end, and every act noted
 in the rollout, so that between two requests session, table and notes say the same.
 */
module CodeExchange {
  import opened Domain
  import opened CodeDag
  import opened DagScheduler
  import opened DagPlanning
  import opened GraphRuns
  import F = GraphFacts
  import I = ReducerInvariant
  import R = Reducer
  import Recovery
  import X = GraphExchange

  /** What the outside decides: written paths, refusals, results of bodies, and which calls are asked about. */
  datatype Config = Config(paths: map<Id, string>, refusals: map<Id, ToolStatus>, bodies: map<Id, Option<ToolStatus>>,
                           asks: set<Id>, writes: set<Id>, maxParallel: nat, cancellable: bool)

  predicate ConfigOk(c: Config) { c.maxParallel >= 1 && forall n :: n in c.refusals ==> RefusedAs(c.refusals[n]) }

  /** Session, table and notes of a run say the same, and none of its nodes is running. */
  ghost predicate Consistent(c: Config, s: State, run: string, t: Table, notes: seq<F.Note>, cancelled: bool) {
    var g := X.GraphOf(s, run);
    && LogOk(g, t, F.ActsIn(notes), c.maxParallel, c.paths) && AllCausesSound(g, t) && (cancelled ==> c.cancellable)
    && t.Keys == g.Keys && (!cancelled ==> AllAgree(g, c.refusals, c.bodies, t)) && NoneStarted(t) && FairEnds(c.refusals, cancelled, t)
    && F.Mirrors(s, g.Keys, notes) && F.Disciplined(notes) && DecidedActed(notes) && F.CausesNoted(s, t, notes)
  }

  ghost predicate AllEnded(t: Table) { forall n :: n in t ==> t[n].status.IsTerminal() }

  /** Every node of the request is a target or something that a target needs. */
  ghost predicate AllNeeded(nodes: seq<X.RawNode>, targets: seq<Id>) {
    forall i :: 0 <= i < |nodes| ==> NeededBy(X.BatchOf(nodes), targets, nodes[i].local)
  }

  // ----- Planning keeps everything consistent -----

  lemma PlannedSubgraph(nodes: seq<X.RawNode>, run: string, s: State, u: State, given: map<Id, string>, now: map<Id, string>)
    requires X.AllPlanned(nodes, run, s, u, given, now)
    ensures Subgraph(X.GraphOf(s, run), X.GraphOf(u, run))
  {
    hide X.NodeIs, X.OnlyNamed, X.BatchOf, X.Has;
  }

  /** A new node is one of the request, planned and unnoted. */
  lemma NewNodeIs(nodes: seq<X.RawNode>, run: string, s: State, u: State, given: map<Id, string>, now: map<Id, string>, n: Id) returns (i: nat)
    requires X.AllPlanned(nodes, run, s, u, given, now) && n in X.GraphOf(u, run) && n !in X.GraphOf(s, run)
    ensures i < |nodes| && nodes[i].local in now && now[nodes[i].local] == n && X.NodeIs(nodes[i].local, X.BatchOf(nodes), run, u, now)
  {
    hide X.NodeIs, X.BatchOf;
    assert n !in s.nodes;
    assert X.NewName(given, now, n);
    var l :| l in now && l !in given && now[l] == n;
    assert X.Has(nodes, l);
    i :| 0 <= i < |nodes| && nodes[i].local == l;
  }

  lemma Unnoted(t: Table, notes: seq<F.Note>, n: Id)
    requires LogMatches(t, F.ActsIn(notes)) && DecidedActed(notes) && n !in t
    ensures F.StatusIn(F.ActsIn(notes), n).Requested? && F.DecisionIn(notes, n).None?
  {
    F.NotMentioned(F.ActsIn(notes), n);
  }

  lemma PlannedMirrors(nodes: seq<X.RawNode>, run: string, s: State, u: State, given: map<Id, string>, now: map<Id, string>,
                       t: Table, notes: seq<F.Note>)
    requires X.AllPlanned(nodes, run, s, u, given, now) && F.Mirrors(s, X.GraphOf(s, run).Keys, notes)
    requires t.Keys == X.GraphOf(s, run).Keys && LogMatches(t, F.ActsIn(notes)) && DecidedActed(notes)
    ensures F.Mirrors(u, X.GraphOf(u, run).Keys, notes)
  {
    hide LogMatches, DecidedActed, F.StatusIn, F.DecisionIn, F.ActsIn, X.OnlyNamed, X.BatchOf, X.Durable;
    forall n | n in X.GraphOf(u, run)
      ensures n in u.nodes && n in u.calls && u.calls[n].approved == F.DecisionIn(notes, n) && u.calls[n].status == F.StatusIn(F.ActsIn(notes), n)
    {
      if n !in X.GraphOf(s, run) {
        var i := NewNodeIs(nodes, run, s, u, given, now, n);
        Unnoted(t, notes, n);
      }
    }
  }

  lemma GrownNotStarted(g: Graph, t: Table)
    requires NoneStarted(t)
    ensures NoneStarted(Grown(g, t))
  {
  }

  lemma AllAgreeGrows(c: Config, s: State, u: State, run: string, t: Table)
    requires I.Inv(s) && run in s.runs && Subgraph(X.GraphOf(s, run), X.GraphOf(u, run))
    requires t.Keys == X.GraphOf(s, run).Keys && AllAgree(X.GraphOf(s, run), c.refusals, c.bodies, t)
    ensures AllAgree(X.GraphOf(u, run), c.refusals, c.bodies, Grown(X.GraphOf(u, run), t))
  {
    X.RunGraphRanked(s, run);
    hide I.Inv, Ranked, Agrees, OwnOf, X.GraphOf, Subgraph, Eval;
    var g, more := X.GraphOf(s, run), X.GraphOf(u, run);
    var rank :| Ranked(g, rank);
    assert OwnOf(more, c.refusals, c.bodies).Keys == more.Keys by { OwnKeys(more, c.refusals, c.bodies); }
    forall higher | Ranked(more, higher) ensures Agrees(more, higher, OwnOf(more, c.refusals, c.bodies), Grown(more, t)) {
      AgreesGrows(g, rank, more, higher, c.refusals, c.bodies, t);
    }
  }

  lemma GrownFair(refusals: map<Id, ToolStatus>, cancelled: bool, g: Graph, t: Table)
    requires FairEnds(refusals, cancelled, t)
    ensures FairEnds(refusals, cancelled, Grown(g, t))
  {
    hide FairEnd;
  }

  lemma OwnKeys(g: Graph, refusals: map<Id, ToolStatus>, bodies: map<Id, Option<ToolStatus>>)
    ensures OwnOf(g, refusals, bodies).Keys == g.Keys
  {
  }

  lemma PlanningKeeps(c: Config, nodes: seq<X.RawNode>, run: string, s: State, u: State, given: map<Id, string>, now: map<Id, string>,
                      t: Table, notes: seq<F.Note>, cancelled: bool)
    requires I.Inv(s) && run in s.runs && Consistent(c, s, run, t, notes, cancelled) && X.AllPlanned(nodes, run, s, u, given, now)
    ensures Consistent(c, u, run, Grown(X.GraphOf(u, run), t), notes, cancelled)
  {
    PlannedSubgraph(nodes, run, s, u, given, now);
    PlannedMirrors(nodes, run, s, u, given, now, t, notes);
    hide I.Inv, X.AllPlanned, X.GraphOf, LogMatches, StartsReady, OnceEach, LegalMoves, AlwaysWithinLimits, AllCausesSound, AllAgree,
         F.Mirrors, F.Disciplined, DecidedActed, NoneStarted, Subgraph;
    var g, more := X.GraphOf(s, run), X.GraphOf(u, run);
    LogGrows(g, more, t, F.ActsIn(notes), c.maxParallel, c.paths);
    CausesGrow(g, more, t);
    GrownNotStarted(more, t);
    GrownFair(c.refusals, cancelled, more, t);
    if !cancelled { AllAgreeGrows(c, s, u, run, t); }
    PlannedCauses(nodes, run, s, u, given, now, t, notes);
    hide LogOk, F.CausesNoted;
  }

  lemma PlannedCauses(nodes: seq<X.RawNode>, run: string, s: State, u: State, given: map<Id, string>, now: map<Id, string>,
                      t: Table, notes: seq<F.Note>)
    requires X.AllPlanned(nodes, run, s, u, given, now) && F.CausesNoted(s, t, notes) && t.Keys <= X.GraphOf(u, run).Keys
    ensures F.CausesNoted(u, Grown(X.GraphOf(u, run), t), notes)
  {
    hide X.GraphOf, X.OnlyNamed, X.PlannedAs, X.NodeIs, X.BatchOf, F.Ends;
    forall j, n | 0 <= j < |notes| && F.Ends(notes[j], n) ensures F.CausesGiven(u, Grown(X.GraphOf(u, run), t), n) {
      assert F.CausesGiven(s, t, n);
    }
  }

  // ----- Noting keeps everything consistent -----

  lemma FramedGraph(s: State, u: State, run: string)
    requires F.Framed(s, u)
    ensures X.GraphOf(u, run) == X.GraphOf(s, run)
  {
  }

  lemma FramedKeepsPlans(s: State, u: State, names: map<Id, string>)
    requires F.Framed(s, u)
    ensures X.PlansKept(s, u, names, names)
  {
  }

  lemma FramedPlans(s: State, u: State, run: string, names: map<Id, string>)
    requires F.Framed(s, u) && X.MayPlan(s, run) && X.Submitted(s, run, names)
    ensures X.MayPlan(u, run) && X.Submitted(u, run, names)
  {
    hide X.Durable, X.Injective;
  }

  lemma DrivingKeeps(c: Config, s: State, u: State, run: string, t: Table, notes: seq<F.Note>, cancelled: bool, rank: map<Id, nat>)
    requires F.Framed(s, u) && LogOk(X.GraphOf(s, run), t, F.ActsIn(notes), c.maxParallel, c.paths)
    requires AllCausesSound(X.GraphOf(s, run), t) && (cancelled ==> c.cancellable) && NoneStarted(t)
    requires Ranked(X.GraphOf(s, run), rank) && t.Keys == X.GraphOf(s, run).Keys
    requires !cancelled ==> Agrees(X.GraphOf(s, run), rank, OwnOf(X.GraphOf(s, run), c.refusals, c.bodies), t)
    requires F.Mirrors(u, X.GraphOf(s, run).Keys, notes) && F.Disciplined(notes) && DecidedActed(notes) && FairEnds(c.refusals, cancelled, t)
    requires F.CausesNoted(u, t, notes)
    ensures Consistent(c, u, run, t, notes, cancelled)
  {
    FramedGraph(s, u, run);
    hide X.GraphOf, LogOk, AllCausesSound, F.Mirrors, F.Disciplined, DecidedActed, NoneStarted, F.Framed, F.CausesNoted, Agrees, AllAgree, Ranked;
    if !cancelled { AgreesForAll(X.GraphOf(s, run), rank, c.refusals, c.bodies, t); }
  }

  lemma EmptyLog(limit: nat, paths: map<Id, string>)
    ensures LogOk(map[], map[], [], limit, paths) && AllCausesSound(map[], map[])
  {
    NothingStarted(map[], map[], map[], map[], limit, paths);
  }

  lemma NoNodes(s: State, run: string)
    requires I.Inv(s) && run in s.runs && s.runs[run].nodeIds == []
    ensures X.GraphOf(s, run) == map[]
  {
    assert I.NodesHome(s.nodes, s.runs);
  }

  /** Nothing but the run's own start: no node, no note. */
  lemma NothingYet(c: Config, s: State, run: string)
    requires I.Inv(s) && s.created && s.intent.None? && s.active.Some? && run in s.runs && s.runs[run].nodeIds == []
    ensures Consistent(c, s, run, map[], [], false)
  {
    NoNodes(s, run);
    EmptyLog(c.maxParallel, c.paths);
    hide I.Inv, LogOk, AllCausesSound, X.GraphOf;
  }

  // ----- The scheduler goes on -----

  /** What a scheduler may take over, and what it leaves. */
  ghost predicate Takeable(c: Config, g: Graph, rank: map<Id, nat>, t: Table, acts: seq<Act>, cancelled: bool) {
    && Ranked(g, rank) && LogOk(g, t, acts, c.maxParallel, c.paths) && AllCausesSound(g, t) && t.Keys == g.Keys && NoneStarted(t)
    && (cancelled ==> c.cancellable) && (!cancelled ==> Agrees(g, rank, OwnOf(g, c.refusals, c.bodies), t))
    && FairEnds(c.refusals, cancelled, t)
  }

  /** A scheduler over a graph that has been run in part, driven until a closed set of nodes has ended. */
  method RunScheduler(c: Config, g: Graph, ghost rank: map<Id, nat>, before: Table, acts: seq<Act>, cancelled: bool, relevant: set<Id>)
    returns (interrupted: bool, t: Table, log: seq<Act>, stopped: bool)
    requires ConfigOk(c) && Takeable(c, g, rank, before, acts, cancelled) && ClosedUnder(g, relevant)
    ensures Takeable(c, g, rank, t, log, stopped) && acts <= log && (cancelled ==> stopped)
    ensures Moved(before, t, relevant) && (interrupted ==> stopped)
    ensures !interrupted ==> forall n :: n in relevant ==> n in t && t[n].status.IsTerminal()
    ensures !stopped ==> forall n :: n in relevant ==> EndsAsTold(g, c.refusals, c.bodies, t, n)
  {
    hide LogOk, FairEnds, AllCausesSound, Agrees, Ranked, NoneStarted, Moved, ClosedUnder, RefusedAs, OwnOf, EndsAsTold;
    var sched := new CodeDagScheduler.Continue(g, c.paths, c.refusals, c.bodies, c.maxParallel, c.cancellable, cancelled, rank, before, acts);
    interrupted := sched.ExecuteClosure(relevant);
    sched.Facts();
    t, log, stopped := sched.table, sched.log, sched.cancelled;
  }

  lemma TakeableNow(c: Config, s: State, run: string, t: Table, notes: seq<F.Note>, cancelled: bool, rank: map<Id, nat>)
    requires Consistent(c, s, run, t, notes, cancelled) && Ranked(X.GraphOf(s, run), rank)
    ensures Takeable(c, X.GraphOf(s, run), rank, t, F.ActsIn(notes), cancelled)
    ensures F.Mirrors(s, X.GraphOf(s, run).Keys, notes) && F.Disciplined(notes) && DecidedActed(notes)
  {
    hide LogOk, FairEnds, AllCausesSound, Agrees, Ranked, NoneStarted, F.Mirrors, F.Disciplined, DecidedActed, X.GraphOf, OwnOf;
  }

  lemma NewActs(c: Config, g: Graph, rank: map<Id, nat>, t: Table, acts: seq<Act>, log: seq<Act>, cancelled: bool)
    requires Takeable(c, g, rank, t, log, cancelled) && acts <= log
    ensures log == acts + log[|acts|..] && LegalMoves(log) && OnceEach(log)
    ensures forall j :: 0 <= j < |log[|acts|..]| ==> log[|acts|..][j].id in g.Keys
  {
    hide StartsReady, LegalMoves, OnceEach, AlwaysWithinLimits, AllCausesSound, Agrees, Ranked, NoneStarted;
    assert LogMatches(t, log);
  }

  lemma StillConsistent(c: Config, s: State, u: State, run: string, t: Table, notes: seq<F.Note>, cancelled: bool, rank: map<Id, nat>)
    requires F.Framed(s, u) && Takeable(c, X.GraphOf(s, run), rank, t, F.ActsIn(notes), cancelled)
    requires F.Mirrors(u, X.GraphOf(s, run).Keys, notes) && F.Disciplined(notes) && DecidedActed(notes)
    requires F.CausesNoted(u, t, notes)
    ensures Consistent(c, u, run, t, notes, cancelled)
  {
    hide LogOk, FairEnds, AllCausesSound, Agrees, Ranked, NoneStarted, F.Mirrors, F.Disciplined, DecidedActed, F.CausesNoted,
      X.GraphOf, F.Framed, Consistent, OwnOf;
    DrivingKeeps(c, s, u, run, t, notes, cancelled, rank);
  }

  // ----- What a request gets -----

  lemma TargetsNamed(nodes: seq<X.RawNode>, targets: seq<Id>, submitted: set<Id>, maxNodes: nat, run: string, s: State, u: State,
                     given: map<Id, string>, now: map<Id, string>)
    requires X.Acceptable(nodes, targets, given.Keys, s, run, maxNodes) && X.AllPlanned(nodes, run, s, u, given, now)
    ensures forall t :: t in targets ==> t in now
  {
    X.BatchKeys(nodes);
    hide X.BatchOf, X.WellFormed, X.BatchRejection, X.NodeIs, X.OnlyNamed, RankedAbove, X.Has;
  }

  /** Names given to nodes are names of nodes of the run. */
  lemma NamesAreNodes(s: State, run: string, names: map<Id, string>)
    requires I.Inv(s) && X.Submitted(s, run, names)
    ensures forall l :: l in names ==> names[l] in X.GraphOf(s, run)
  {
    assert I.RunOk(s.nodes, run, s.runs[run]);
    hide I.Inv, X.Injective;
  }

  /** The renaming of a chain of dependencies is one. */
  lemma LeadsRenamed(nodes: seq<X.RawNode>, run: string, u: State, now: map<Id, string>, path: seq<Id>) returns (renamed: seq<Id>)
    requires Leads(X.BatchOf(nodes), path) && forall l :: l in X.BatchOf(nodes) ==> X.NodeIs(l, X.BatchOf(nodes), run, u, now)
    ensures |renamed| == |path| && Leads(X.GraphOf(u, run), renamed)
    ensures path[0] in now && renamed[0] == now[path[0]] && path[|path| - 1] in now && renamed[|renamed| - 1] == now[path[|path| - 1]]
  {
    hide X.BatchOf, X.Durable;
    var batch, g := X.BatchOf(nodes), X.GraphOf(u, run);
    renamed := seq(|path|, i requires 0 <= i < |path| => now[path[i]]);
    forall i | 0 <= i < |renamed| ensures renamed[i] in g {
      assert path[i] in batch && X.NodeIs(path[i], batch, run, u, now);
    }
    forall i | 0 <= i < |renamed| - 1 ensures renamed[i + 1] in g[renamed[i]].deps {
      assert X.NodeIs(path[i], batch, run, u, now) && path[i + 1] in batch[path[i]].deps;
      RenamedHas(batch[path[i]].deps, now, path[i + 1]);
    }
  }

  lemma RenamedHas(deps: seq<Id>, names: map<Id, string>, d: Id)
    requires (forall x :: x in deps ==> x in names) && d in deps
    ensures d in names && names[d] in X.Renamed(deps, names)
  {
    var j :| 0 <= j < |deps| && deps[j] == d;
    assert X.Renamed(deps, names)[j] == names[d];
  }

  /** What a target needs in the request, its node needs in the run. */
  lemma NeededRenamed(nodes: seq<X.RawNode>, targets: seq<Id>, run: string, u: State, now: map<Id, string>, l: Id)
    requires forall k :: k in X.BatchOf(nodes) ==> X.NodeIs(k, X.BatchOf(nodes), run, u, now)
    requires (forall t :: t in targets ==> t in now) && NeededBy(X.BatchOf(nodes), targets, l)
    ensures l in now && NeededBy(X.GraphOf(u, run), X.Renamed(targets, now), now[l])
  {
    hide X.BatchOf, X.Durable, Leads, X.Renamed;
    var batch, g, ids := X.BatchOf(nodes), X.GraphOf(u, run), X.Renamed(targets, now);
    var t :| t in targets && t in batch && (t == l || Ancestor(batch, t, l));
    assert X.NodeIs(t, batch, run, u, now) && X.NodeIs(l, batch, run, u, now);
    RenamedHas(targets, now, t);
    if t != l {
      var path :| Leads(batch, path) && |path| > 1 && path[0] == t && path[|path| - 1] == l;
      var renamed := LeadsRenamed(nodes, run, u, now, path);
      assert Ancestor(g, now[t], now[l]);
    }
  }

  lemma AllNodesAre(nodes: seq<X.RawNode>, run: string, s: State, u: State, given: map<Id, string>, now: map<Id, string>)
    requires X.AllPlanned(nodes, run, s, u, given, now)
    ensures forall k :: k in X.BatchOf(nodes) ==> X.NodeIs(k, X.BatchOf(nodes), run, u, now)
  {
    X.BatchKeys(nodes);
    hide X.BatchOf, X.NodeIs, X.OnlyNamed;
    forall k | k in X.BatchOf(nodes) ensures X.NodeIs(k, X.BatchOf(nodes), run, u, now) {
      var i :| 0 <= i < |nodes| && nodes[i].local == k;
    }
  }

  /** When all that was there has ended, and all that is new is driven to an end, everything has. */
  lemma EverythingEnded(nodes: seq<X.RawNode>, run: string, s: State, u: State, given: map<Id, string>, now: map<Id, string>,
                        before: Table, t: Table, relevant: set<Id>)
    requires X.AllPlanned(nodes, run, s, u, given, now) && before.Keys == X.GraphOf(s, run).Keys && AllEnded(before)
    requires Moved(Grown(X.GraphOf(u, run), before), t, relevant)
    requires forall n :: n in relevant ==> n in t && t[n].status.IsTerminal()
    requires forall i :: 0 <= i < |nodes| ==> nodes[i].local in now && now[nodes[i].local] in relevant
    ensures AllEnded(t)
  {
    hide X.AllPlanned, X.GraphOf;
    forall n | n in t ensures t[n].status.IsTerminal() {
      if n !in before { var i := NewNodeIs(nodes, run, s, u, given, now, n); }
    }
  }

  /** The answer to a request: ended nodes under their own names, among them all targets. */
  ghost predicate Answers(results: map<Id, ToolStatus>, targets: seq<Id>, names: map<Id, string>, t: Table) {
    && (forall l :: l in results ==> l in names && names[l] in t && t[names[l]].status == results[l] && results[l].IsTerminal())
    && forall l :: l in targets ==> l in results
  }

  lemma AnswersAll(results: map<Id, ToolStatus>, targets: seq<Id>, names: map<Id, string>, t: Table, g: Graph, relevant: set<Id>)
    requires (forall l :: l in targets ==> l in names) && t.Keys == g.Keys && relevant <= g.Keys
    requires (forall n :: n in relevant ==> n in t && t[n].status.IsTerminal()) && forall m :: m in relevant <==> NeededBy(g, X.Renamed(targets, names), m)
    requires forall l :: l in names ==> names[l] in g
    requires results == map l | l in names && names[l] in relevant :: t[names[l]].status
    ensures Answers(results, targets, names, t)
  {
    hide Ancestor, X.Renamed;
    forall l | l in targets ensures l in results {
      RenamedHas(targets, names, l);
      assert NeededBy(g, X.Renamed(targets, names), names[l]);
    }
  }

  lemma PlannedNames(nodes: seq<X.RawNode>, run: string, s: State, u: State, given: map<Id, string>, now: map<Id, string>)
    requires X.AllPlanned(nodes, run, s, u, given, now)
    ensures forall l :: l in now <==> l in given || X.Has(nodes, l)
  {
    hide X.NodeIs, X.BatchOf, X.OnlyNamed, X.Has;
  }

  lemma NeededIn(nodes: seq<X.RawNode>, targets: seq<Id>, run: string, u: State, now: map<Id, string>, relevant: set<Id>)
    requires AllNeeded(nodes, targets) && forall k :: k in X.BatchOf(nodes) ==> X.NodeIs(k, X.BatchOf(nodes), run, u, now)
    requires forall t :: t in targets ==> t in now
    requires forall m :: m in relevant <==> NeededBy(X.GraphOf(u, run), X.Renamed(targets, now), m)
    ensures forall i :: 0 <= i < |nodes| ==> nodes[i].local in now && now[nodes[i].local] in relevant
  {
    hide NeededBy, X.NodeIs, X.BatchOf, X.GraphOf, X.Renamed;
    forall i | 0 <= i < |nodes| ensures nodes[i].local in now && now[nodes[i].local] in relevant {
      NeededRenamed(nodes, targets, run, u, now, nodes[i].local);
    }
  }

  // ----- The exchange -----

  /** What has ended stays as it ended. */
  ghost predicate EndedStay(before: Table, t: Table) {
    forall n :: n in before && before[n].status.IsTerminal() ==> n in t && t[n] == before[n]
  }

  /** A graph that has been run to its end without a cancellation. */
  lemma TakenAsTold(c: Config, g: Graph, rank: map<Id, nat>, t: Table, acts: seq<Act>)
    requires Takeable(c, g, rank, t, acts, false) && AllEnded(t)
    ensures forall n :: n in g ==> EndsAsTold(g, c.refusals, c.bodies, t, n)
  {
    hide LogOk, FairEnds, AllCausesSound, Agrees, EndsAsTold, NoneStarted, OwnOf;
    EndedAsTold(g, rank, c.refusals, c.bodies, t, g.Keys);
  }

  lemma {:induction false} NotedActs(notes: seq<F.Note>, j: nat)
    requires j < |notes| && notes[j].Did?
    ensures notes[j].act in F.ActsIn(notes)
  {
    if j < |notes| - 1 {
      NotedActs(notes[..|notes| - 1], j);
      assert notes[..|notes| - 1][j] == notes[j];
    }
  }

  /** What has ended stays as it is, so its causes are still noted. */
  lemma CausesCarry(c: Config, s: State, run: string, before: Table, t: Table, notes: seq<F.Note>, cancelled: bool, relevant: set<Id>)
    requires Consistent(c, s, run, before, notes, cancelled) && Moved(before, t, relevant)
    ensures F.CausesNoted(s, t, notes) && t.Keys == X.GraphOf(s, run).Keys
  {
    assert LogMatches(before, F.ActsIn(notes));
    hide X.GraphOf, LogOk, FairEnds, AllCausesSound, AllAgree, F.Mirrors, F.Disciplined, DecidedActed, NoneStarted, F.ActsIn;
    forall j, n | 0 <= j < |notes| && F.Ends(notes[j], n) ensures F.CausesGiven(s, t, n) {
      assert F.CausesGiven(s, before, n);
      NotedActs(notes, j);
      var i :| 0 <= i < |F.ActsIn(notes)| && F.ActsIn(notes)[i] == notes[j].act;
      assert before[n].status.IsTerminal();
    }
  }

  // ----- Why nodes failed, as the session shows it -----

  predicate Unsuccessful(s: State, n: Id) { n in s.nodes && s.nodes[n].status.IsTerminal() && !s.nodes[n].status.IsSuccess() }

  /**
   A node that failed upstream names as blockers direct dependencies that have failed, and as roots failed nodes that it
   depends on and that are not themselves blocked; every other ended node names none.
   */
  ghost predicate CausesShown(s: State, run: string, n: Id)
    requires n in s.nodes
  {
    if s.nodes[n].status.UpstreamFailed? then
      && s.nodes[n].blockedBy != [] && s.nodes[n].rootFailures != []
      && (forall b :: b in s.nodes[n].blockedBy ==> b in s.nodes[n].dependencies && Unsuccessful(s, b))
      && (forall r :: r in s.nodes[n].rootFailures ==>
            Ancestor(X.GraphOf(s, run), n, r) && Unsuccessful(s, r) && !s.nodes[r].status.UpstreamFailed?)
    else s.nodes[n].blockedBy == [] && s.nodes[n].rootFailures == []
  }

  lemma {:induction false} ActNoted(notes: seq<F.Note>, a: Act) returns (j: nat)
    requires a in F.ActsIn(notes)
    ensures j < |notes| && notes[j].Did? && notes[j].act == a
  {
    if notes[|notes| - 1].Did? && notes[|notes| - 1].act == a {
      j := |notes| - 1;
    } else {
      j := ActNoted(notes[..|notes| - 1], a);
    }
  }

  /** Of every ended node the session has the status and the causes in the table. */
  lemma EndedIsShown(c: Config, s: State, run: string, t: Table, notes: seq<F.Note>, cancelled: bool, n: Id)
    requires I.Inv(s) && Consistent(c, s, run, t, notes, cancelled) && n in t
    ensures n in s.nodes && s.nodes[n].status == t[n].status
    ensures t[n].status.IsTerminal() ==> F.CausesGiven(s, t, n)
  {
    assert LogMatches(t, F.ActsIn(notes)) && I.MirrorOk(s.calls, s.nodes);
    hide I.Inv, X.GraphOf, AllCausesSound, AllAgree, FairEnds, F.Disciplined, DecidedActed, NoneStarted, F.ActsIn, F.StatusIn, StartsReady,
         AlwaysWithinLimits, LegalMoves, OnceEach;
    F.StatusMatches(t, F.ActsIn(notes), n);
    if t[n].status.IsTerminal() {
      var j := ActNoted(notes, Finish(n, t[n].status));
      assert F.Ends(notes[j], n);
    }
  }

  lemma CausesAreShown(c: Config, s: State, run: string, t: Table, notes: seq<F.Note>, cancelled: bool, n: Id)
    requires I.Inv(s) && Consistent(c, s, run, t, notes, cancelled) && n in t && t[n].status.IsTerminal()
    ensures n in s.nodes && CausesShown(s, run, n)
  {
    hide *;
    EndedIsShown(c, s, run, t, notes, cancelled, n);
    forall m | m in t ensures m in s.nodes && s.nodes[m].status == t[m].status { EndedIsShown(c, s, run, t, notes, cancelled, m); }
    SoundCauses(c, s, run, t, notes, cancelled, n);
    ShownBy(s, run, t, n);
  }

  lemma SoundCauses(c: Config, s: State, run: string, t: Table, notes: seq<F.Note>, cancelled: bool, n: Id)
    requires Consistent(c, s, run, t, notes, cancelled) && n in t
    ensures n in X.GraphOf(s, run) && CausesSound(X.GraphOf(s, run), t, n)
  {
    hide X.GraphOf, LogOk, CausesSound, AllAgree, FairEnds, F.Mirrors, F.Disciplined, DecidedActed, NoneStarted, F.CausesNoted;
  }

  lemma ShownBy(s: State, run: string, t: Table, n: Id)
    requires n in X.GraphOf(s, run) && n in t && CausesSound(X.GraphOf(s, run), t, n) && F.CausesGiven(s, t, n)
    requires forall m :: m in t ==> m in s.nodes && s.nodes[m].status == t[m].status
    ensures CausesShown(s, run, n)
  {
    hide Ancestor;
  }

  lemma EndedStayed(before: Table, g: Graph, t: Table, relevant: set<Id>)
    requires Moved(Grown(g, before), t, relevant) && before.Keys <= g.Keys
    ensures EndedStay(before, t)
  {
  }

  class Exchange {
    const session: X.GraphSession
    const config: Config
    var table: Table
    var notes: seq<F.Note>
    var cancelled: bool

    ghost predicate Ready()
      reads this, session, session.session
    {
      && session.Valid() && ConfigOk(config)
      && Consistent(config, session.session.Abs(), session.run, table, notes, cancelled)
    }

    constructor (session: X.GraphSession, config: Config)
      requires session.Valid() && ConfigOk(config) && session.session.intent.None?
      requires session.session.runs[session.run].nodeIds == []
      ensures Ready() && AllEnded(table) && this.session == session && this.config == config && !cancelled
    {
      this.session, this.config := session, config;
      table, notes, cancelled := map[], [], false;
      new;
      this.session.Reachable();
      hide I.Inv, Consistent, X.Submitted, R.Replay;
      NothingYet(this.config, this.session.session.Abs(), this.session.run);
    }

    /** Take a request: it is rejected as it is, or planned as a whole. */
    method PlanRequest(nodes: seq<X.RawNode>, targets: seq<Id>) returns (outcome: X.Submission)
      requires Ready()
      modifies this, session, session.session
      ensures outcome.Rejected? <==>
        !X.Acceptable(nodes, targets, old(session.localToDurable).Keys, old(session.session.Abs()), session.run, session.maxNodes)
      ensures outcome.Rejected? ==> Ready() && table == old(table) && notes == old(notes) && session.log == old(session.log)
      ensures outcome.Rejected? ==> session.localToDurable == old(session.localToDurable) && session.session.Abs() == old(session.session.Abs())
      ensures outcome.Planned? <==> !outcome.Rejected? && forall i :: 0 <= i < |nodes| ==> Distinct(nodes[i].deps)
      ensures outcome.Refused? ==> R.Replay(EMPTY, session.log).Err?
      ensures outcome.Planned? ==> Ready() && table == Grown(X.GraphOf(session.session.Abs(), session.run), old(table))
      ensures outcome.Planned? ==> X.AllPlanned(nodes, session.run, old(session.session.Abs()), session.session.Abs(),
                                                old(session.localToDurable), session.localToDurable)
      ensures cancelled == old(cancelled)
    {
      hide *;
      ghost var s, given := session.session.Abs(), session.localToDurable;
      Parts();
      session.Reachable();
      RunIsThere();
      outcome := session.Submit(nodes, targets);
      if outcome.Planned? {
        PlanningKeeps(config, nodes, session.run, s, session.session.Abs(), given, session.localToDurable, table, notes, cancelled);
        table := Grown(X.GraphOf(session.session.Abs(), session.run), table);
      }
      if !outcome.Refused? { ReadyNow(); }
    }

    lemma Parts()
      requires Ready()
      ensures session.Valid() && ConfigOk(config)
      ensures Consistent(config, session.session.Abs(), session.run, table, notes, cancelled)
    {
      hide Consistent, ConfigOk;
    }

    lemma ReadyNow()
      requires session.Valid() && ConfigOk(config)
      requires Consistent(config, session.session.Abs(), session.run, table, notes, cancelled)
      ensures Ready()
    {
      hide Consistent, ConfigOk;
    }

    lemma RunIsThere()
      requires session.Valid()
      ensures session.run in session.session.Abs().runs && session.session.Abs().runs[session.run].status.RunActive?
    {
      hide R.Replay;
    }

    /** Append the facts of the notes after `done`. */
    method Record(t: Table, done: seq<F.Note>, more: seq<F.Note>, ghost ids: set<Id>)
      requires session.Valid() && F.Mirrors(session.session.Abs(), ids, done)
      requires LegalMoves(F.ActsIn(done + more)) && OnceEach(F.ActsIn(done + more)) && F.Disciplined(done + more)
      requires (forall j :: 0 <= j < |more| ==> F.NoteIn(more[j], ids)) && ids <= t.Keys && F.CausesNoted(session.session.Abs(), t, done)
      modifies session, session.session
      ensures session.Valid() && F.Mirrors(session.session.Abs(), ids, done + more) && F.CausesNoted(session.session.Abs(), t, done + more)
      ensures F.Framed(old(session.session.Abs()), session.session.Abs()) && session.localToDurable == old(session.localToDurable)
    {
      ghost var s := session.session.Abs();
      session.Reachable();
      hide I.Inv, F.Mirrors, F.ActsIn, F.Disciplined, F.NoteIn, F.FactOf, LegalMoves, OnceEach, Recovery.AppendAll, R.Replay, R.Step,
           X.MayPlan, X.Submitted, F.Framed, F.FactsOf, F.CausesNoted;
      NoFacts(s, t);
      assert more[..0] == [];
      for i := 0 to |more|
        invariant R.Replay(EMPTY, session.log) == Ok(session.session.Abs())
        invariant Recovery.AppendAll(s, F.FactsOf(t, more[..i])) == Ok(session.session.Abs())
        invariant session.localToDurable == old(session.localToDurable)
      {
        NextFactAccepted(s, t, done, more, i, ids);
        var refusal := session.Append(F.FactOf(t, more[i]));
      }
      assert more[..|more|] == more;
      F.NotesAccepted(s, t, ids, done, more);
      F.NotesCauses(s, t, ids, done, more);
      FramedPlans(s, session.session.Abs(), session.run, session.localToDurable);
    }

    lemma NoFacts(s: State, t: Table)
      ensures Recovery.AppendAll(s, F.FactsOf(t, [])) == Ok(s)
    {
    }

    lemma NextFactAccepted(s: State, t: Table, done: seq<F.Note>, more: seq<F.Note>, i: nat, ids: set<Id>)
      requires i < |more| && I.Inv(s) && F.Mirrors(s, ids, done) && Recovery.AppendAll(s, F.FactsOf(t, more[..i])).Ok?
      requires LegalMoves(F.ActsIn(done + more)) && OnceEach(F.ActsIn(done + more)) && F.Disciplined(done + more)
      requires forall j :: 0 <= j < |more| ==> F.NoteIn(more[j], ids)
      ensures var a := Recovery.Append(Recovery.AppendAll(s, F.FactsOf(t, more[..i])).value, F.FactOf(t, more[i]));
              a.Ok? && Recovery.AppendAll(s, F.FactsOf(t, more[..i + 1])) == a
      ensures !F.FactOf(t, more[i]).AssistantAccepted?
    {
      hide *;
      var part := more[..i + 1];
      assert done + more == (done + part) + more[i + 1..];
      F.ActsConcat(done + part, more[i + 1..]);
      F.PartIsLegal(F.ActsIn(done + part), F.ActsIn(more[i + 1..]));
      PartDisciplined(done + part, more[i + 1..]);
      assert forall j :: 0 <= j < |part| ==> part[j] == more[j];
      F.NotesAccepted(s, t, ids, done, part);
      assert part == more[..i] + [more[i]];
      OneMoreFact(s, t, more[..i], more[i]);
      NotModel(t, more[i]);
    }

    lemma {:induction false} OneMoreFact(s: State, t: Table, before: seq<F.Note>, note: F.Note)
      requires Recovery.AppendAll(s, F.FactsOf(t, before)).Ok?
      ensures Recovery.AppendAll(s, F.FactsOf(t, before + [note]))
           == Recovery.Append(Recovery.AppendAll(s, F.FactsOf(t, before)).value, F.FactOf(t, note))
    {
      hide Recovery.Append, F.FactOf;
      assert (before + [note])[..|before|] == before;
      var facts := F.FactsOf(t, before + [note]);
      assert facts[..|facts| - 1] == F.FactsOf(t, before);
    }

    lemma NotModel(t: Table, note: F.Note)
      ensures !F.FactOf(t, note).AssistantAccepted?
    {
    }

    lemma PartDisciplined(part: seq<F.Note>, rest: seq<F.Note>)
      requires F.Disciplined(part + rest)
      ensures F.Disciplined(part)
    {
      hide F.NoteAllowed;
      var all := part + rest;
      forall j | 0 <= j < |part| ensures F.NoteAllowed(part[..j], part[j]) {
        assert all[..j] == part[..j] && all[j] == part[j];
      }
    }

    /** Drive a closed set of nodes to an end, and note every act. */
    method Drive(relevant: set<Id>) returns (interrupted: bool)
      requires Ready() && ClosedUnder(X.GraphOf(session.session.Abs(), session.run), relevant)
      modifies this, session, session.session
      ensures Ready() && Moved(old(table), table, relevant) && (old(cancelled) ==> cancelled) && (interrupted ==> cancelled)
      ensures !interrupted ==> forall n :: n in relevant ==> n in table && table[n].status.IsTerminal()
      ensures X.GraphOf(session.session.Abs(), session.run) == X.GraphOf(old(session.session.Abs()), session.run)
      ensures !cancelled ==> forall n :: n in relevant ==>
        EndsAsTold(X.GraphOf(session.session.Abs(), session.run), config.refusals, config.bodies, table, n)
      ensures session.localToDurable == old(session.localToDurable)
      ensures X.PlansKept(old(session.session.Abs()), session.session.Abs(), session.localToDurable, session.localToDurable)
    {
      hide *;
      ghost var s := session.session.Abs();
      var g := X.GraphOf(session.session.Abs(), session.run);
      Parts();
      ghost var rank := Ranking();
      TakeableNow(config, s, session.run, table, notes, cancelled, rank);
      var t, log, stopped;
      interrupted, t, log, stopped := RunScheduler(config, g, rank, table, F.ActsIn(notes), cancelled, relevant);
      NewActs(config, g, rank, t, F.ActsIn(notes), log, stopped);
      var more := NoteActs(notes, log[|F.ActsIn(notes)|..], config.asks, config.writes, g.Keys);
      assert notes + more[|notes|..] == more;
      CausesCarry(config, s, session.run, table, t, notes, cancelled, relevant);
      Record(t, notes, more[|notes|..], g.Keys);
      StillConsistent(config, s, session.session.Abs(), session.run, t, more, stopped, rank);
      FramedGraph(s, session.session.Abs(), session.run);
      FramedKeepsPlans(s, session.session.Abs(), session.localToDurable);
      notes, table, cancelled := more, t, stopped;
      ReadyNow();
    }

    lemma Ranking() returns (rank: map<Id, nat>)
      requires session.Valid()
      ensures Ranked(X.GraphOf(session.session.Abs(), session.run), rank)
    {
      hide I.Inv, Ranked, X.GraphOf, R.Replay;
      session.Reachable();
      RunIsThere();
      X.RunGraphRanked(session.session.Abs(), session.run);
      rank :| Ranked(X.GraphOf(session.session.Abs(), session.run), rank);
    }

    /** What the targets need, by their session-wide names. */
    method Relevant(targets: seq<Id>) returns (relevant: set<Id>)
      requires Ready() && forall t :: t in targets ==> t in session.localToDurable
      ensures var g := X.GraphOf(session.session.Abs(), session.run);
              && ClosedUnder(g, relevant) && relevant <= g.Keys && g.Keys == table.Keys
              && (forall l :: l in session.localToDurable ==> session.localToDurable[l] in g)
              && forall m :: m in relevant <==> NeededBy(g, X.Renamed(targets, session.localToDurable), m)
    {
      hide NeededBy, I.Inv, LogOk, AllCausesSound, AllAgree, F.Mirrors, F.Disciplined, DecidedActed, NoneStarted, X.GraphOf, X.Renamed, X.MayPlan,
           X.Submitted, R.Replay;
      session.Reachable();
      NamesAreNodes(session.session.Abs(), session.run, session.localToDurable);
      ghost var rank := Ranking();
      var g := X.GraphOf(session.session.Abs(), session.run);
      var ids := X.Renamed(targets, session.localToDurable);
      AllRenamed(targets, session.localToDurable, g);
      relevant := Closure(g, ids);
    }

    lemma AllRenamed(targets: seq<Id>, names: map<Id, string>, g: Graph)
      requires (forall t :: t in targets ==> t in names) && forall l :: l in names ==> names[l] in g
      ensures forall n :: n in X.Renamed(targets, names) ==> n in g
    {
      forall n | n in X.Renamed(targets, names) ensures n in g {
        var i :| 0 <= i < |targets| && X.Renamed(targets, names)[i] == n;
        assert targets[i] in targets;
      }
    }

    /**
     One request: rejected with nothing changed, refused for a repeated dependency after its fact was written, or
     planned, driven to an end and answered. When every node of it is needed by its targets, all of them have ended
     and are in the answer.
     */
    method ExecuteGraph(nodes: seq<X.RawNode>, targets: seq<Id>)
      returns (outcome: X.Submission, results: map<Id, ToolStatus>, interrupted: bool)
      requires Ready()
      modifies this, session, session.session
      ensures outcome.Rejected? <==>
        !X.Acceptable(nodes, targets, old(session.localToDurable).Keys, old(session.session.Abs()), session.run, session.maxNodes)
      ensures outcome.Planned? <==> !outcome.Rejected? && forall i :: 0 <= i < |nodes| ==> Distinct(nodes[i].deps)
      ensures outcome.Refused? ==> R.Replay(EMPTY, session.log).Err?
      ensures outcome.Rejected? ==> Ready() && table == old(table) && notes == old(notes) && session.log == old(session.log)
      ensures outcome.Rejected? ==> session.localToDurable == old(session.localToDurable)
      ensures outcome.Planned? ==> Ready() && (forall l :: l in session.localToDurable <==> l in old(session.localToDurable) || X.Has(nodes, l))
      ensures outcome.Planned? && !interrupted ==> Answers(results, targets, session.localToDurable, table)
      ensures outcome.Planned? && !interrupted && AllNeeded(nodes, targets) ==> forall i :: 0 <= i < |nodes| ==> nodes[i].local in results
      ensures outcome.Planned? && !interrupted && AllNeeded(nodes, targets) && AllEnded(old(table)) ==> AllEnded(table)
      ensures outcome.Planned? && !interrupted && !cancelled ==> forall l :: l in results ==>
        l in session.localToDurable
        && EndsAsTold(X.GraphOf(session.session.Abs(), session.run), config.refusals, config.bodies, table, session.localToDurable[l])
      ensures outcome.Planned? ==> forall i :: 0 <= i < |nodes| ==>
        X.PlannedAs(session.session.Abs(), session.run, session.localToDurable, nodes[i].local, nodes[i].ordinal, nodes[i].name, nodes[i].deps)
      ensures outcome.Planned? ==> X.PlansKept(old(session.session.Abs()), session.session.Abs(), old(session.localToDurable), session.localToDurable)
      ensures outcome.Rejected? ==> session.session.Abs() == old(session.session.Abs())
      ensures outcome.Planned? ==> EndedStay(old(table), table)
      ensures interrupted ==> cancelled && outcome.Planned?
      ensures old(cancelled) ==> cancelled
    {
      hide *;
      ghost var s, given, before := session.session.Abs(), session.localToDurable, table;
      SameKeys();
      results, interrupted := map[], false;
      outcome := PlanRequest(nodes, targets);
      if !outcome.Planned? {
        NotInterrupted(outcome);
        return;
      }
      ghost var u, now := session.session.Abs(), session.localToDurable;
      OldNodesThere(nodes, session.run, s, u, given, now);
      TargetsNamed(nodes, targets, given.Keys, session.maxNodes, session.run, s, u, given, now);
      PlannedNames(nodes, session.run, s, u, given, now);
      AllNodesAre(nodes, session.run, s, u, given, now);
      var relevant := Relevant(targets);
      interrupted := Drive(relevant);
      StillPlanned(nodes, session.run, s, u, session.session.Abs(), given, now);
      EndedStayed(before, X.GraphOf(u, session.run), table, relevant);
      SameKeys();
      if interrupted { return; }
      results := map l | l in session.localToDurable && session.localToDurable[l] in relevant :: table[session.localToDurable[l]].status;
      AnswersAll(results, targets, now, table, X.GraphOf(u, session.run), relevant);
      if AllNeeded(nodes, targets) {
        NeededIn(nodes, targets, session.run, u, now, relevant);
        if AllEnded(before) { EverythingEnded(nodes, session.run, s, u, given, now, before, table, relevant); }
      }
    }

    lemma StillPlanned(nodes: seq<X.RawNode>, run: string, s: State, t: State, u: State, given: map<Id, string>, now: map<Id, string>)
      requires X.AllPlanned(nodes, run, s, t, given, now) && X.PlansKept(t, u, now, now)
      ensures X.PlansKept(s, u, given, now)
      ensures forall i :: 0 <= i < |nodes| ==> X.PlannedAs(u, run, now, nodes[i].local, nodes[i].ordinal, nodes[i].name, nodes[i].deps)
    {
      hide *;
      X.PlanningKeepsPlans(nodes, run, s, t, given, now);
      X.PlansKeptOn(s, t, u, given, now, now);
      forall i | 0 <= i < |nodes| ensures X.PlannedAs(u, run, now, nodes[i].local, nodes[i].ordinal, nodes[i].name, nodes[i].deps) {
        X.PlanStays(t, u, run, now, now, nodes[i].local, nodes[i].ordinal, nodes[i].name, nodes[i].deps);
      }
    }

    lemma OldNodesThere(nodes: seq<X.RawNode>, run: string, s: State, u: State, given: map<Id, string>, now: map<Id, string>)
      requires X.AllPlanned(nodes, run, s, u, given, now)
      ensures X.GraphOf(s, run).Keys <= X.GraphOf(u, run).Keys
    {
      PlannedSubgraph(nodes, run, s, u, given, now);
      hide X.AllPlanned, X.GraphOf;
    }

    /** Without a cancellation every ended run has ended as its refusals and bodies tell. */
    lemma RunAsTold()
      requires Ready() && AllEnded(table) && !cancelled
      ensures var g := X.GraphOf(session.session.Abs(), session.run);
              forall n :: n in g ==> EndsAsTold(g, config.refusals, config.bodies, table, n)
    {
      hide *;
      ghost var s := session.session.Abs();
      Parts();
      ghost var rank := Ranking();
      TakeableNow(config, s, session.run, table, notes, cancelled, rank);
      TakenAsTold(config, X.GraphOf(s, session.run), rank, table, F.ActsIn(notes));
    }

    /** Of every ended node the session shows why it failed. */
    lemma RunCauses()
      requires Ready()
      ensures forall n :: n in table && table[n].status.IsTerminal() ==>
                n in session.session.Abs().nodes && CausesShown(session.session.Abs(), session.run, n)
    {
      hide *;
      Parts();
      session.Reachable();
      forall n | n in table && table[n].status.IsTerminal()
        ensures n in session.session.Abs().nodes && CausesShown(session.session.Abs(), session.run, n)
      {
        CausesAreShown(config, session.session.Abs(), session.run, table, notes, cancelled, n);
      }
    }

    /** Cancelled or not, every ended node has ended in a way that its refusal allows. */
    lemma RunEndsFairly()
      requires Ready()
      ensures FairEnds(config.refusals, cancelled, table)
    {
      Parts();
      hide LogOk, FairEnds, AllCausesSound, AllAgree, F.Mirrors, F.Disciplined, DecidedActed, NoneStarted, X.GraphOf, Ready;
    }

    lemma SameKeys()
      requires Ready()
      ensures table.Keys == X.GraphOf(session.session.Abs(), session.run).Keys
    {
      hide LogOk, FairEnds, AllCausesSound, AllAgree, F.Mirrors, F.Disciplined, DecidedActed, NoneStarted, X.GraphOf, R.Replay, X.MayPlan, X.Submitted;
    }

    lemma NotInterrupted(outcome: X.Submission)
      ensures outcome.Planned? || outcome.Rejected? || outcome.Refused?
    {
    }

    /** Every node of the run has ended: the reducer accepts the end of the run. */
    method FinishRun(status: RunStatus)
      requires Ready() && AllEnded(table) && !status.RunActive?
      modifies session, session.session
      ensures R.Replay(EMPTY, session.log) == Ok(session.session.Abs())
      ensures Recovery.Append(old(session.session.Abs()), CodeRunFinished(session.run, status)) == Ok(session.session.Abs())
      ensures session.localToDurable == old(session.localToDurable)
    {
      hide *;
      MayFinish(status);
      Replayed();
      var refusal := session.Append(CodeRunFinished(session.run, status));
    }

    lemma Replayed()
      requires Ready()
      ensures R.Replay(EMPTY, session.log) == Ok(session.session.Abs())
    {
      hide Consistent, R.Replay, X.MayPlan, X.Submitted;
    }

    lemma MayFinish(status: RunStatus)
      requires Ready() && AllEnded(table) && !status.RunActive?
      ensures Recovery.Append(session.session.Abs(), CodeRunFinished(session.run, status)).Ok?
    {
      session.Reachable();
      RunIsThere();
      RunNodes(session.session.Abs(), session.run);
      hide I.Inv, F.Mirrors, F.Disciplined, DecidedActed, NoneStarted, R.Replay, X.MayPlan, X.Submitted, AllCausesSound, AllAgree, X.GraphOf,
           Recovery.Append, LogMatches, OnceEach, LegalMoves, StartsReady, AlwaysWithinLimits;
      F.RunMayFinish(session.session.Abs(), X.GraphOf(session.session.Abs(), session.run).Keys, table, notes, session.run, status);
    }

    lemma RunNodes(s: State, run: string)
      requires I.Inv(s) && run in s.runs
      ensures I.MirrorOk(s.calls, s.nodes) && forall n :: n in s.runs[run].nodeIds ==> n in X.GraphOf(s, run)
    {
      assert I.RunOk(s.nodes, run, s.runs[run]);
    }

    /** Without a cancellation an answer is what the plain recursive evaluation of the run's graph says. */
    lemma AnswersAgree(results: map<Id, ToolStatus>, targets: seq<Id>, rank: map<Id, nat>, l: Id)
      requires Ready() && !cancelled && Answers(results, targets, session.localToDurable, table) && l in results
      requires Ranked(X.GraphOf(session.session.Abs(), session.run), rank)
      ensures var g := X.GraphOf(session.session.Abs(), session.run);
              && l in session.localToDurable && session.localToDurable[l] in g
              && g.Keys <= OwnOf(g, config.refusals, config.bodies).Keys
              && results[l] == Eval(g, rank, OwnOf(g, config.refusals, config.bodies), session.localToDurable[l])
    {
      hide LogOk, FairEnds, AllCausesSound, F.Mirrors, F.Disciplined, DecidedActed, NoneStarted, X.GraphOf, R.Replay, X.MayPlan, X.Submitted, Eval, Ranked;
    }
  }
}
