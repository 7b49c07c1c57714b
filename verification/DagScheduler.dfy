/**
 The parallel scheduler of one Code Mode graph: waves of ready nodes under a parallelism limit,
 nondeterministic completion, upstream failure and cancellation, updating its table in place.
 */
module DagScheduler {
  import opened Domain
  import opened CodeDag

  // ----- Right steps -----

  lemma EvalSucceeds(g: Graph, rank: map<Id, nat>, own: map<Id, ToolStatus>, t: Table, n: Id)
    requires Ranked(g, rank) && g.Keys <= own.Keys && t.Keys == g.Keys && Agrees(g, rank, own, t)
    requires n in g && forall d :: d in g[n].deps ==> Succeeds(t, d)
    ensures Eval(g, rank, own, n) == own[n]
  {
  }

  lemma EvalFails(g: Graph, rank: map<Id, nat>, own: map<Id, ToolStatus>, t: Table, n: Id, d: Id)
    requires Ranked(g, rank) && g.Keys <= own.Keys && t.Keys == g.Keys && Agrees(g, rank, own, t)
    requires n in g && d in g[n].deps && FailsIn(t, d)
    ensures Eval(g, rank, own, n) == UpstreamFailed
  {
  }

  lemma CausesStay(g: Graph, t: Table, n: Id, p: Progress)
    requires AllCausesSound(g, t) && n in t && t[n].status.IsOpen()
    requires CausesSound(g, t[n := p], n)
    ensures AllCausesSound(g, t[n := p])
  {
    var u := t[n := p];
    assert u.Keys == t.Keys;
    forall m | m in g ensures CausesSound(g, u, m) {
      if m != n {
        assert CausesSound(g, t, m);
        forall b | b in u[m].blockedBy ensures FailsIn(u, b) { assert FailsIn(t, b); }
        forall r | r in u[m].roots ensures FailsIn(u, r) && !u[r].status.UpstreamFailed? { assert FailsIn(t, r); }
      }
    }
  }

  predicate RootOf(t: Table, b: Id, r: Id)
    requires b in t
  {
    if t[b].roots != [] then r in t[b].roots else r == b
  }

  lemma SkipCauses(g: Graph, t: Table, n: Id, p: Progress)
    requires AllCausesSound(g, t) && n in g && t[n].status.Requested? && p.status.UpstreamFailed?
    requires forall m, d :: m in g && d in g[m].deps ==> d in g
    requires p.blockedBy != [] && p.roots != []
    requires forall b :: b in p.blockedBy ==> b in g[n].deps && FailsIn(t, b)
    requires forall r :: r in p.roots ==> exists b :: b in p.blockedBy && b in t && RootOf(t, b, r)
    ensures AllCausesSound(g, t[n := p])
  {
    var u := t[n := p];
    forall r | r in p.roots ensures Ancestor(g, n, r) && FailsIn(u, r) && !u[r].status.UpstreamFailed? {
      var b :| b in p.blockedBy && b in t && RootOf(t, b, r);
      assert CausesSound(g, t, b) && FailsIn(t, b);
      DirectAncestor(g, n, b);
      if t[b].roots != [] {
        AncestorThrough(g, n, b, r);
        assert FailsIn(t, r);
      }
    }
    forall b | b in p.blockedBy ensures FailsIn(u, b) { assert FailsIn(t, b); }
    CausesStay(g, t, n, p);
  }

  // ----- The wave of nodes that may run together -----

  datatype Split = Split(wave: seq<Id>, deferred: seq<Id>)

  /** First come, first served on each path; calls without a path never wait. */
  function NextWave(staged: seq<Id>, paths: map<Id, string>): Split {
    if staged == [] then Split([], [])
    else
      var s := NextWave(staged[..|staged| - 1], paths);
      var n := staged[|staged| - 1];
      if n in paths && exists i :: 0 <= i < |s.wave| && s.wave[i] in paths && paths[s.wave[i]] == paths[n]
      then s.(deferred := s.deferred + [n])
      else s.(wave := s.wave + [n])
  }

  predicate DistinctPaths(ids: seq<Id>, paths: map<Id, string>) {
    forall i, j :: 0 <= i < j < |ids| && ids[i] in paths && ids[j] in paths ==> paths[ids[i]] != paths[ids[j]]
  }

  /** The wave and the deferred calls share out the staged ones; only a path already in the wave defers a call. */
  ghost predicate SharesOut(staged: seq<Id>, s: Split, paths: map<Id, string>) {
    && |s.wave| + |s.deferred| == |staged|
    && Distinct(s.wave) && Distinct(s.deferred) && DistinctPaths(s.wave, paths)
    && (forall n :: n in staged <==> n in s.wave || n in s.deferred)
    && (forall n :: n in s.wave ==> n !in s.deferred)
    && (forall n :: n in s.deferred ==> n in paths && exists m :: m in s.wave && m in paths && paths[m] == paths[n])
  }

  lemma DeferOne(front: seq<Id>, s: Split, paths: map<Id, string>, n: Id, i: nat)
    requires SharesOut(front, s, paths) && n !in front && n in paths
    requires i < |s.wave| && s.wave[i] in paths && paths[s.wave[i]] == paths[n]
    ensures SharesOut(front + [n], s.(deferred := s.deferred + [n]), paths)
  {
    assert s.wave[i] in s.wave;
  }

  lemma AdmitOne(front: seq<Id>, s: Split, paths: map<Id, string>, n: Id)
    requires SharesOut(front, s, paths) && n !in front
    requires n in paths ==> forall i :: 0 <= i < |s.wave| && s.wave[i] in paths ==> paths[s.wave[i]] != paths[n]
    ensures SharesOut(front + [n], s.(wave := s.wave + [n]), paths)
  {
    var u := s.(wave := s.wave + [n]);
    forall m | m in u.deferred ensures m in paths && exists w :: w in u.wave && w in paths && paths[w] == paths[m] {
      var w :| w in s.wave && w in paths && paths[w] == paths[m];
      assert w in u.wave;
    }
    assert Distinct(u.wave) && DistinctPaths(u.wave, paths);
  }

  lemma {:induction false} NextWaveSplits(staged: seq<Id>, paths: map<Id, string>)
    requires Distinct(staged)
    ensures SharesOut(staged, NextWave(staged, paths), paths)
    ensures staged != [] ==> NextWave(staged, paths).wave != []
  {
    if staged != [] {
      var front, n := staged[..|staged| - 1], staged[|staged| - 1];
      NextWaveSplits(front, paths);
      var s := NextWave(front, paths);
      assert n !in front && staged == front + [n];
      hide SharesOut;
      if n in paths && exists i :: 0 <= i < |s.wave| && s.wave[i] in paths && paths[s.wave[i]] == paths[n] {
        var i :| 0 <= i < |s.wave| && s.wave[i] in paths && paths[s.wave[i]] == paths[n];
        DeferOne(front, s, paths, n, i);
      } else {
        AdmitOne(front, s, paths, n);
      }
    }
  }

  // ----- Results -----

  /** What `_finish_started` makes of a reported status; `None` is a word that names no status. */
  function Settle(reported: Option<ToolStatus>): ToolStatus {
    if reported.Some? && reported.value in {Succeeded, Failed, TimedOut, Interrupted, Conflict, Cancelled} then reported.value
    else Failed
  }

  lemma DepsAre(g: Graph, t: Table, n: Id)
    requires n in g && DepsSucceed(g, t, n)
    ensures forall d :: d in g[n].deps ==> Succeeds(t, d)
  {
  }

  lemma SettleIs(reported: Option<ToolStatus>)
    ensures IsResult(Settle(reported)) && Finishes(Started, Settle(reported)) && Settle(reported).IsTerminal() && !Settle(reported).UpstreamFailed?
  {
  }

  predicate RefusedAs(status: ToolStatus) { status in {UnknownTool, InvalidArguments, Failed, Denied} }

  /** Before the call: a refused node never starts; a started one ends as its body reports. */
  function OwnStatus(refusals: map<Id, ToolStatus>, bodies: map<Id, Option<ToolStatus>>, n: Id): ToolStatus {
    if n in refusals then refusals[n] else if n in bodies then Settle(bodies[n]) else Failed
  }

  /** The results that a body may have; whatever else it reports counts as a failure. */
  predicate IsResult(status: ToolStatus) {
    status.Succeeded? || status.Failed? || status.TimedOut? || status.Interrupted? || status.Conflict? || status.Cancelled?
  }

  /**
   How a node ends, told by the statuses of its dependencies, its refusal and what its body reports: upstream failure
   unless each dependency has succeeded, else its refusal, else what the body reports.
   */
  predicate EndsAsTold(g: Graph, refusals: map<Id, ToolStatus>, bodies: map<Id, Option<ToolStatus>>, t: Table, n: Id) {
    && n in g && n in t && (forall d :: d in g[n].deps ==> d in t && t[d].status != Requested && t[d].status != Started)
    && if exists d :: d in g[n].deps && d in t && t[d].status != Succeeded && t[d].status != UserConfirmedSuccess
       then t[n].status == UpstreamFailed
       else if n in refusals then t[n].status == refusals[n]
       else if n in bodies && bodies[n].Some? && IsResult(bodies[n].value) then t[n].status == bodies[n].value
       else t[n].status == Failed
  }

  /**
   A way to end, cancelled or not: with a result, which a refused node cannot have, by its refusal, by a failure upstream,
   or, in a cancelled run only, without having run.
   */
  predicate FairEnd(refusals: map<Id, ToolStatus>, cancelled: bool, n: Id, status: ToolStatus) {
    || status.UpstreamFailed?
    || (if n in refusals then status == refusals[n] else IsResult(status))
    || (cancelled && status.NotExecuted?)
  }

  ghost predicate FairEnds(refusals: map<Id, ToolStatus>, cancelled: bool, t: Table) {
    forall n :: n in t && t[n].status.IsTerminal() ==> FairEnd(refusals, cancelled, n, t[n].status)
  }

  lemma FairSet(refusals: map<Id, ToolStatus>, cancelled: bool, t: Table, n: Id, p: Progress)
    requires FairEnds(refusals, cancelled, t) && (p.status.IsTerminal() ==> FairEnd(refusals, cancelled, n, p.status))
    ensures FairEnds(refusals, cancelled, t[n := p])
  {
    hide FairEnd;
  }

  lemma NothingEnded(refusals: map<Id, ToolStatus>, t: Table)
    requires forall n :: n in t ==> t[n] == PLANNED
    ensures FairEnds(refusals, false, t)
  {
  }

  lemma FairLater(refusals: map<Id, ToolStatus>, cancelled: bool, later: bool, t: Table)
    requires FairEnds(refusals, cancelled, t) && (cancelled ==> later)
    ensures FairEnds(refusals, later, t)
  {
  }

  predicate DepsSucceed(g: Graph, t: Table, n: Id)
    requires n in g
  {
    forall d :: d in g[n].deps ==> Succeeds(t, d)
  }

  predicate NoneFails(g: Graph, t: Table, n: Id)
    requires n in g
  {
    forall d :: d in g[n].deps ==> !FailsIn(t, d)
  }

  predicate InOrder(g: Graph, ids: seq<Id>) {
    && (forall n :: n in ids ==> n in g)
    && forall i, j :: 0 <= i < j < |ids| ==> g[ids[i]].ordinal <= g[ids[j]].ordinal
  }

  ghost predicate NoneStarted(t: Table) {
    forall n :: n in t ==> !t[n].status.Started?
  }

  /** How far a wave has got: some calls are running, some are finished, the rest still wait. */
  ghost predicate WaveState(staged: seq<Id>, next: nat, inFlight: set<Id>, before: Table, t: Table) {
    && t.Keys == before.Keys && next <= |staged|
    && (forall i :: 0 <= i < |staged| ==> staged[i] in t)
    && (forall n :: n in t ==> (t[n].status.Started? <==> n in inFlight))
    && (forall n :: n in inFlight ==> n in t && n in staged)
    && (forall i :: 0 <= i < next ==> staged[i] in inFlight || t[staged[i]].status.IsTerminal())
    && (forall i :: next <= i < |staged| ==> t[staged[i]] == PLANNED)
    && (forall n :: n in t && n !in staged ==> t[n] == before[n])
  }

  /** The calls of a wave: distinct, on distinct paths, planned, and ready. */
  ghost predicate Runnable(g: Graph, paths: map<Id, string>, refusals: map<Id, ToolStatus>, staged: seq<Id>, before: Table) {
    && Distinct(staged) && DistinctPaths(staged, paths) && before.Keys == g.Keys
    && forall n :: n in staged ==> n in g && n !in refusals && before[n] == PLANNED && DepsSucceed(g, before, n)
  }

  lemma WaveStarts(staged: seq<Id>, next: nat, inFlight: set<Id>, before: Table, t: Table)
    requires WaveState(staged, next, inFlight, before, t) && next < |staged| && Distinct(staged)
    ensures WaveState(staged, next + 1, inFlight + {staged[next]}, before, t[staged[next] := Progress(Started, [], [])])
  {
    var u := t[staged[next] := Progress(Started, [], [])];
    assert u.Keys == t.Keys;
  }

  lemma WaveEnds(staged: seq<Id>, next: nat, inFlight: set<Id>, before: Table, t: Table, n: Id, p: Progress)
    requires WaveState(staged, next, inFlight, before, t) && n in inFlight && p.status.IsTerminal() && Distinct(staged)
    ensures WaveState(staged, next, inFlight - {n}, before, t[n := p])
  {
    var u := t[n := p];
    assert u.Keys == t.Keys;
    assert forall i :: next <= i < |staged| ==> staged[i] != n;
  }

  lemma WaveSkips(staged: seq<Id>, next: nat, inFlight: set<Id>, before: Table, t: Table, p: Progress)
    requires WaveState(staged, next, inFlight, before, t) && next < |staged| && p.status.IsTerminal() && Distinct(staged)
    ensures staged[next] in t && t[staged[next]] == PLANNED
    ensures WaveState(staged, next + 1, inFlight, before, t[staged[next] := p])
  {
    var u := t[staged[next] := p];
    assert u.Keys == t.Keys;
  }

  lemma AgreesSet(g: Graph, rank: map<Id, nat>, own: map<Id, ToolStatus>, t: Table, n: Id, p: Progress)
    requires Ranked(g, rank) && g.Keys <= own.Keys && t.Keys == g.Keys && n in g && Agrees(g, rank, own, t)
    requires p.status.IsTerminal() ==> p.status == Eval(g, rank, own, n)
    ensures t[n := p].Keys == g.Keys && Agrees(g, rank, own, t[n := p])
  {
    hide Eval;
  }

  /** The given nodes by ordinal. */
  method SortedByOrdinal(graph: Graph, ids: set<Id>) returns (sorted: seq<Id>)
    requires ids <= graph.Keys
    ensures Distinct(sorted) && InOrder(graph, sorted) && forall n :: n in sorted <==> n in ids
  {
    sorted := [];
    var left := ids;
    while left != {}
      invariant left <= ids && Distinct(sorted) && InOrder(graph, sorted)
      invariant forall n :: n in sorted <==> n in ids - left
      invariant forall m, n :: m in sorted && n in left ==> graph[m].ordinal <= graph[n].ordinal
      decreases left
    {
      LeastOrdinal(graph, left);
      var n :| n in left && forall m :: m in left ==> graph[n].ordinal <= graph[m].ordinal;
      assert forall i :: 0 <= i < |sorted| ==> sorted[i] in sorted;
      sorted := sorted + [n];
      left := left - {n};
    }
  }

  lemma NothingStarted(g: Graph, rank: map<Id, nat>, own: map<Id, ToolStatus>, t: Table, limit: nat, paths: map<Id, string>)
    requires t.Keys == g.Keys && forall n :: n in t ==> t[n] == PLANNED
    ensures LogOk(g, t, [], limit, paths) && AllCausesSound(g, t)
    ensures Ranked(g, rank) && g.Keys <= own.Keys ==> Agrees(g, rank, own, t)
  {
    var none: seq<Act> := [];
    assert Running(none) == {} && forall k :: 0 <= k <= |none| ==> none[..k] == none;
  }

  /** A planned node may always be closed unexecuted. */
  lemma MayClose()
    ensures Finishes(Requested, NotExecuted)
  {
  }

  /** Nothing logged before is lost. */
  ghost predicate GoesOn(base: seq<Act>, log: seq<Act>) { base <= log }

  /** The own result of every node of a graph. */
  ghost function OwnOf(g: Graph, refusals: map<Id, ToolStatus>, bodies: map<Id, Option<ToolStatus>>): map<Id, ToolStatus> {
    map n | n in g :: OwnStatus(refusals, bodies, n)
  }

  /** The recursive evaluation says how nodes end in a closed set that has ended. */
  lemma EndedAsTold(g: Graph, rank: map<Id, nat>, refusals: map<Id, ToolStatus>, bodies: map<Id, Option<ToolStatus>>, t: Table, relevant: set<Id>)
    requires Ranked(g, rank) && t.Keys == g.Keys && Agrees(g, rank, OwnOf(g, refusals, bodies), t) && ClosedUnder(g, relevant)
    requires forall n :: n in relevant ==> n in t && t[n].status.IsTerminal()
    ensures forall n :: n in relevant ==> EndsAsTold(g, refusals, bodies, t, n)
  {
    hide Ranked, Eval, EndsAsTold, OwnOf;
    forall n | n in relevant ensures EndsAsTold(g, refusals, bodies, t, n) { NodeAsTold(g, rank, refusals, bodies, t, n); }
  }

  lemma NodeAsTold(g: Graph, rank: map<Id, nat>, refusals: map<Id, ToolStatus>, bodies: map<Id, Option<ToolStatus>>, t: Table, n: Id)
    requires Ranked(g, rank) && t.Keys == g.Keys && Agrees(g, rank, OwnOf(g, refusals, bodies), t)
    requires n in g && t[n].status.IsTerminal() && forall d :: d in g[n].deps ==> d in t && t[d].status.IsTerminal()
    ensures EndsAsTold(g, refusals, bodies, t, n)
  {
    OwnAsTold(g, refusals, bodies, n);
    hide OwnOf, OwnStatus, IsResult;
    EvalAsTold(g, rank, OwnOf(g, refusals, bodies), t, n);
    hide Eval, Agrees, Ranked;
  }

  lemma EvalAsTold(g: Graph, rank: map<Id, nat>, own: map<Id, ToolStatus>, t: Table, n: Id)
    requires Ranked(g, rank) && t.Keys == g.Keys && g.Keys <= own.Keys && Agrees(g, rank, own, t)
    requires n in g && t[n].status.IsTerminal() && forall d :: d in g[n].deps ==> d in t && t[d].status.IsTerminal()
    ensures t[n].status == if exists d :: d in g[n].deps && d in t && t[d].status != Succeeded && t[d].status != UserConfirmedSuccess
                           then UpstreamFailed else own[n]
  {
    assert forall d :: d in g[n].deps ==> t[d].status == Eval(g, rank, own, d);
  }

  lemma OwnAsTold(g: Graph, refusals: map<Id, ToolStatus>, bodies: map<Id, Option<ToolStatus>>, n: Id)
    requires n in g
    ensures var own := OwnOf(g, refusals, bodies);
            && g.Keys == own.Keys
            && own[n] == if n in refusals then refusals[n]
                         else if n in bodies && bodies[n].Some? && IsResult(bodies[n].value) then bodies[n].value else Failed
  {
  }

  class CodeDagScheduler {
    const graph: Graph
    const paths: map<Id, string>
    const refusals: map<Id, ToolStatus>
    const bodies: map<Id, Option<ToolStatus>>
    const maxParallel: nat
    /** Whether the run may be cancelled or interrupted from outside. */
    const cancellable: bool
    ghost const rank: map<Id, nat>
    ghost const own: map<Id, ToolStatus>
    /** What was logged before this scheduler took over. */
    ghost const base: seq<Act>
    var table: Table
    var log: seq<Act>
    var cancelled: bool

    ghost predicate Config() {
      && Ranked(graph, rank) && maxParallel >= 1 && own.Keys == graph.Keys
      && (forall n :: n in graph ==> own[n] == OwnStatus(refusals, bodies, n))
      && (forall n :: n in refusals ==> RefusedAs(refusals[n]))
    }

    /** What holds of a table, a log and the cancellation. */
    ghost predicate Holds(t: Table, l: seq<Act>, c: bool) {
      && Config() && GoesOn(base, l) && LogOk(graph, t, l, maxParallel, paths) && AllCausesSound(graph, t) && FairEnds(refusals, c, t)
      && (!c ==> Agrees(graph, rank, own, t))
      && (c ==> cancellable)
    }

    ghost predicate Valid()
      reads this
    {
      Holds(table, log, cancelled)
    }

    constructor (g: Graph, paths: map<Id, string>, refusals: map<Id, ToolStatus>, bodies: map<Id, Option<ToolStatus>>,
                 maxParallel: nat, cancellable: bool, ghost rank: map<Id, nat>)
      requires Ranked(g, rank) && maxParallel >= 1 && forall n :: n in refusals ==> RefusedAs(refusals[n])
      ensures Valid() && table == (map n | n in g :: PLANNED) && graph == g && !cancelled && this.cancellable == cancellable
    {
      this.graph, this.paths, this.refusals, this.bodies := g, paths, refusals, bodies;
      this.maxParallel, this.cancellable, this.rank := maxParallel, cancellable, rank;
      own := map n | n in g :: OwnStatus(refusals, bodies, n);
      table := map n | n in g :: PLANNED;
      log, base := [], [];
      cancelled := false;
      new;
      hide LogOk, FairEnds, AllCausesSound, Agrees, Ranked, OwnStatus;
      NothingStarted(graph, this.rank, own, table, this.maxParallel, this.paths);
      NothingEnded(this.refusals, table);
    }

    /** Go on in the middle of a run, where some nodes have ended and others have just been planned. */
    constructor Continue(g: Graph, paths: map<Id, string>, refusals: map<Id, ToolStatus>, bodies: map<Id, Option<ToolStatus>>,
                         maxParallel: nat, cancellable: bool, cancelled: bool, ghost rank: map<Id, nat>, table: Table, log: seq<Act>)
      requires Ranked(g, rank) && maxParallel >= 1 && forall n :: n in refusals ==> RefusedAs(refusals[n])
      requires LogOk(g, table, log, maxParallel, paths) && AllCausesSound(g, table) && (cancelled ==> cancellable)
      requires FairEnds(refusals, cancelled, table)
      requires !cancelled ==> Agrees(g, rank, OwnOf(g, refusals, bodies), table)
      ensures Valid() && this.graph == g && this.table == table && this.log == log && base == log && this.cancelled == cancelled
      ensures this.paths == paths && this.refusals == refusals && this.bodies == bodies && this.maxParallel == maxParallel
      ensures this.cancellable == cancellable && this.rank == rank && own == OwnOf(g, refusals, bodies)
    {
      this.graph, this.paths, this.refusals, this.bodies := g, paths, refusals, bodies;
      this.maxParallel, this.cancellable, this.rank := maxParallel, cancellable, rank;
      this.own := OwnOf(g, refusals, bodies);
      this.table, this.log, this.base, this.cancelled := table, log, log, cancelled;
      new;
      hide LogOk, FairEnds, AllCausesSound, Agrees, Ranked, OwnStatus;
    }

    /** The cancellation event may be set at any moment and is never cleared. */
    method IsCancelled() returns (set_: bool)
      requires Valid()
      modifies `cancelled
      ensures Valid() && set_ == cancelled && (old(cancelled) ==> cancelled)
    {
      if cancellable && !cancelled {
        var now: bool := *;
        FairLater(refusals, cancelled, now, table);
        cancelled := now;
      }
      set_ := cancelled;
    }

    lemma HoldsNow()
      requires Holds(table, log, cancelled)
      ensures Valid()
    {
      hide Holds;
    }

    /** What a finish leaves of the invariant. */
    lemma FinishKeeps(n: Id, p: Progress)
      requires Valid() && n in table && Finishes(table[n].status, p.status)
      requires AllCausesSound(graph, table[n := p])
      requires FairEnd(refusals, cancelled, n, p.status)
      requires !cancelled ==> p.status == Eval(graph, rank, own, n)
      ensures Holds(table[n := p], log + [Finish(n, p.status)], cancelled)
    {
      hide LogOk, FairEnds, AllCausesSound, Agrees, Eval, FairEnds, FairEnd;
      FairSet(refusals, cancelled, table, n, p);
      FinishLogged(graph, table, log, maxParallel, paths, n, p);
      LogKeys(graph, table, log, maxParallel, paths);
      if !cancelled { AgreesSet(graph, rank, own, table, n, p); }
    }

    method FinishNode(n: Id, p: Progress)
      requires Valid() && n in table && Finishes(table[n].status, p.status)
      requires AllCausesSound(graph, table[n := p])
      requires FairEnd(refusals, cancelled, n, p.status)
      requires !cancelled ==> p.status == Eval(graph, rank, own, n)
      modifies `table, `log
      ensures Valid() && table == old(table)[n := p] && log == old(log) + [Finish(n, p.status)]
    {
      hide *;
      FinishKeeps(n, p);
      log := log + [Finish(n, p.status)];
      table := table[n := p];
      HoldsNow();
    }

    /** What a start leaves of the invariant. */
    lemma StartKeeps(n: Id)
      requires Valid() && n in table && table[n] == PLANNED && DepsSucceed(graph, table, n)
      requires WithinLimits(Running(log) + {n}, maxParallel, paths)
      ensures Holds(table[n := Progress(Started, [], [])], log + [Start(n)], cancelled)
    {
      hide LogOk, FairEnds, AllCausesSound, Agrees, Eval, Running, WithinLimits;
      FairSet(refusals, cancelled, table, n, Progress(Started, [], []));
      StartLogged(graph, table, log, maxParallel, paths, n);
      CausesStay(graph, table, n, Progress(Started, [], []));
      LogKeys(graph, table, log, maxParallel, paths);
      if !cancelled { AgreesSet(graph, rank, own, table, n, Progress(Started, [], [])); }
    }

    method StartNode(n: Id)
      requires Valid() && n in table && table[n] == PLANNED && DepsSucceed(graph, table, n)
      requires WithinLimits(Running(log) + {n}, maxParallel, paths)
      modifies `table, `log
      ensures Valid() && table == old(table)[n := Progress(Started, [], [])] && log == old(log) + [Start(n)]
    {
      hide *;
      StartKeeps(n);
      log := log + [Start(n)];
      table := table[n := Progress(Started, [], [])];
      HoldsNow();
    }

    /** Close a node that has no recorded cause: executed, refused, or not executed. */
    method Settled(n: Id, status: ToolStatus)
      requires Valid() && n in table && Finishes(table[n].status, status) && !status.UpstreamFailed?
      requires FairEnd(refusals, cancelled, n, status)
      requires !cancelled ==> status == Eval(graph, rank, own, n)
      modifies `table, `log
      ensures Valid() && table == old(table)[n := Progress(status, [], [])]
    {
      hide LogOk, FairEnds, Agrees, Eval, AllCausesSound, GoesOn;
      LogKeys(graph, table, log, maxParallel, paths);
      CausesStay(graph, table, n, Progress(status, [], []));
      FinishNode(n, Progress(status, [], []));
    }

    /** Record what the body of a started node reported; a cancelled body may report anything. */
    method CommitStaged(n: Id)
      requires Valid() && n in table && table[n].status.Started? && n !in refusals && DepsSucceed(graph, table, n)
      modifies `table, `log
      ensures Valid() && n in table && table[n].status.IsTerminal() && table == old(table)[n := table[n]]
    {
      hide Valid, Eval, Agrees, AllCausesSound, Settle, Finishes;
      Facts();
      var reported := if n in bodies then bodies[n] else None;
      if cancelled { reported := *; }
      CommitIsRight(n, reported);
      Settled(n, Settle(reported));
    }

    lemma CommitIsRight(n: Id, reported: Option<ToolStatus>)
      requires Valid() && n in table && table[n].status.Started? && n !in refusals && n in graph && DepsSucceed(graph, table, n)
      requires !cancelled ==> reported == if n in bodies then bodies[n] else None
      ensures IsResult(Settle(reported)) && Finishes(Started, Settle(reported)) && Settle(reported).IsTerminal()
      ensures !Settle(reported).UpstreamFailed? && Ranked(graph, rank) && own.Keys == graph.Keys
      ensures !cancelled ==> Settle(reported) == Eval(graph, rank, own, n)
    {
      hide *;
      Parts();
      SettleIs(reported);
      if !cancelled {
        OwnIs(n);
        DepsAre(graph, table, n);
        EvalSucceeds(graph, rank, own, table, n);
      }
    }

    lemma OwnIs(n: Id)
      requires Valid() && n in graph && n !in refusals
      ensures n in own && own[n] == Settle(if n in bodies then bodies[n] else None)
    {
      hide LogOk, FairEnds, AllCausesSound, GoesOn, Agrees, Ranked;
    }

    /** A call whose body is not dispatched because the run was cancelled just after its start. */
    method DropStarted(staged: seq<Id>, next: nat, inFlight: set<Id>, n: Id, ghost before: Table)
      requires Valid() && cancelled && WaveState(staged, next, inFlight, before, table) && n in inFlight && Distinct(staged)
      requires n !in refusals
      modifies `table, `log
      ensures Valid() && WaveState(staged, next, inFlight - {n}, before, table)
    {
      hide LogOk, FairEnds, Agrees, AllCausesSound, Eval, Running, Config, Distinct, GoesOn;
      WaveEnds(staged, next, inFlight, before, table, n, Progress(Cancelled, [], []));
      Settled(n, Cancelled);
      hide WaveState, GoesOn;
    }

    /** Start one call; when cancellation is noticed just after, its body is not dispatched. */
    method StartOne(staged: seq<Id>, next: nat, inFlight: set<Id>, ghost before: Table) returns (inFlight': set<Id>, stop: bool)
      requires Valid() && Runnable(graph, paths, refusals, staged, before) && WaveState(staged, next, inFlight, before, table)
      requires next < |staged| && |inFlight| < maxParallel
      modifies `table, `log, `cancelled
      ensures Valid() && WaveState(staged, next + 1, inFlight', before, table) && (old(cancelled) ==> cancelled)
      ensures |inFlight'| <= maxParallel && (stop ==> cancelled) && (!stop ==> inFlight' != {})
    {
      hide LogOk, FairEnds, Agrees, AllCausesSound, Eval, Running, WaveState, WithinLimits, DepsSucceed, Config, DistinctPaths, GoesOn;
      var n := staged[next];
      MayStart(staged, next, inFlight, before);
      WaveStarts(staged, next, inFlight, before, table);
      StartNode(n);
      stop := IsCancelled();
      if stop {
        DropStarted(staged, next + 1, inFlight + {n}, n, before);
        inFlight' := inFlight;
        assert inFlight + {n} - {n} == inFlight;
      } else {
        inFlight' := inFlight + {n};
      }
    }

    /** Start calls until the limit is reached or the run is cancelled. */
    method StartMore(staged: seq<Id>, next: nat, inFlight: set<Id>, ghost before: Table) returns (next': nat, inFlight': set<Id>)
      requires Valid() && Runnable(graph, paths, refusals, staged, before) && WaveState(staged, next, inFlight, before, table) && |inFlight| <= maxParallel
      modifies `table, `log, `cancelled
      ensures Valid() && WaveState(staged, next', inFlight', before, table) && |inFlight'| <= maxParallel
      ensures (old(cancelled) ==> cancelled) && next <= next' <= |staged|
      ensures next' < |staged| && inFlight' == {} ==> cancelled
      ensures inFlight == {} && next < |staged| ==> next < next'
      ensures next' == next ==> inFlight' == inFlight
    {
      hide LogOk, FairEnds, Agrees, AllCausesSound, Eval, Running, Runnable, GoesOn;
      assert next <= |staged|;
      hide WaveState, GoesOn;
      next', inFlight' := next, inFlight;
      var stop := false;
      while next' < |staged| && |inFlight'| < maxParallel && !stop
        invariant Valid() && WaveState(staged, next', inFlight', before, table) && |inFlight'| <= maxParallel
        invariant next <= next' <= |staged| && (old(cancelled) ==> cancelled) && (stop ==> cancelled)
        invariant next' == next ==> inFlight' == inFlight && !stop
        invariant next < next' && inFlight' == {} ==> stop
        decreases |staged| - next', !stop
      {
        inFlight', stop := StartOne(staged, next', inFlight', before);
        next' := next' + 1;
      }
    }

    /** Commit finished calls, in any order. */
    method CommitAll(staged: seq<Id>, next: nat, inFlight: set<Id>, done: set<Id>, ghost before: Table)
      requires Valid() && Runnable(graph, paths, refusals, staged, before) && WaveState(staged, next, inFlight, before, table)
      requires done <= inFlight
      modifies `table, `log
      ensures Valid() && WaveState(staged, next, inFlight - done, before, table)
    {
      hide LogOk, FairEnds, Agrees, AllCausesSound, Eval, Running, WaveState, Config, DistinctPaths, DepsSucceed, GoesOn;
      var left := done;
      assert inFlight - (done - left) == inFlight;
      while left != {}
        invariant Valid() && left <= done && WaveState(staged, next, inFlight - (done - left), before, table)
        decreases left
      {
        var n :| n in left;
        ghost var t := table;
        WaveHas(staged, next, inFlight - (done - left), before, t, n);
        CommitStaged(n);
        WaveEnds(staged, next, inFlight - (done - left), before, t, n, table[n]);
        assert inFlight - (done - left) - {n} == inFlight - (done - (left - {n}));
        left := left - {n};
      }
      assert inFlight - (done - left) == inFlight - done;
    }

    /** Calls that were never started are closed without a result. */
    method CloseUnstarted(staged: seq<Id>, next: nat, ghost before: Table)
      requires Valid() && Runnable(graph, paths, refusals, staged, before) && WaveState(staged, next, {}, before, table)
      requires next <= |staged| && (next < |staged| ==> cancelled)
      modifies `table, `log
      ensures Valid() && WaveState(staged, |staged|, {}, before, table)
    {
      RunnableOnce(graph, paths, refusals, staged, before);
      MayClose();
      hide Valid, Runnable, Distinct, Agrees, Eval, AllCausesSound, WaveState, Finishes;
      var i := next;
      while i < |staged|
        invariant next <= i <= |staged| && Valid() && WaveState(staged, i, {}, before, table)
      {
        WaveSkips(staged, i, {}, before, table, Progress(NotExecuted, [], []));
        Settled(staged[i], NotExecuted);
        i := i + 1;
      }
    }

    /** The state between two turns of a wave. */
    ghost predicate InWave(staged: seq<Id>, next: nat, inFlight: set<Id>, before: Table)
      reads this
    {
      Valid() && WaveState(staged, next, inFlight, before, table) && next <= |staged| && |inFlight| <= maxParallel
    }

    /** One turn of a wave: start calls, then commit what is done, unless the wait times out or an interrupt commits all. */
    method WaveTurn(staged: seq<Id>, next: nat, inFlight: set<Id>, polls: nat, ghost before: Table)
      returns (next': nat, inFlight': set<Id>, polls': nat, interrupted: bool, over: bool)
      requires InWave(staged, next, inFlight, before) && Runnable(graph, paths, refusals, staged, before)
      requires next < |staged| || inFlight != {}
      modifies `table, `log, `cancelled
      ensures InWave(staged, next', inFlight', before) && (old(cancelled) ==> cancelled)
      ensures interrupted ==> cancelled && inFlight' == {}
      ensures over ==> inFlight' == {} && (next' < |staged| ==> cancelled)
      ensures next <= next' && polls' <= polls
      ensures next' == next && !interrupted && !over ==> |inFlight'| < |inFlight| || (inFlight' == inFlight && polls' < polls)
    {
      hide Valid, WaveState, Runnable;
      next', inFlight' := StartMore(staged, next, inFlight, before);
      polls', interrupted, over := polls, false, inFlight' == {};
      if over { return; }
      if cancellable {
        var hit: bool := *;
        if hit {
          SetCancelled();
          CommitAll(staged, next', inFlight', inFlight', before);
          assert inFlight' - inFlight' == {};
          return next', {}, polls, true, false;
        }
      }
      var timeout: bool := *;
      if timeout && polls > 0 { return next', inFlight', polls - 1, false, false; }
      var done: set<Id> :| done != {} && done <= inFlight';
      CommitAll(staged, next', inFlight', done, before);
      FewerLeft(inFlight', done);
      inFlight' := inFlight' - done;
    }

    /** The wait itself was interrupted. */
    method SetCancelled()
      requires Valid() && cancellable
      modifies `cancelled
      ensures Valid() && cancelled
    {
      FairLater(refusals, cancelled, true, table);
      cancelled := true;
    }

    /**
     Run the calls of one wave.  `polls` bounds how often the wait may time out with nothing finished.
     An interrupt commits whatever runs and gives up.
     */
    method ExecuteWave(staged: seq<Id>, polls: nat) returns (interrupted: bool)
      requires Valid() && Runnable(graph, paths, refusals, staged, table) && NoneStarted(table)
      modifies `table, `log, `cancelled
      ensures Valid() && NoneStarted(table) && table.Keys == old(table).Keys && (old(cancelled) ==> cancelled)
      ensures interrupted ==> cancelled
      ensures forall n :: n in table && n !in staged ==> table[n] == old(table)[n]
      ensures !interrupted ==> forall n :: n in staged ==> n in table && table[n].status.IsTerminal()
      ensures forall n :: n in staged ==> n in table && (table[n].status.IsTerminal() || table[n] == PLANNED)
    {
      ghost var before := table;
      var next, inFlight, left := 0, {}, polls;
      WaveBegins(graph, paths, refusals, staged, table);
      assert InWave(staged, next, inFlight, before);
      hide Valid, InWave, WaveState, Runnable, NoneStarted;
      while next < |staged| || inFlight != {}
        invariant InWave(staged, next, inFlight, before) && (old(cancelled) ==> cancelled)
        decreases |staged| - next, |inFlight|, left
      {
        InWaveBounds(staged, next, inFlight, before);
        var over;
        next, inFlight, left, interrupted, over := WaveTurn(staged, next, inFlight, left, before);
        InWaveBounds(staged, next, inFlight, before);
        if interrupted {
          InWaveOver(staged, next, before);
          return;
        }
        if over { break; }
      }
      InWaveBounds(staged, next, {}, before);
      CloseUnstarted(staged, next, before);
      WaveOver(staged, |staged|, {}, before, table);
      return false;
    }

    lemma InWaveBounds(staged: seq<Id>, next: nat, inFlight: set<Id>, before: Table)
      requires InWave(staged, next, inFlight, before)
      ensures Valid() && WaveState(staged, next, inFlight, before, table) && next <= |staged| && |inFlight| <= maxParallel
    {
    }

    lemma InWaveOver(staged: seq<Id>, next: nat, before: Table)
      requires InWave(staged, next, {}, before)
      ensures Valid() && NoneStarted(table) && table.Keys == before.Keys
      ensures forall n :: n in table && n !in staged ==> table[n] == before[n]
      ensures forall n :: n in staged ==> n in table && (table[n].status.IsTerminal() || table[n] == PLANNED)
    {
      hide Valid;
      WaveOver(staged, next, {}, before, table);
    }

    /** Validate one ready call: it is refused at once, or it waits for a wave. */
    method PrepareOne(nodes: seq<Id>, i: nat, staged: seq<Id>, ghost before: Table) returns (staged': seq<Id>)
      requires Valid() && Ready(graph, nodes, before) && Preparing(graph, refusals, nodes, i, staged, before, table) && i < |nodes|
      modifies `table, `log, `cancelled
      ensures Valid() && Preparing(graph, refusals, nodes, i + 1, staged', before, table) && (old(cancelled) ==> cancelled)
    {
      hide LogOk, FairEnds, Agrees, AllCausesSound, Running, Config, Preparing, Ready, RefusedAs, Eval, DepsSucceed, GoesOn;
      var n := nodes[i];
      ghost var t := table;
      PreparingNext(graph, refusals, nodes, i, staged, before, t);
      var stop := IsCancelled();
      staged' := staged;
      if stop {
        Settled(n, NotExecuted);
        PreparingClosed(graph, refusals, nodes, i, staged, before, t, Progress(NotExecuted, [], []));
      } else if n in refusals {
        RefusalIsOwn(n);
        Settled(n, refusals[n]);
        PreparingClosed(graph, refusals, nodes, i, staged, before, t, Progress(refusals[n], [], []));
      } else {
        PreparingStaged(graph, refusals, nodes, i, staged, before, t);
        staged' := staged + [n];
      }
    }

    /** Split the ready calls into those that are refused at once and those that wait for a wave. */
    method PrepareAll(nodes: seq<Id>) returns (staged: seq<Id>)
      requires Valid() && NoneStarted(table) && Ready(graph, nodes, table)
      modifies `table, `log, `cancelled
      ensures Valid() && Preparing(graph, refusals, nodes, |nodes|, staged, old(table), table) && (old(cancelled) ==> cancelled)
    {
      hide LogOk, FairEnds, Agrees, AllCausesSound, Running, Config, Eval, DepsSucceed, GoesOn;
      staged := [];
      ghost var before := table;
      assert Preparing(graph, refusals, nodes, 0, [], before, table);
      hide Preparing, Ready, GoesOn;
      for i := 0 to |nodes|
        invariant Valid() && Preparing(graph, refusals, nodes, i, staged, before, table) && (old(cancelled) ==> cancelled)
      {
        staged := PrepareOne(nodes, i, staged, before);
      }
    }

    /** The first call on each path joins the wave; later calls on a path in the wave are deferred. */
    method NextExecutionWave(staged: seq<Id>) returns (wave: seq<Id>, deferred: seq<Id>)
      ensures Split(wave, deferred) == NextWave(staged, paths)
    {
      wave, deferred := [], [];
      var mutationPaths: set<string> := {};
      for i := 0 to |staged|
        invariant Split(wave, deferred) == NextWave(staged[..i], paths)
        invariant forall p :: p in mutationPaths <==> exists j :: 0 <= j < |wave| && wave[j] in paths && paths[wave[j]] == p
      {
        var n := staged[i];
        assert staged[..i + 1][..i] == staged[..i] && staged[..i + 1][i] == n;
        if n in paths && paths[n] in mutationPaths {
          deferred := deferred + [n];
        } else {
          ghost var old_ := wave;
          wave := wave + [n];
          if n in paths { mutationPaths := mutationPaths + {paths[n]}; }
          forall p ensures p in mutationPaths <==> exists j :: 0 <= j < |wave| && wave[j] in paths && paths[wave[j]] == p {
            if p in mutationPaths {
              if j :| 0 <= j < |old_| && old_[j] in paths && paths[old_[j]] == p {
                assert wave[j] == old_[j];
              } else {
                assert wave[|old_|] == n;
              }
            }
          }
        }
      }
      assert staged[..|staged|] == staged;
    }

    /** The staged calls are closed without a result, in order. */
    method CloseStaged(nodes: seq<Id>, staged: seq<Id>, ghost before: Table)
      requires Valid() && cancelled && Preparing(graph, refusals, nodes, |nodes|, staged, before, table)
      modifies `table, `log
      ensures Valid() && Preparing(graph, refusals, nodes, |nodes|, [], before, table)
    {
      hide LogOk, FairEnds, Agrees, AllCausesSound, Running, Config, Eval, DepsSucceed, Preparing, GoesOn;
      for i := 0 to |staged|
        invariant Valid() && Preparing(graph, refusals, nodes, |nodes|, staged[i..], before, table)
      {
        assert staged[i..][0] == staged[i] && staged[i..][1..] == staged[i + 1..];
        PreparingDrops(graph, refusals, nodes, staged[i..], before, table, Progress(NotExecuted, [], []));
        Settled(staged[i], NotExecuted);
      }
      assert staged[|staged|..] == [];
    }

    /** Prepare the ready nodes, then run them wave by wave. */
    method ExecuteReady(nodes: seq<Id>) returns (interrupted: bool)
      requires Valid() && NoneStarted(table) && Ready(graph, nodes, table)
      modifies `table, `log, `cancelled
      ensures Valid() && NoneStarted(table) && table.Keys == old(table).Keys && (old(cancelled) ==> cancelled)
      ensures interrupted ==> cancelled
      ensures forall n :: n in table && n !in nodes ==> table[n] == old(table)[n]
      ensures !interrupted ==> forall n :: n in nodes ==> n in table && table[n].status.IsTerminal()
    {
      hide LogOk, FairEnds, Agrees, AllCausesSound, Running, Config, Eval, DepsSucceed, Preparing, Runnable, SharesOut, NextWave, Ready, GoesOn;
      ghost var before := table;
      var staged := PrepareAll(nodes);
      while staged != []
        invariant Valid() && Preparing(graph, refusals, nodes, |nodes|, staged, before, table) && (old(cancelled) ==> cancelled)
        decreases |staged|
      {
        var stop := IsCancelled();
        if stop {
          CloseStaged(nodes, staged, before);
          staged := [];
          break;
        }
        PreparingSplits(graph, refusals, paths, nodes, staged, before, table);
        ghost var t := table;
        var wave, deferred := NextExecutionWave(staged);
        var polls: nat := *;
        interrupted := ExecuteWave(wave, polls);
        if interrupted {
          WaveLeaves(graph, refusals, paths, nodes, staged, before, t, table);
          return;
        }
        WaveDone(graph, refusals, paths, nodes, staged, before, t, table);
        staged := deferred;
      }
      PreparingDone(graph, refusals, nodes, staged, before, table);
      interrupted := false;
    }

    /** The direct dependencies that have failed by now. */
    method Blockers(n: Id) returns (blockers: seq<Id>)
      requires n in graph
      ensures blockers == FailedDeps(table, graph[n].deps)
    {
      blockers := [];
      var deps := graph[n].deps;
      for i := 0 to |deps|
        invariant blockers == FailedDeps(table, deps[..i])
      {
        assert deps[..i + 1][..i] == deps[..i];
        if FailsIn(table, deps[i]) { blockers := blockers + [deps[i]]; }
      }
      assert deps[..|deps|] == deps;
    }

    /** The root failures recorded for the blockers, each once; a blocker without any is a root itself. */
    method RootFailures(blockers: seq<Id>) returns (roots: seq<Id>)
      requires forall b :: b in blockers ==> b in table
      ensures Distinct(roots) && forall r :: r in roots <==> IsRoot(table, blockers, r)
    {
      roots := [];
      for i := 0 to |blockers|
        invariant Distinct(roots) && forall r :: r in roots <==> IsRoot(table, blockers[..i], r)
      {
        ghost var known := roots;
        var b := blockers[i];
        assert blockers[..i + 1] == blockers[..i] + [b];
        var causes := if table[b].roots != [] then table[b].roots else [b];
        for j := 0 to |causes|
          invariant Distinct(roots) && forall r :: r in roots <==> r in known || r in causes[..j]
        {
          assert causes[..j + 1] == causes[..j] + [causes[j]];
          if causes[j] !in roots { roots := roots + [causes[j]]; }
        }
        assert causes[..|causes|] == causes;
        assert forall r :: RootOf(table, b, r) <==> r in causes;
      }
      assert blockers[..|blockers|] == blockers;
    }

    /** Close one planned node as soon as one of its dependencies has failed. */
    method SkipIfBlocked(n: Id) returns (skipped: bool)
      requires Valid() && n in table && table[n].status.Requested?
      modifies `table, `log
      ensures Valid() && table.Keys == old(table).Keys && (forall m :: m in table && m != n ==> table[m] == old(table)[m])
      ensures n in graph && (skipped <==> !NoneFails(graph, old(table), n))
      ensures if skipped then n in table && table[n].status.UpstreamFailed? && table[n].blockedBy == FailedDeps(old(table), graph[n].deps)
              else table == old(table)
    {
      hide Valid, FailedDeps, IsRoot, Distinct, AllCausesSound;
      Facts();
      var blockers := Blockers(n);
      FailedDepsAre(table, graph[n].deps);
      skipped := blockers != [];
      if skipped {
        assert blockers[0] in blockers;
        var roots := RootFailures(blockers);
        SkipIsRight(n, blockers, roots);
        FinishNode(n, Progress(UpstreamFailed, blockers, roots));
      }
    }

    lemma SkipIsRight(n: Id, blockers: seq<Id>, roots: seq<Id>)
      requires Valid() && n in table && n in graph && table[n].status.Requested? && blockers != []
      requires forall b :: b in blockers ==> b in graph[n].deps && FailsIn(table, b)
      requires forall r :: r in roots <==> IsRoot(table, blockers, r)
      ensures AllCausesSound(graph, table[n := Progress(UpstreamFailed, blockers, roots)])
      ensures !cancelled ==> own.Keys == graph.Keys && UpstreamFailed == Eval(graph, rank, own, n)
    {
      hide Valid, Agrees, Eval, AllCausesSound, FailsIn, IsRoot;
      Parts();
      assert blockers[0] in blockers;
      SkippedCauses(graph, table, n, blockers, roots);
      if !cancelled { EvalFails(graph, rank, own, table, n, blockers[0]); }
    }

    lemma Parts()
      requires Valid()
      ensures table.Keys == graph.Keys && own.Keys == graph.Keys && Ranked(graph, rank) && AllCausesSound(graph, table)
      ensures !cancelled ==> Agrees(graph, rank, own, table)
    {
      LogKeys(graph, table, log, maxParallel, paths);
      hide LogOk, FairEnds, AllCausesSound, Agrees, GoesOn;
    }

    /** What the callers of the steps need to know about the table. */
    lemma Facts()
      requires Valid()
      ensures table.Keys == graph.Keys && Ranked(graph, rank)
      ensures forall n :: n in table && table[n].status.Requested? ==> table[n] == PLANNED
    {
      LogKeys(graph, table, log, maxParallel, paths);
      PlannedOnes(graph, table);
    }

    /** One pass over the pending nodes, by ordinal. */
    method SkipBlocked(pending: seq<Id>, ghost relevant: set<Id>) returns (progress: bool)
      requires Valid() && NoneStarted(table) && Distinct(pending) && forall n :: n in pending <==> n in Waiting(table, relevant)
      modifies `table, `log
      ensures Valid() && NoneStarted(table) && Moved(old(table), table, relevant)
      ensures progress ==> Waiting(table, relevant) < Waiting(old(table), relevant)
      ensures !progress ==> table == old(table) && forall n :: n in pending && n in graph ==> NoneFails(graph, table, n)
    {
      hide Valid, FailedDeps, FailsIn;
      Facts();
      progress := false;
      ghost var before := table;
      for i := 0 to |pending|
        invariant Valid() && NoneStarted(table) && Moved(before, table, relevant)
        invariant forall k :: i <= k < |pending| ==> pending[k] in Waiting(table, relevant)
        invariant progress ==> Waiting(table, relevant) < Waiting(before, relevant)
        invariant !progress ==> table == before && forall k :: 0 <= k < i && pending[k] in graph ==> NoneFails(graph, table, pending[k])
      {
        ghost var t := table;
        var skipped := SkipIfBlocked(pending[i]);
        if skipped { WaitingShrinks(before, t, table, relevant, pending[i]); }
        progress := progress || skipped;
      }
    }

    method CloseWaiting(n: Id, ghost relevant: set<Id>, ghost before: Table)
      requires Valid() && NoneStarted(table) && cancelled && n in Waiting(table, relevant) && Moved(before, table, relevant)
      modifies `table, `log
      ensures Valid() && NoneStarted(table) && Moved(before, table, relevant)
      ensures Waiting(table, relevant) == Waiting(old(table), relevant) - {n}
    {
      hide Valid, Eval, Agrees, Finishes;
      MayClose();
      ghost var t := table;
      Settled(n, NotExecuted);
      WaitingShrinks(before, t, table, relevant, n);
    }

    /** The rest of a list of waiting nodes, the first one closed. */
    method CloseNext(remaining: seq<Id>, i: nat, ghost relevant: set<Id>, ghost before: Table)
      requires Valid() && NoneStarted(table) && cancelled && Moved(before, table, relevant)
      requires i < |remaining| && Distinct(remaining) && StillWaiting(table, relevant, remaining, i)
      modifies `table, `log
      ensures Valid() && NoneStarted(table) && Moved(before, table, relevant) && StillWaiting(table, relevant, remaining, i + 1)
    {
      hide Valid, Moved, Waiting;
      var n := remaining[i];
      assert remaining[i..] == [n] + remaining[i + 1..] && n !in remaining[i + 1..];
      assert n in remaining[i..];
      CloseWaiting(n, relevant, before);
    }

    /** After a cancellation everything that has not started is closed, by ordinal. */
    method CloseRemaining(relevant: set<Id>)
      requires Valid() && NoneStarted(table) && cancelled && relevant <= graph.Keys
      modifies `table, `log
      ensures Valid() && NoneStarted(table) && Moved(old(table), table, relevant) && Waiting(table, relevant) == {}
    {
      hide Valid;
      Facts();
      var remaining := SortedByOrdinal(graph, Waiting(table, relevant));
      ghost var before := table;
      assert remaining[0..] == remaining && StillWaiting(table, relevant, remaining, 0);
      hide Waiting, NoneStarted, StillWaiting, Distinct, Moved;
      for i := 0 to |remaining|
        invariant Valid() && NoneStarted(table) && Moved(before, table, relevant) && StillWaiting(table, relevant, remaining, i)
      {
        CloseNext(remaining, i, relevant, before);
      }
      NoneWaiting(table, relevant, remaining);
    }

    /** Run the ready nodes of the closure, by ordinal. */
    method RunReady(relevant: set<Id>) returns (interrupted: bool, progress: bool)
      requires Valid() && NoneStarted(table) && relevant <= graph.Keys
      modifies `table, `log, `cancelled
      ensures Valid() && NoneStarted(table) && Moved(old(table), table, relevant) && (old(cancelled) ==> cancelled)
      ensures interrupted ==> cancelled
      ensures progress <==> exists n :: n in Waiting(old(table), relevant) && DepsSucceed(graph, old(table), n)
      ensures progress && !interrupted ==> Waiting(table, relevant) < Waiting(old(table), relevant)
    {
      hide Valid, Agrees;
      Facts();
      var ready := set n | n in Waiting(table, relevant) && DepsSucceed(graph, table, n);
      progress := ready != {};
      assert progress ==> exists n :: n in ready;
      assert forall n :: n in ready <==> n in Waiting(table, relevant) && DepsSucceed(graph, table, n);
      interrupted := false;
      if progress {
        var nodes := SortedByOrdinal(graph, ready);
        ghost var before := table;
        interrupted := ExecuteReady(nodes);
        ReadyRan(before, table, relevant, nodes);
        assert nodes[0] in Waiting(before, relevant);
      }
    }

    /** One round: skip what is blocked, close everything if cancelled, else run what is ready. */
    method Round(relevant: set<Id>) returns (interrupted: bool, over: bool)
      requires Valid() && NoneStarted(table) && ClosedUnder(graph, relevant) && Waiting(table, relevant) != {}
      modifies `table, `log, `cancelled
      ensures Valid() && NoneStarted(table) && Moved(old(table), table, relevant) && (old(cancelled) ==> cancelled)
      ensures (interrupted || over ==> cancelled) && (over ==> Waiting(table, relevant) == {})
      ensures !interrupted && !over ==> Waiting(table, relevant) < Waiting(old(table), relevant)
    {
      hide Valid, Distinct, Eval, FailsIn, NoneFails, Agrees, Running, InOrder;
      Facts();
      interrupted, over := false, false;
      ghost var before := table;
      var pending := SortedByOrdinal(graph, Waiting(table, relevant));
      var skipped := SkipBlocked(pending, relevant);
      var stop := IsCancelled();
      ghost var t := table;
      if stop {
        CloseRemaining(relevant);
        MovedOn(before, t, table, relevant);
        over := true;
      } else {
        var ran;
        interrupted, ran := RunReady(relevant);
        MovedOn(before, t, table, relevant);
        if !skipped && !ran {
          MustProgress(graph, rank, relevant, before);
          assert false;
        }
      }
    }

    /** The state between two rounds. */
    ghost predicate OnTheWay(before: Table, relevant: set<Id>)
      reads this
    {
      Valid() && NoneStarted(table) && Moved(before, table, relevant)
    }

    /** One round more. */
    method NextRound(relevant: set<Id>, ghost before: Table) returns (interrupted: bool, over: bool)
      requires OnTheWay(before, relevant) && ClosedUnder(graph, relevant) && Waiting(table, relevant) != {}
      modifies `table, `log, `cancelled
      ensures OnTheWay(before, relevant) && (old(cancelled) ==> cancelled)
      ensures (interrupted || over ==> cancelled) && (over ==> Waiting(table, relevant) == {})
      ensures !interrupted && !over ==> Waiting(table, relevant) < Waiting(old(table), relevant)
      ensures Waiting(table, relevant) <= Waiting(old(table), relevant)
    {
      hide Valid, Waiting, ClosedUnder, Moved, NoneStarted;
      ghost var t := table;
      interrupted, over := Round(relevant);
      MovedOn(before, t, table, relevant);
    }

    /** Drive every node of a dependency-closed set to an end. */
    method ExecuteClosure(relevant: set<Id>) returns (interrupted: bool)
      requires Valid() && NoneStarted(table) && ClosedUnder(graph, relevant)
      modifies `table, `log, `cancelled
      ensures Valid() && NoneStarted(table) && Moved(old(table), table, relevant) && (old(cancelled) ==> cancelled)
      ensures interrupted ==> cancelled
      ensures !interrupted ==> forall n :: n in relevant ==> n in table && table[n].status.IsTerminal()
      ensures !cancelled ==> forall n :: n in relevant ==> n in table && table[n].status == Meaning(n)
      ensures !cancelled ==> forall n :: n in relevant ==> EndsAsTold(graph, refusals, bodies, table, n)
      ensures FairEnds(refusals, cancelled, table)
    {
      assert Moved(table, table, relevant);
      interrupted := Rounds(relevant);
      hide Valid, Waiting, ClosedUnder, Moved, Meaning, EndsAsTold;
      if !interrupted { AllEnded(relevant); }
      Fair();
    }

    lemma Fair()
      requires Valid()
      ensures FairEnds(refusals, cancelled, table)
    {
      hide LogOk, FairEnds, AllCausesSound, Agrees, GoesOn, FairEnds, Config;
    }

    /** Rounds until nothing of the closure waits. */
    method Rounds(relevant: set<Id>) returns (interrupted: bool)
      requires OnTheWay(table, relevant) && ClosedUnder(graph, relevant)
      modifies `table, `log, `cancelled
      ensures OnTheWay(old(table), relevant) && (old(cancelled) ==> cancelled)
      ensures (interrupted ==> cancelled) && (!interrupted ==> Waiting(table, relevant) == {})
    {
      ghost var before := table;
      hide OnTheWay, Waiting, ClosedUnder;
      interrupted := false;
      var over := false;
      while Waiting(table, relevant) != {} && !over && !interrupted
        invariant OnTheWay(before, relevant) && (old(cancelled) ==> cancelled)
        invariant (interrupted || over ==> cancelled) && (over ==> Waiting(table, relevant) == {})
        decreases Waiting(table, relevant), !over && !interrupted
      {
        interrupted, over := NextRound(relevant, before);
      }
    }

    /** What the plain recursive evaluation of the graph says about a node. */
    ghost function Meaning(n: Id): ToolStatus
      requires Config()
    {
      if n in graph then Eval(graph, rank, own, n) else NotExecuted
    }

    lemma AllEnded(relevant: set<Id>)
      requires Valid() && NoneStarted(table) && ClosedUnder(graph, relevant) && Waiting(table, relevant) == {}
      ensures forall n :: n in relevant ==> n in table && table[n].status.IsTerminal()
      ensures !cancelled ==> forall n :: n in relevant ==> n in table && table[n].status == Meaning(n)
      ensures !cancelled ==> forall n :: n in relevant ==> EndsAsTold(graph, refusals, bodies, table, n)
    {
      if !cancelled { Told(relevant); }
      hide EndsAsTold;
      LogKeys(graph, table, log, maxParallel, paths);
      hide LogOk, FairEnds, AllCausesSound, Eval, GoesOn;
      forall n | n in relevant ensures n in table && table[n].status.IsTerminal() {
        assert n !in Waiting(table, relevant);
      }
    }

    lemma Told(relevant: set<Id>)
      requires Valid() && NoneStarted(table) && ClosedUnder(graph, relevant) && Waiting(table, relevant) == {} && !cancelled
      ensures forall n :: n in relevant ==> EndsAsTold(graph, refusals, bodies, table, n)
    {
      LogKeys(graph, table, log, maxParallel, paths);
      hide LogOk, FairEnds, AllCausesSound, Eval, GoesOn, OwnStatus, EndsAsTold, Ranked;
      assert own == OwnOf(graph, refusals, bodies);
      forall n | n in relevant ensures n in table && table[n].status.IsTerminal() {
        assert n !in Waiting(table, relevant);
      }
      EndedAsTold(graph, rank, refusals, bodies, table, relevant);
    }

    lemma RefusalIsOwn(n: Id)
      requires Valid() && !cancelled && n in graph && n in refusals && DepsSucceed(graph, table, n)
      ensures Finishes(Requested, refusals[n]) && !refusals[n].UpstreamFailed? && refusals[n] == Eval(graph, rank, own, n)
    {
      LogKeys(graph, table, log, maxParallel, paths);
      EvalSucceeds(graph, rank, own, table, n);
    }

    lemma MayStart(staged: seq<Id>, next: nat, inFlight: set<Id>, before: Table)
      requires Valid() && Runnable(graph, paths, refusals, staged, before) && WaveState(staged, next, inFlight, before, table)
      requires next < |staged| && |inFlight| < maxParallel
      ensures staged[next] in table && table[staged[next]] == PLANNED && staged[next] !in inFlight
      ensures DepsSucceed(graph, table, staged[next])
      ensures WithinLimits(Running(log) + {staged[next]}, maxParallel, paths)
    {
      LogKeys(graph, table, log, maxParallel, paths);
      hide LogOk, FairEnds, Agrees, AllCausesSound, Eval, Running, GoesOn;
      assert Running(log) == inFlight;
      OneMoreWithinLimits(staged, next, inFlight, maxParallel, paths);
      WaitingDeps(graph, staged, next, inFlight, before, table);
    }

    lemma WaveHas(staged: seq<Id>, next: nat, inFlight: set<Id>, before: Table, t: Table, n: Id)
      requires WaveState(staged, next, inFlight, before, t) && n in inFlight
      ensures n in t && t[n].status.Started? && n in staged
      ensures Runnable(graph, paths, refusals, staged, before) ==> n in graph && n !in refusals && DepsSucceed(graph, t, n)
    {
    }
  }

  /** Distinct planned nodes whose dependencies have all succeeded. */
  ghost predicate Ready(g: Graph, nodes: seq<Id>, t: Table) {
    Distinct(nodes) && t.Keys == g.Keys && forall n :: n in nodes ==> n in g && t[n] == PLANNED && DepsSucceed(g, t, n)
  }

  /** How far the preparation has got: the first `i` nodes are staged or closed, the rest are untouched. */
  ghost predicate Preparing(g: Graph, refusals: map<Id, ToolStatus>, nodes: seq<Id>, i: nat, staged: seq<Id>, before: Table, t: Table) {
    && i <= |nodes| && t.Keys == before.Keys && NoneStarted(t) && Ready(g, staged, t)
    && (forall n :: n in staged ==> n in nodes[..i] && n !in refusals)
    && (forall n :: n in nodes[..i] && n !in staged ==> n in t && t[n].status.IsTerminal())
    && (forall n :: n in t && n !in nodes[..i] ==> t[n] == before[n])
  }

  lemma PreparingNext(g: Graph, refusals: map<Id, ToolStatus>, nodes: seq<Id>, i: nat, staged: seq<Id>, before: Table, t: Table)
    requires Ready(g, nodes, before) && Preparing(g, refusals, nodes, i, staged, before, t) && i < |nodes|
    ensures nodes[i] in g && nodes[i] in t && t[nodes[i]] == PLANNED && nodes[i] !in staged && DepsSucceed(g, t, nodes[i])
  {
    var n := nodes[i];
    assert n !in nodes[..i];
    forall d | d in g[n].deps ensures Succeeds(t, d) {
      assert Succeeds(before, d);
      assert d !in nodes[..i];
    }
  }

  lemma PreparingClosed(g: Graph, refusals: map<Id, ToolStatus>, nodes: seq<Id>, i: nat, staged: seq<Id>, before: Table, t: Table, p: Progress)
    requires Ready(g, nodes, before) && Preparing(g, refusals, nodes, i, staged, before, t) && i < |nodes| && p.status.IsTerminal()
    ensures Preparing(g, refusals, nodes, i + 1, staged, before, t[nodes[i] := p])
  {
    PreparingNext(g, refusals, nodes, i, staged, before, t);
    var u := t[nodes[i] := p];
    assert u.Keys == t.Keys && nodes[..i + 1] == nodes[..i] + [nodes[i]];
    forall m, d | m in staged && d in g[m].deps ensures Succeeds(u, d) { assert Succeeds(t, d); }
  }

  lemma PreparingStaged(g: Graph, refusals: map<Id, ToolStatus>, nodes: seq<Id>, i: nat, staged: seq<Id>, before: Table, t: Table)
    requires Ready(g, nodes, before) && Preparing(g, refusals, nodes, i, staged, before, t) && i < |nodes| && nodes[i] !in refusals
    ensures Preparing(g, refusals, nodes, i + 1, staged + [nodes[i]], before, t)
  {
    PreparingNext(g, refusals, nodes, i, staged, before, t);
    hide DepsSucceed;
    assert nodes[..i + 1] == nodes[..i] + [nodes[i]];
  }

  lemma PreparingDrops(g: Graph, refusals: map<Id, ToolStatus>, nodes: seq<Id>, staged: seq<Id>, before: Table, t: Table, p: Progress)
    requires Preparing(g, refusals, nodes, |nodes|, staged, before, t) && staged != [] && p.status.IsTerminal()
    ensures staged[0] in t && t[staged[0]] == PLANNED
    ensures Preparing(g, refusals, nodes, |nodes|, staged[1..], before, t[staged[0] := p])
  {
    var u := t[staged[0] := p];
    assert u.Keys == t.Keys && nodes[..|nodes|] == nodes;
    assert staged == [staged[0]] + staged[1..];
    forall m, d | m in staged[1..] && d in g[m].deps ensures Succeeds(u, d) {
      assert m in staged && DepsSucceed(g, t, m);
      assert Succeeds(t, d);
    }
  }

  lemma PreparingSplits(g: Graph, refusals: map<Id, ToolStatus>, paths: map<Id, string>, nodes: seq<Id>, staged: seq<Id>, before: Table, t: Table)
    requires Preparing(g, refusals, nodes, |nodes|, staged, before, t)
    ensures NoneStarted(t) && Runnable(g, paths, refusals, NextWave(staged, paths).wave, t)
    ensures |NextWave(staged, paths).deferred| < |staged| || staged == []
  {
    NextWaveSplits(staged, paths);
    hide Distinct, DistinctPaths, DepsSucceed, NextWave;
  }

  lemma DeferredReady(g: Graph, staged: seq<Id>, s: Split, t: Table, u: Table)
    requires Ready(g, staged, t) && u.Keys == t.Keys && Distinct(s.deferred)
    requires forall n :: n in s.deferred ==> n in staged && n !in s.wave
    requires forall n :: n in s.wave ==> n in staged
    requires forall n :: n in u && n !in s.wave ==> u[n] == t[n]
    ensures Ready(g, s.deferred, u)
  {
    forall m, d | m in s.deferred && d in g[m].deps ensures Succeeds(u, d) {
      assert m in staged && DepsSucceed(g, t, m);
      assert Succeeds(t, d);
      assert d !in s.wave;
    }
    hide Distinct;
  }

  lemma WaveDone(g: Graph, refusals: map<Id, ToolStatus>, paths: map<Id, string>, nodes: seq<Id>, staged: seq<Id>, before: Table, t: Table, u: Table)
    requires Preparing(g, refusals, nodes, |nodes|, staged, before, t) && NoneStarted(u) && u.Keys == t.Keys
    requires forall n :: n in u && n !in NextWave(staged, paths).wave ==> u[n] == t[n]
    requires forall n :: n in NextWave(staged, paths).wave ==> n in u && u[n].status.IsTerminal()
    ensures Preparing(g, refusals, nodes, |nodes|, NextWave(staged, paths).deferred, before, u)
  {
    hide *;
    StagedReady(g, refusals, nodes, staged, before, t);
    NextWaveSplits(staged, paths);
    SplitDone(g, refusals, paths, nodes, staged, NextWave(staged, paths), before, t, u);
  }

  lemma StagedReady(g: Graph, refusals: map<Id, ToolStatus>, nodes: seq<Id>, staged: seq<Id>, before: Table, t: Table)
    requires Preparing(g, refusals, nodes, |nodes|, staged, before, t)
    ensures Ready(g, staged, t) && Distinct(staged)
  {
    hide DepsSucceed;
  }

  lemma SplitDone(g: Graph, refusals: map<Id, ToolStatus>, paths: map<Id, string>, nodes: seq<Id>, staged: seq<Id>, s: Split,
                  before: Table, t: Table, u: Table)
    requires Preparing(g, refusals, nodes, |nodes|, staged, before, t) && NoneStarted(u) && u.Keys == t.Keys && SharesOut(staged, s, paths)
    requires forall n :: n in u && n !in s.wave ==> u[n] == t[n]
    requires forall n :: n in s.wave ==> n in u && u[n].status.IsTerminal()
    ensures Preparing(g, refusals, nodes, |nodes|, s.deferred, before, u)
  {
    assert nodes[..|nodes|] == nodes;
    hide DistinctPaths, Distinct, NoneStarted;
    assert forall n :: n in s.deferred ==> n in staged;
    assert forall n :: n in s.wave ==> n in staged;
    DeferredReady(g, staged, s, t, u);
    hide Ready, DepsSucceed;
  }

  lemma WaveLeaves(g: Graph, refusals: map<Id, ToolStatus>, paths: map<Id, string>, nodes: seq<Id>, staged: seq<Id>,
                   before: Table, t: Table, u: Table)
    requires Preparing(g, refusals, nodes, |nodes|, staged, before, t) && u.Keys == t.Keys
    requires forall n :: n in u && n !in NextWave(staged, paths).wave ==> u[n] == t[n]
    ensures u.Keys == before.Keys && forall n :: n in u && n !in nodes ==> u[n] == before[n]
  {
    NextWaveSplits(staged, paths);
    assert nodes[..|nodes|] == nodes;
  }

  lemma PreparingDone(g: Graph, refusals: map<Id, ToolStatus>, nodes: seq<Id>, staged: seq<Id>, before: Table, t: Table)
    requires Preparing(g, refusals, nodes, |nodes|, staged, before, t)
    ensures NoneStarted(t) && t.Keys == before.Keys && forall n :: n in t && n !in nodes ==> t[n] == before[n]
    ensures staged == [] ==> forall n :: n in nodes ==> n in t && t[n].status.IsTerminal()
  {
    assert nodes[..|nodes|] == nodes;
  }

  // ----- Nodes that still wait -----

  function Waiting(t: Table, relevant: set<Id>): set<Id> {
    set n | n in relevant && n in t && t[n].status.Requested?
  }

  /** What is still waiting is the rest of this list. */
  ghost predicate StillWaiting(t: Table, relevant: set<Id>, list: seq<Id>, i: nat)
    requires i <= |list|
  {
    forall n :: n in Waiting(t, relevant) <==> n in list[i..]
  }

  lemma NoneWaiting(t: Table, relevant: set<Id>, list: seq<Id>)
    requires StillWaiting(t, relevant, list, |list|)
    ensures Waiting(t, relevant) == {}
  {
    assert list[|list|..] == [];
  }

  predicate ClosedUnder(g: Graph, relevant: set<Id>) {
    relevant <= g.Keys && forall n, d :: n in relevant && d in g[n].deps ==> d in relevant
  }

  /** Only waiting nodes of the closure may have changed. */
  ghost predicate Moved(before: Table, t: Table, relevant: set<Id>) {
    && t.Keys == before.Keys && Waiting(t, relevant) <= Waiting(before, relevant)
    && forall n :: n in t && n !in Waiting(before, relevant) ==> t[n] == before[n]
  }

  lemma MovedOn(before: Table, t: Table, u: Table, relevant: set<Id>)
    requires Moved(before, t, relevant) && Moved(t, u, relevant)
    ensures Moved(before, u, relevant) && Waiting(u, relevant) <= Waiting(t, relevant)
  {
  }

  lemma WaitingShrinks(before: Table, t: Table, u: Table, relevant: set<Id>, n: Id)
    requires Moved(before, t, relevant) && n in Waiting(t, relevant) && u.Keys == t.Keys && u[n].status.IsTerminal()
    requires forall m :: m in u && m != n ==> u[m] == t[m]
    ensures Moved(before, u, relevant) && Waiting(u, relevant) == Waiting(t, relevant) - {n}
    ensures Waiting(u, relevant) < Waiting(before, relevant)
  {
    assert n in Waiting(before, relevant) && n !in Waiting(u, relevant);
  }

  lemma ReadyRan(before: Table, t: Table, relevant: set<Id>, nodes: seq<Id>)
    requires t.Keys == before.Keys && forall n :: n in nodes ==> n in Waiting(before, relevant)
    requires forall n :: n in t && n !in nodes ==> t[n] == before[n]
    ensures Moved(before, t, relevant)
    ensures nodes != [] && (forall n :: n in nodes ==> n in t && t[n].status.IsTerminal()) ==> Waiting(t, relevant) < Waiting(before, relevant)
  {
    assert nodes != [] ==> nodes[0] in Waiting(before, relevant);
  }

  lemma PlannedOnes(g: Graph, t: Table)
    requires AllCausesSound(g, t)
    ensures forall n :: n in t && t[n].status.Requested? ==> t[n] == PLANNED
  {
    forall n | n in t && t[n].status.Requested? ensures t[n] == PLANNED { assert CausesSound(g, t, n); }
  }

  lemma {:induction false} Lowest(g: Graph, rank: map<Id, nat>, t: Table, relevant: set<Id>, n: Id)
    requires Ranked(g, rank) && ClosedUnder(g, relevant) && n in Waiting(t, relevant)
    ensures exists m :: m in Waiting(t, relevant) && forall d :: d in g[m].deps ==> d !in Waiting(t, relevant)
    decreases rank[n]
  {
    if d :| d in g[n].deps && d in Waiting(t, relevant) {
      Lowest(g, rank, t, relevant, d);
    }
  }

  /** While nodes wait and none has failed dependencies, some node is ready: the scheduler never gets stuck. */
  lemma MustProgress(g: Graph, rank: map<Id, nat>, relevant: set<Id>, t: Table)
    requires Ranked(g, rank) && ClosedUnder(g, relevant) && t.Keys == g.Keys && NoneStarted(t) && Waiting(t, relevant) != {}
    ensures (exists n :: n in Waiting(t, relevant) && !NoneFails(g, t, n))
         || (exists n :: n in Waiting(t, relevant) && DepsSucceed(g, t, n))
  {
    var n :| n in Waiting(t, relevant);
    Lowest(g, rank, t, relevant, n);
    var m :| m in Waiting(t, relevant) && forall d :: d in g[m].deps ==> d !in Waiting(t, relevant);
    if !DepsSucceed(g, t, m) {
      var d :| d in g[m].deps && !Succeeds(t, d);
      assert d in relevant;
      assert FailsIn(t, d);
    }
  }

  function FailedDeps(t: Table, deps: seq<Id>): seq<Id> {
    if deps == [] then []
    else
      var d := deps[|deps| - 1];
      FailedDeps(t, deps[..|deps| - 1]) + if FailsIn(t, d) then [d] else []
  }

  lemma {:induction false} FailedDepsAre(t: Table, deps: seq<Id>)
    ensures forall d :: d in FailedDeps(t, deps) <==> d in deps && FailsIn(t, d)
  {
    if deps != [] {
      FailedDepsAre(t, deps[..|deps| - 1]);
      assert deps == deps[..|deps| - 1] + [deps[|deps| - 1]];
    }
  }

  predicate IsRoot(t: Table, blockers: seq<Id>, r: Id) {
    exists b :: b in blockers && b in t && RootOf(t, b, r)
  }

  lemma SkippedCauses(g: Graph, t: Table, n: Id, blockers: seq<Id>, roots: seq<Id>)
    requires AllCausesSound(g, t) && n in g && n in t && t[n].status.Requested? && blockers != []
    requires forall m, d :: m in g && d in g[m].deps ==> d in g
    requires forall b :: b in blockers ==> b in g[n].deps && FailsIn(t, b)
    requires forall r :: r in roots <==> IsRoot(t, blockers, r)
    ensures AllCausesSound(g, t[n := Progress(UpstreamFailed, blockers, roots)])
  {
    hide AllCausesSound, RootOf;
    assert blockers[0] in blockers;
    HasRoot(t, blockers, roots);
    SkipCauses(g, t, n, Progress(UpstreamFailed, blockers, roots));
  }

  lemma HasRoot(t: Table, blockers: seq<Id>, roots: seq<Id>)
    requires blockers != [] && blockers[0] in t && forall r :: r in roots <==> IsRoot(t, blockers, r)
    ensures roots != []
  {
    var b := blockers[0];
    var r := if t[b].roots != [] then t[b].roots[0] else b;
    assert RootOf(t, b, r);
    assert IsRoot(t, blockers, r);
  }

  lemma {:induction false} LeastOrdinal(g: Graph, ids: set<Id>)
    requires ids != {} && ids <= g.Keys
    ensures exists n :: n in ids && forall m :: m in ids ==> g[n].ordinal <= g[m].ordinal
  {
    var n :| n in ids;
    var others := ids - {n};
    assert forall k :: k in ids <==> k == n || k in others;
    if others != {} {
      LeastOrdinal(g, others);
      var m :| m in others && forall k :: k in others ==> g[m].ordinal <= g[k].ordinal;
      if g[n].ordinal <= g[m].ordinal {
        assert forall k :: k in ids ==> g[n].ordinal <= g[k].ordinal;
      } else {
        assert forall k :: k in ids ==> g[m].ordinal <= g[k].ordinal;
      }
    }
  }

  lemma RunnableOnce(g: Graph, paths: map<Id, string>, refusals: map<Id, ToolStatus>, staged: seq<Id>, before: Table)
    requires Runnable(g, paths, refusals, staged, before)
    ensures Distinct(staged)
  {
  }

  lemma WaveBegins(g: Graph, paths: map<Id, string>, refusals: map<Id, ToolStatus>, staged: seq<Id>, t: Table)
    requires Runnable(g, paths, refusals, staged, t) && NoneStarted(t)
    ensures WaveState(staged, 0, {}, t, t)
  {
  }

  lemma WaveOver(staged: seq<Id>, next: nat, inFlight: set<Id>, before: Table, t: Table)
    requires WaveState(staged, next, inFlight, before, t) && inFlight == {}
    ensures NoneStarted(t) && t.Keys == before.Keys
    ensures forall n :: n in t && n !in staged ==> t[n] == before[n]
    ensures forall n :: n in staged ==> n in t && (t[n].status.IsTerminal() || (t[n] == PLANNED && next < |staged|))
  {
  }

  lemma FewerLeft(all: set<Id>, done: set<Id>)
    requires done <= all && done != {}
    ensures |all - done| < |all|
  {
    assert all == (all - done) + done;
  }

  lemma OneMoreWithinLimits(staged: seq<Id>, next: nat, inFlight: set<Id>, limit: nat, paths: map<Id, string>)
    requires Distinct(staged) && DistinctPaths(staged, paths) && next < |staged| && |inFlight| < limit
    requires forall n :: n in inFlight ==> n in staged
    ensures WithinLimits(inFlight + {staged[next]}, limit, paths)
  {
    forall a, b | a in staged && b in staged && a != b && a in paths && b in paths ensures paths[a] != paths[b] {
      var i :| 0 <= i < |staged| && staged[i] == a;
      var j :| 0 <= j < |staged| && staged[j] == b;
      assert i < j || j < i;
    }
  }

  lemma WaitingDeps(g: Graph, staged: seq<Id>, next: nat, inFlight: set<Id>, before: Table, t: Table)
    requires WaveState(staged, next, inFlight, before, t) && next < |staged|
    requires forall n :: n in staged ==> n in g && before[n] == PLANNED && DepsSucceed(g, before, n)
    ensures DepsSucceed(g, t, staged[next])
  {
    forall d | d in g[staged[next]].deps ensures Succeeds(t, d) {
      assert Succeeds(before, d);
      assert d !in staged;
    }
  }

  lemma LogKeys(g: Graph, t: Table, log: seq<Act>, limit: nat, paths: map<Id, string>)
    requires LogOk(g, t, log, limit, paths)
    ensures t.Keys == g.Keys
    ensures forall n :: n in t ==> (t[n].status.Started? <==> n in Running(log))
    ensures forall n :: n in Running(log) ==> n in t
  {
  }
}
