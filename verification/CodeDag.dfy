/**
 The meaning of a Code Mode graph, and the state that its scheduler keeps: a plain recursive
 evaluation, the progress of every node, and the log of what was appended.
 */
module CodeDag {
  import opened Domain

  type Id = string

  datatype Spec = Spec(ordinal: nat, deps: seq<Id>)

  type Graph = map<Id, Spec>

  datatype Progress = Progress(status: ToolStatus, blockedBy: seq<Id>, roots: seq<Id>)

  type Table = map<Id, Progress>

  datatype Act =
    | Start(id: Id)
    | Finish(id: Id, status: ToolStatus)

  const PLANNED := Progress(Requested, [], [])

  /** A witness that the graph is acyclic and closed: dependencies rank lower. */
  ghost predicate Ranked(g: Graph, rank: map<Id, nat>) {
    && g.Keys <= rank.Keys
    && forall n, d :: n in g && d in g[n].deps ==> d in g && rank[d] < rank[n]
  }

  /** The reference: a node fails upstream when a direct dependency does not succeed, else it has its own result. */
  ghost function Eval(g: Graph, rank: map<Id, nat>, own: map<Id, ToolStatus>, n: Id): ToolStatus
    requires Ranked(g, rank) && n in g && g.Keys <= own.Keys
    decreases rank[n]
  {
    if exists d :: d in g[n].deps && !Eval(g, rank, own, d).IsSuccess() then UpstreamFailed else own[n]
  }

  /** The ranking only makes the recursion end; it does not matter which one is used. */
  lemma {:induction false} EvalIsUnique(g: Graph, rank: map<Id, nat>, other: map<Id, nat>, own: map<Id, ToolStatus>, n: Id)
    requires Ranked(g, rank) && Ranked(g, other) && n in g && g.Keys <= own.Keys
    ensures Eval(g, rank, own, n) == Eval(g, other, own, n)
    decreases rank[n]
  {
    forall d | d in g[n].deps ensures Eval(g, rank, own, d) == Eval(g, other, own, d) {
      EvalIsUnique(g, rank, other, own, d);
    }
  }

  predicate Status(t: Table, n: Id, status: ToolStatus) { n in t && t[n].status == status }

  predicate Succeeds(t: Table, n: Id) { n in t && t[n].status.IsSuccess() }

  predicate FailsIn(t: Table, n: Id) { n in t && t[n].status.IsTerminal() && !t[n].status.IsSuccess() }

  /** Every finished node has the result that the reference gives it. */
  ghost predicate Agrees(g: Graph, rank: map<Id, nat>, own: map<Id, ToolStatus>, t: Table)
    requires Ranked(g, rank) && g.Keys <= own.Keys && t.Keys == g.Keys
  {
    forall n :: n in g && t[n].status.IsTerminal() ==> t[n].status == Eval(g, rank, own, n)
  }

  // ----- Causes of a failure -----

  ghost predicate Leads(g: Graph, path: seq<Id>) {
    && |path| >= 1
    && (forall i :: 0 <= i < |path| ==> path[i] in g)
    && (forall i :: 0 <= i < |path| - 1 ==> path[i + 1] in g[path[i]].deps)
  }

  ghost predicate Ancestor(g: Graph, n: Id, a: Id) {
    exists path :: Leads(g, path) && |path| > 1 && path[0] == n && path[|path| - 1] == a
  }

  /** What the causes recorded for a node may be. */
  ghost predicate CausesSound(g: Graph, t: Table, n: Id)
    requires n in g && n in t
  {
    if t[n].status.UpstreamFailed? then
      && t[n].blockedBy != [] && t[n].roots != []
      && (forall b :: b in t[n].blockedBy ==> b in g[n].deps && FailsIn(t, b))
      && (forall r :: r in t[n].roots ==> Ancestor(g, n, r) && FailsIn(t, r) && !t[r].status.UpstreamFailed?)
    else t[n].blockedBy == [] && t[n].roots == []
  }

  ghost predicate AllCausesSound(g: Graph, t: Table) {
    t.Keys == g.Keys && forall n :: n in g ==> CausesSound(g, t, n)
  }

  lemma DirectAncestor(g: Graph, n: Id, d: Id)
    requires n in g && d in g && d in g[n].deps
    ensures Ancestor(g, n, d)
  {
    assert Leads(g, [n, d]);
  }

  lemma AncestorThrough(g: Graph, n: Id, d: Id, a: Id)
    requires n in g && d in g[n].deps && Ancestor(g, d, a)
    ensures Ancestor(g, n, a)
  {
    var path :| Leads(g, path) && |path| > 1 && path[0] == d && path[|path| - 1] == a;
    var longer := [n] + path;
    assert forall i :: 0 <= i < |longer| - 1 ==> longer[i + 1] == path[i];
    assert Leads(g, longer);
  }

  // ----- The log -----

  /** The nodes whose bodies are running after these facts. */
  function Running(log: seq<Act>): set<Id> {
    if log == [] then {}
    else
      var before := Running(log[..|log| - 1]);
      match log[|log| - 1]
      case Start(n) => before + {n}
      case Finish(n, _) => before - {n}
  }

  ghost predicate Logged(log: seq<Act>, n: Id, status: ToolStatus) {
    exists j :: 0 <= j < |log| && log[j] == Finish(n, status)
  }

  /** The log says what the table says: who runs, who finished and how. */
  ghost predicate LogMatches(t: Table, log: seq<Act>) {
    && (forall n :: n in Running(log) <==> (n in t && t[n].status.Started?))
    && (forall n :: n in t && t[n].status.IsTerminal() ==> Logged(log, n, t[n].status))
    && (forall j :: 0 <= j < |log| ==> log[j].id in t)
    && (forall j :: 0 <= j < |log| && log[j].Finish? ==> t[log[j].id].status == log[j].status && log[j].status.IsTerminal())
    && (forall j :: 0 <= j < |log| ==> !t[log[j].id].status.Requested?)
  }

  /** No body starts before each of its dependencies has finished with success. */
  ghost predicate StartsReady(g: Graph, log: seq<Act>) {
    forall i, d :: 0 <= i < |log| && log[i].Start? && log[i].id in g && d in g[log[i].id].deps ==>
      exists j :: 0 <= j < i && log[j].Finish? && log[j].id == d && log[j].status.IsSuccess()
  }

  /** A node starts at most once and finishes at most once. */
  ghost predicate OnceEach(log: seq<Act>) {
    forall i, j :: 0 <= i < j < |log| && log[i].id == log[j].id ==> log[i].Start? && log[j].Finish?
  }

  /** At most `limit` bodies at once, and never two that write the same path. */
  ghost predicate WithinLimits(running: set<Id>, limit: nat, paths: map<Id, string>) {
    && |running| <= limit
    && (forall a, b :: a in running && b in running && a != b && a in paths && b in paths ==> paths[a] != paths[b])
  }

  ghost predicate AlwaysWithinLimits(log: seq<Act>, limit: nat, paths: map<Id, string>) {
    forall k :: 0 <= k <= |log| ==> WithinLimits(Running(log[..k]), limit, paths)
  }

  /** The finishes that the scheduler writes: none leaves the outcome open. */
  predicate Finishes(from: ToolStatus, status: ToolStatus) { from.MayFinishAs(status) && !status.OutcomeUnknown? }

  /** Every finish is one that the status of the call allows. */
  ghost predicate LegalMoves(log: seq<Act>) {
    forall j :: 0 <= j < |log| && log[j].Finish? ==>
      Finishes(if log[j].id in Running(log[..j]) then Started else Requested, log[j].status)
  }

  ghost predicate LogOk(g: Graph, t: Table, log: seq<Act>, limit: nat, paths: map<Id, string>) {
    t.Keys == g.Keys && LogMatches(t, log) && StartsReady(g, log) && OnceEach(log)
    && LegalMoves(log) && AlwaysWithinLimits(log, limit, paths)
  }

  lemma LimitsExtend(log: seq<Act>, a: Act, limit: nat, paths: map<Id, string>)
    requires AlwaysWithinLimits(log, limit, paths) && WithinLimits(Running(log + [a]), limit, paths)
    ensures AlwaysWithinLimits(log + [a], limit, paths)
  {
    forall k | 0 <= k <= |log + [a]| ensures WithinLimits(Running((log + [a])[..k]), limit, paths) {
      if k <= |log| {
        assert (log + [a])[..k] == log[..k];
      } else {
        assert (log + [a])[..k] == log + [a];
      }
    }
  }

  lemma RunningExtend(log: seq<Act>, a: Act)
    ensures Running(log + [a]) == if a.Start? then Running(log) + {a.id} else Running(log) - {a.id}
  {
    assert (log + [a])[..|log|] == log;
  }

  lemma StartMatches(t: Table, log: seq<Act>, n: Id)
    requires LogMatches(t, log) && Status(t, n, Requested)
    ensures LogMatches(t[n := Progress(Started, [], [])], log + [Start(n)])
  {
    var more := log + [Start(n)];
    var u := t[n := Progress(Started, [], [])];
    RunningExtend(log, Start(n));
    forall m | m in u && u[m].status.IsTerminal() ensures Logged(more, m, u[m].status) {
      var j :| 0 <= j < |log| && log[j] == Finish(m, t[m].status);
      assert more[j] == Finish(m, t[m].status);
    }
  }

  lemma StartKeepsReady(g: Graph, t: Table, log: seq<Act>, n: Id)
    requires StartsReady(g, log) && LogMatches(t, log) && n in g && forall d :: d in g[n].deps ==> Succeeds(t, d)
    ensures StartsReady(g, log + [Start(n)])
  {
    var more := log + [Start(n)];
    forall i, d | 0 <= i < |more| && more[i].Start? && more[i].id in g && d in g[more[i].id].deps
      ensures exists j :: 0 <= j < i && more[j].Finish? && more[j].id == d && more[j].status.IsSuccess()
    {
      if i < |log| {
        var j :| 0 <= j < i && log[j].Finish? && log[j].id == d && log[j].status.IsSuccess();
        assert more[j] == log[j];
      } else {
        assert Succeeds(t, d) && Logged(log, d, t[d].status);
        var j :| 0 <= j < |log| && log[j] == Finish(d, t[d].status);
        assert more[j] == log[j];
      }
    }
  }

  lemma StartLogged(g: Graph, t: Table, log: seq<Act>, limit: nat, paths: map<Id, string>, n: Id)
    requires LogOk(g, t, log, limit, paths) && Status(t, n, Requested)
    requires forall d :: d in g[n].deps ==> Succeeds(t, d)
    requires WithinLimits(Running(log) + {n}, limit, paths)
    ensures LogOk(g, t[n := Progress(Started, [], [])], log + [Start(n)], limit, paths)
  {
    RunningExtend(log, Start(n));
    hide LegalMoves, WithinLimits, StartsReady, Running, AlwaysWithinLimits;
    LimitsExtend(log, Start(n), limit, paths);
    StartMatches(t, log, n);
    StartKeepsReady(g, t, log, n);
    assert OnceEach(log + [Start(n)]);
    MovesExtend(log, Start(n));
    assert t[n := Progress(Started, [], [])].Keys == t.Keys;
  }

  lemma FinishMatches(t: Table, log: seq<Act>, n: Id, p: Progress)
    requires LogMatches(t, log) && n in t && t[n].status.IsOpen() && p.status.IsTerminal()
    ensures LogMatches(t[n := p], log + [Finish(n, p.status)])
  {
    var more := log + [Finish(n, p.status)];
    var u := t[n := p];
    RunningExtend(log, Finish(n, p.status));
    assert more[|log|] == Finish(n, p.status);
    forall m | m in u && u[m].status.IsTerminal() ensures Logged(more, m, u[m].status) {
      if m != n {
        var j :| 0 <= j < |log| && log[j] == Finish(m, t[m].status);
        assert more[j] == Finish(m, t[m].status);
      }
    }
  }

  lemma FinishKeepsReady(g: Graph, log: seq<Act>, n: Id, status: ToolStatus)
    requires StartsReady(g, log)
    ensures StartsReady(g, log + [Finish(n, status)])
  {
    var more := log + [Finish(n, status)];
    forall i, d | 0 <= i < |more| && more[i].Start? && more[i].id in g && d in g[more[i].id].deps
      ensures exists j :: 0 <= j < i && more[j].Finish? && more[j].id == d && more[j].status.IsSuccess()
    {
      var j :| 0 <= j < i && log[j].Finish? && log[j].id == d && log[j].status.IsSuccess();
      assert more[j] == log[j];
    }
  }

  /** An open node has not finished before. */
  lemma OnceMore(t: Table, log: seq<Act>, n: Id, status: ToolStatus)
    requires LogMatches(t, log) && OnceEach(log) && n in t && t[n].status.IsOpen()
    ensures OnceEach(log + [Finish(n, status)])
  {
    var more := log + [Finish(n, status)];
    assert forall i :: 0 <= i < |log| && log[i].id == n ==> log[i].Start?;
  }

  lemma MovesAllowed(t: Table, log: seq<Act>, n: Id, status: ToolStatus)
    requires LogMatches(t, log) && n in t && Finishes(t[n].status, status)
    ensures t[n].status.IsOpen() && status.IsTerminal()
    ensures Finishes(if n in Running(log) then Started else Requested, status)
  {
    hide Running;
  }

  lemma FinishLogged(g: Graph, t: Table, log: seq<Act>, limit: nat, paths: map<Id, string>, n: Id, p: Progress)
    requires LogOk(g, t, log, limit, paths) && n in t && Finishes(t[n].status, p.status)
    ensures LogOk(g, t[n := p], log + [Finish(n, p.status)], limit, paths)
  {
    hide LegalMoves, WithinLimits, StartsReady, Running, AlwaysWithinLimits, LogMatches, OnceEach, Finishes;
    var a := Finish(n, p.status);
    RunningExtend(log, a);
    NowWithinLimits(log, limit, paths);
    MovesAllowed(t, log, n, p.status);
    OnceMore(t, log, n, p.status);
    FewerWithinLimits(Running(log), Running(log + [a]), limit, paths);
    LimitsExtend(log, a, limit, paths);
    FinishMatches(t, log, n, p);
    FinishKeepsReady(g, log, n, p.status);
    MovesExtend(log, a);
    assert t[n := p].Keys == t.Keys;
  }

  lemma NowWithinLimits(log: seq<Act>, limit: nat, paths: map<Id, string>)
    requires AlwaysWithinLimits(log, limit, paths)
    ensures WithinLimits(Running(log), limit, paths)
  {
    assert log[..|log|] == log;
  }

  lemma MovesExtend(log: seq<Act>, a: Act)
    requires LegalMoves(log)
    requires a.Finish? ==> Finishes(if a.id in Running(log) then Started else Requested, a.status)
    ensures LegalMoves(log + [a])
  {
    var more := log + [a];
    forall j | 0 <= j < |more| && more[j].Finish?
      ensures Finishes(if more[j].id in Running(more[..j]) then Started else Requested, more[j].status)
    {
      assert more[..j] == if j < |log| then log[..j] else log;
    }
  }

  lemma FewerWithinLimits(all: set<Id>, some: set<Id>, limit: nat, paths: map<Id, string>)
    requires some <= all && WithinLimits(all, limit, paths)
    ensures WithinLimits(some, limit, paths)
  {
    assert all == some + (all - some);
  }
}
