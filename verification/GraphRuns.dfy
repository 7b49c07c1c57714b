/**
 A run that grows from request to request: what is finished stays right in the larger graph, and which notes the
 executor writes around each act of the scheduler.
 */
module GraphRuns {
  import opened Domain
  import opened CodeDag
  import opened DagScheduler
  import opened DagPlanning
  import F = GraphFacts

  // ----- A graph that grows between two requests -----

  ghost predicate Subgraph(g: Graph, more: Graph) { forall n :: n in g ==> n in more && more[n] == g[n] }

  /** The table of the larger graph: what is new is planned. */
  function Grown(more: Graph, t: Table): Table { map n | n in more :: if n in t then t[n] else PLANNED }

  lemma {:induction false} EvalGrows(g: Graph, rank: map<Id, nat>, more: Graph, higher: map<Id, nat>,
                                     refusals: map<Id, ToolStatus>, bodies: map<Id, Option<ToolStatus>>, n: Id)
    requires Ranked(g, rank) && Ranked(more, higher) && Subgraph(g, more) && n in g
    ensures Eval(g, rank, OwnOf(g, refusals, bodies), n) == Eval(more, higher, OwnOf(more, refusals, bodies), n)
    decreases rank[n]
  {
    forall d | d in g[n].deps
      ensures Eval(g, rank, OwnOf(g, refusals, bodies), d) == Eval(more, higher, OwnOf(more, refusals, bodies), d)
    {
      EvalGrows(g, rank, more, higher, refusals, bodies, d);
    }
  }

  lemma LogGrows(g: Graph, more: Graph, t: Table, log: seq<Act>, limit: nat, paths: map<Id, string>)
    requires LogOk(g, t, log, limit, paths) && Subgraph(g, more)
    ensures LogOk(more, Grown(more, t), log, limit, paths)
  {
    hide AlwaysWithinLimits, LegalMoves, OnceEach, Running;
    var u := Grown(more, t);
    assert forall n :: n in t ==> u[n] == t[n];
    assert LogMatches(u, log);
    forall i, d | 0 <= i < |log| && log[i].Start? && log[i].id in more && d in more[log[i].id].deps
      ensures exists j :: 0 <= j < i && log[j].Finish? && log[j].id == d && log[j].status.IsSuccess()
    {
      assert log[i].id in g;
    }
  }

  lemma CausesGrow(g: Graph, more: Graph, t: Table)
    requires AllCausesSound(g, t) && Subgraph(g, more)
    ensures AllCausesSound(more, Grown(more, t))
  {
    hide Ancestor;
    var u := Grown(more, t);
    forall n | n in more ensures CausesSound(more, u, n) {
      if n in g {
        assert CausesSound(g, t, n);
        forall r | r in t[n].roots && Ancestor(g, n, r) ensures Ancestor(more, n, r) { AncestorInMore(g, more, n, r); }
      }
    }
  }

  /** Every ended node has the result that the reference gives it, whatever ranking is used. */
  ghost predicate AllAgree(g: Graph, refusals: map<Id, ToolStatus>, bodies: map<Id, Option<ToolStatus>>, t: Table)
    requires t.Keys == g.Keys
  {
    forall rank :: Ranked(g, rank) ==> Agrees(g, rank, OwnOf(g, refusals, bodies), t)
  }

  lemma AgreesForAll(g: Graph, rank: map<Id, nat>, refusals: map<Id, ToolStatus>, bodies: map<Id, Option<ToolStatus>>, t: Table)
    requires t.Keys == g.Keys && Ranked(g, rank) && Agrees(g, rank, OwnOf(g, refusals, bodies), t)
    ensures AllAgree(g, refusals, bodies, t)
  {
    assert OwnOf(g, refusals, bodies).Keys == g.Keys;
    hide OwnOf, Ranked, Eval;
    forall other | Ranked(g, other) ensures Agrees(g, other, OwnOf(g, refusals, bodies), t) {
      forall n | n in g && t[n].status.IsTerminal() ensures t[n].status == Eval(g, other, OwnOf(g, refusals, bodies), n) {
        EvalIsUnique(g, rank, other, OwnOf(g, refusals, bodies), n);
      }
    }
  }

  lemma AgreesGrows(g: Graph, rank: map<Id, nat>, more: Graph, higher: map<Id, nat>,
                    refusals: map<Id, ToolStatus>, bodies: map<Id, Option<ToolStatus>>, t: Table)
    requires t.Keys == g.Keys && Ranked(g, rank) && Ranked(more, higher) && Subgraph(g, more)
    requires Agrees(g, rank, OwnOf(g, refusals, bodies), t)
    ensures Agrees(more, higher, OwnOf(more, refusals, bodies), Grown(more, t))
  {
    hide Ranked, Eval, Subgraph;
    var u := Grown(more, t);
    forall n | n in more && u[n].status.IsTerminal() ensures u[n].status == Eval(more, higher, OwnOf(more, refusals, bodies), n) {
      EvalGrows(g, rank, more, higher, refusals, bodies, n);
    }
  }

  // ----- Notes around the acts -----

  /** A call is decided together with its first act. */
  ghost predicate DecidedActed(notes: seq<F.Note>) {
    forall n :: F.DecisionIn(notes, n).Some? ==> !F.StatusIn(F.ActsIn(notes), n).Requested?
  }

  lemma OneMoreNote(notes: seq<F.Note>, note: F.Note)
    ensures F.ActsIn(notes + [note]) == F.ActsIn(notes) + if note.Did? then [note.act] else []
    ensures forall n :: F.DecisionIn(notes + [note], n) == if note.Decided? && note.id == n then Some(note.approved) else F.DecisionIn(notes, n)
    ensures F.Disciplined(notes) && F.NoteAllowed(notes, note) ==> F.Disciplined(notes + [note])
  {
    var more := notes + [note];
    assert more[..|notes|] == notes;
    hide F.NoteAllowed;
    if F.Disciplined(notes) && F.NoteAllowed(notes, note) {
      forall j | 0 <= j < |more| ensures F.NoteAllowed(more[..j], more[j]) {
        assert more[..j] == notes[..j];
        assert notes[..|notes|] == notes;
      }
    }
  }

  lemma StatusAfter(acts: seq<Act>, a: Act)
    ensures forall n :: F.StatusIn(acts + [a], n) == if n != a.id then F.StatusIn(acts, n) else if a.Start? then Started else a.status
  {
    assert (acts + [a])[..|acts|] == acts;
  }

  /** Notes that prepare the first act of a node. */
  ghost predicate Prepares(notes: seq<F.Note>, more: seq<F.Note>, n: Id, denied: bool) {
    && notes <= more && F.ActsIn(more) == F.ActsIn(notes) && F.Disciplined(more)
    && (forall j :: |notes| <= j < |more| ==> F.NoteIn(more[j], {n}))
    && (forall m :: m != n ==> F.DecisionIn(more, m) == F.DecisionIn(notes, m))
    && (F.DecisionIn(more, n) == F.DecisionIn(notes, n) || F.DecisionIn(more, n) == Some(!denied))
  }

  lemma PreparesMore(notes: seq<F.Note>, more: seq<F.Note>, n: Id, denied: bool, note: F.Note)
    requires Prepares(notes, more, n, denied) && !note.Did? && F.NoteAllowed(more, note)
    requires note.Decided? ==> note.id == n && note.approved == !denied
    ensures Prepares(notes, more + [note], n, denied)
  {
    hide F.Disciplined, F.ActsIn, F.DecisionIn, F.StatusIn, F.NoteAllowed;
    OneMoreNote(more, note);
  }

  lemma MayDecide(notes: seq<F.Note>, n: Id, approved: bool, scope: Scope)
    requires F.StatusIn(F.ActsIn(notes), n).Requested? && F.DecisionIn(notes, n).None? && (scope.WholeSession? ==> approved)
    ensures F.NoteAllowed(notes, F.Decided(n, approved, scope))
  {
  }

  lemma PreparesAct(notes: seq<F.Note>, more: seq<F.Note>, a: Act, denied: bool)
    requires Prepares(notes, more, a.id, denied) && DecidedActed(notes) && (a.Start? ==> !denied)
    requires F.StatusIn(F.ActsIn(notes), a.id).Requested? || more == notes
    requires a.Start? ==> F.StatusIn(F.ActsIn(notes), a.id).Requested?
    requires a.Finish? ==> a.status.IsTerminal()
    ensures notes <= more + [F.Did(a)] && F.ActsIn(more + [F.Did(a)]) == F.ActsIn(notes) + [a]
    ensures F.Disciplined(more + [F.Did(a)]) && DecidedActed(more + [F.Did(a)])
    ensures forall j :: |notes| <= j < |more + [F.Did(a)]| ==> F.NoteIn((more + [F.Did(a)])[j], {a.id})
  {
    hide F.Disciplined, F.ActsIn, F.DecisionIn, F.StatusIn;
    OneMoreNote(more, F.Did(a));
    StatusAfter(F.ActsIn(notes), a);
  }

  /** Whether an act may be the next. */
  lemma NextAct(acts: seq<Act>, a: Act)
    requires LegalMoves(acts + [a]) && OnceEach(acts + [a])
    ensures F.StatusIn(acts, a.id).IsOpen() && (a.Start? ==> F.StatusIn(acts, a.id).Requested?)
    ensures a.Finish? ==> a.status.IsTerminal()
  {
    assert (acts + [a])[..|acts|] == acts;
    F.NextIsLegal(acts + [a]);
  }

  lemma PreparesNothing(notes: seq<F.Note>, n: Id, denied: bool)
    requires F.Disciplined(notes)
    ensures Prepares(notes, notes, n, denied)
  {
  }

  /**
   The notes for one act, after those before it: the decision on a call that is asked about, the mutation plan and the
   first snapshot of a file that is written, and the act itself.
   */
  method NoteAct(notes: seq<F.Note>, a: Act, asks: set<Id>, writes: set<Id>) returns (more: seq<F.Note>)
    requires F.Disciplined(notes) && DecidedActed(notes) && LegalMoves(F.ActsIn(notes) + [a]) && OnceEach(F.ActsIn(notes) + [a])
    ensures notes <= more && F.ActsIn(more) == F.ActsIn(notes) + [a] && F.Disciplined(more) && DecidedActed(more)
    ensures forall j :: |notes| <= j < |more| ==> F.NoteIn(more[j], {a.id})
  {
    NextAct(F.ActsIn(notes), a);
    var first := F.StatusIn(F.ActsIn(notes), a.id).Requested?;
    assert first ==> F.DecisionIn(notes, a.id).None?;
    var denied := a.Finish? && a.status.Denied?;
    PreparesNothing(notes, a.id, denied);
    hide F.Disciplined, LegalMoves, OnceEach, F.ActsIn, F.DecisionIn, F.StatusIn, F.NoteAllowed, DecidedActed, Prepares;
    more := notes;
    var asked: bool := *;
    if first && a.id in asks && (asked || a.Start?) {
      var always: bool := *;
      var scope := if always && !denied then WholeSession else Once;
      MayDecide(more, a.id, !denied, scope);
      PreparesMore(notes, more, a.id, denied, F.Decided(a.id, !denied, scope));
      more := more + [F.Decided(a.id, !denied, scope)];
    }
    if first && a.id in writes && a.Start? {
      more := NoteFile(notes, more, a.id, denied);
      var snapshot: bool := *;
      if snapshot { more := NoteFile(notes, more, a.id, denied); }
    }
    PreparesAct(notes, more, a, denied);
    more := more + [F.Did(a)];
  }

  method NoteFile(ghost notes: seq<F.Note>, before: seq<F.Note>, n: Id, denied: bool) returns (more: seq<F.Note>)
    requires Prepares(notes, before, n, denied)
    ensures Prepares(notes, more, n, denied)
  {
    assert F.NoteAllowed(before, F.FileNoted);
    PreparesMore(notes, before, n, denied, F.FileNoted);
    more := before + [F.FileNoted];
  }

  /** The notes for all acts that the scheduler has added. */
  method NoteActs(notes: seq<F.Note>, acts: seq<Act>, asks: set<Id>, writes: set<Id>, ghost ids: set<Id>) returns (more: seq<F.Note>)
    requires F.Disciplined(notes) && DecidedActed(notes) && LegalMoves(F.ActsIn(notes) + acts) && OnceEach(F.ActsIn(notes) + acts)
    requires forall j :: 0 <= j < |acts| ==> acts[j].id in ids
    ensures notes <= more && F.ActsIn(more) == F.ActsIn(notes) + acts && F.Disciplined(more) && DecidedActed(more)
    ensures forall j :: |notes| <= j < |more| ==> F.NoteIn(more[j], ids)
  {
    more := notes;
    assert acts[..0] == [] && F.ActsIn(notes) + [] == F.ActsIn(notes);
    hide F.Disciplined, LegalMoves, OnceEach, F.ActsIn, DecidedActed, F.NoteIn;
    for i := 0 to |acts|
      invariant notes <= more && F.ActsIn(more) == F.ActsIn(notes) + acts[..i] && F.Disciplined(more) && DecidedActed(more)
      invariant forall j :: |notes| <= j < |more| ==> F.NoteIn(more[j], ids)
    {
      ghost var before := F.ActsIn(notes);
      assert acts == acts[..i + 1] + acts[i + 1..] && acts[..i + 1] == acts[..i] + [acts[i]];
      assert before + acts == (before + acts[..i] + [acts[i]]) + acts[i + 1..];
      F.PartIsLegal(before + acts[..i] + [acts[i]], acts[i + 1..]);
      ghost var had := more;
      more := NoteAct(more, acts[i], asks, writes);
      forall j | |notes| <= j < |more| ensures F.NoteIn(more[j], ids) {
        if j >= |had| { InMore(more[j], acts[i].id, ids); } else { assert more[j] == had[j]; }
      }
      assert before + acts[..i] + [acts[i]] == before + acts[..i + 1];
    }
    assert acts[..|acts|] == acts;
  }

  lemma InMore(note: F.Note, n: Id, ids: set<Id>)
    requires F.NoteIn(note, {n}) && n in ids
    ensures F.NoteIn(note, ids)
  {
  }
}
