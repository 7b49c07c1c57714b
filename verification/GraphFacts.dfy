/**
 The scheduler's log as facts of the rollout: what the executor appends for each start and finish, and between them
 for approvals and for file baselines, and that the session reducer accepts every one of them.
 */
module GraphFacts {
  import opened Domain
  import opened CodeDag
  import R = Reducer
  import I = ReducerInvariant
  import Runs = ReducerRuns
  import Recovery
  import RS = RecoverySteps

  function ByKey(n: Id): CallRef { CallRef(Some(n), Some(n)) }

  /** What the executor notes: an act of the scheduler, a decision on a call, or a mutation plan or snapshot. */
  datatype Note =
    | Did(act: Act)
    | Decided(id: Id, approved: bool, scope: Scope)
    | FileNoted

  /** The fact for a note; the causes of a failure are those in the table. */
  function FactOf(t: Table, note: Note): Fact {
    match note
    case Did(Start(n)) => ToolStarted(ByKey(n))
    case Did(Finish(n, status)) =>
      ToolFinished(ByKey(n), status, None, false, true,
                   if n in t then t[n].blockedBy else [], if n in t then t[n].roots else [])
    case Decided(n, approved, scope) => ApprovalDecided(ByKey(n), approved, scope)
    case FileNoted => FileFact
  }

  function FactsOf(t: Table, notes: seq<Note>): seq<Fact> {
    if notes == [] then [] else FactsOf(t, notes[..|notes| - 1]) + [FactOf(t, notes[|notes| - 1])]
  }

  /** The acts among the notes. */
  function ActsIn(notes: seq<Note>): seq<Act> {
    if notes == [] then []
    else
      var last := notes[|notes| - 1];
      ActsIn(notes[..|notes| - 1]) + if last.Did? then [last.act] else []
  }

  function DecisionIn(notes: seq<Note>, n: Id): Option<bool> {
    if notes == [] then None
    else
      var last := notes[|notes| - 1];
      if last.Decided? && last.id == n then Some(last.approved) else DecisionIn(notes[..|notes| - 1], n)
  }

  /** A call is decided at most once and before it starts or ends; a denied one does not start. */
  predicate NoteAllowed(before: seq<Note>, note: Note) {
    match note
    case Did(a) => a.Start? ==> DecisionIn(before, a.id) != Some(false)
    case Decided(n, approved, scope) =>
      StatusIn(ActsIn(before), n).Requested? && DecisionIn(before, n).None? && (scope.WholeSession? ==> approved)
    case FileNoted => true
  }

  ghost predicate Disciplined(notes: seq<Note>) {
    forall j :: 0 <= j < |notes| ==> NoteAllowed(notes[..j], notes[j])
  }

  /** The node that a note is about, if any, is one of these. */
  predicate NoteIn(note: Note, ids: set<Id>) {
    match note
    case Did(a) => a.id in ids
    case Decided(n, _, _) => n in ids
    case FileNoted => true
  }

  /** The status of a node after these acts. */
  function StatusIn(log: seq<Act>, n: Id): ToolStatus {
    if log == [] then Requested
    else
      var a := log[|log| - 1];
      if a.id != n then StatusIn(log[..|log| - 1], n)
      else if a.Start? then Started else a.status
  }

  lemma {:induction false} RunningIsStarted(log: seq<Act>, n: Id)
    requires LegalMoves(log)
    ensures n in Running(log) <==> StatusIn(log, n).Started?
  {
    if log != [] {
      var front := log[..|log| - 1];
      LegalFront(log);
      RunningIsStarted(front, n);
      assert log[|log| - 1].Finish? ==> !log[|log| - 1].status.Started?;
    }
  }

  /** Before its finish, a node has no finish: it is running, or it has not been mentioned. */
  lemma {:induction false} NotMentioned(log: seq<Act>, n: Id)
    requires forall j :: 0 <= j < |log| ==> log[j].id != n
    ensures StatusIn(log, n).Requested?
  {
    if log != [] { NotMentioned(log[..|log| - 1], n); }
  }

  lemma {:induction false} OnlyStarted(log: seq<Act>, n: Id)
    requires forall j :: 0 <= j < |log| && log[j].id == n ==> log[j].Start?
    ensures StatusIn(log, n).IsOpen()
  {
    if log != [] { OnlyStarted(log[..|log| - 1], n); }
  }

  lemma {:induction false} FinishedAs(log: seq<Act>, n: Id, j: nat)
    requires OnceEach(log) && j < |log| && log[j].id == n && log[j].Finish?
    ensures StatusIn(log, n) == log[j].status
  {
    if j < |log| - 1 {
      assert log[|log| - 1].id != n;
      FinishedAs(log[..|log| - 1], n, j);
    }
  }

  /** The log tells the status of every node in the table. */
  lemma StatusMatches(t: Table, log: seq<Act>, n: Id)
    requires LogMatches(t, log) && OnceEach(log) && LegalMoves(log) && n in t
    ensures StatusIn(log, n) == t[n].status
  {
    RunningIsStarted(log, n);
    if t[n].status.IsTerminal() {
      var j :| 0 <= j < |log| && log[j] == Finish(n, t[n].status);
      FinishedAs(log, n, j);
    } else if t[n].status.Requested? {
      forall j | 0 <= j < |log| ensures log[j].id != n {
        assert !t[log[j].id].status.Requested?;
      }
      NotMentioned(log, n);
    }
  }

  /** The session state says of these nodes what the notes say. */
  ghost predicate Mirrors(s: State, ids: set<Id>, notes: seq<Note>) {
    && s.created && s.intent.None? && s.active.Some?
    && forall n :: n in ids ==>
         n in s.nodes && n in s.calls && s.calls[n].approved == DecisionIn(notes, n) && s.calls[n].status == StatusIn(ActsIn(notes), n)
  }

  /** The graph is the same, but for statuses and causes. */
  ghost predicate GraphFixed(s: State, u: State) {
    && u.nodes.Keys == s.nodes.Keys
    && forall n :: n in s.nodes ==>
         u.nodes[n].run == s.nodes[n].run && u.nodes[n].ordinal == s.nodes[n].ordinal && u.nodes[n].dependencies == s.nodes[n].dependencies
  }

  /** Calls keep their names. */
  ghost predicate NamesFixed(s: State, u: State) {
    u.calls.Keys == s.calls.Keys && forall k :: k in s.calls ==> u.calls[k].name == s.calls[k].name
  }

  /** What a note leaves alone. */
  ghost predicate Framed(s: State, u: State) {
    u.created == s.created && u.intent == s.intent && u.active == s.active && u.runs == s.runs && GraphFixed(s, u) && NamesFixed(s, u)
  }

  lemma FramedOn(s: State, t: State, u: State)
    requires Framed(s, t) && Framed(t, u)
    ensures Framed(s, u)
  {
  }

  /** Where a fact leaves the session: one call has moved, and nothing but it and its mirror. */
  ghost predicate OneCallMoved(s: State, u: State, n: Id, status: ToolStatus, approved: Option<bool>) {
    && Framed(s, u)
    && (forall m :: m in s.calls && m != n ==> u.calls[m] == s.calls[m])
    && n in s.calls && u.calls[n].status == status && u.calls[n].approved == approved
  }

  /** A code call is named by its key alone. */
  lemma ResolveByKey(s: State, n: Id)
    requires I.CallsOk(s.calls, s.active) && I.MirrorOk(s.calls, s.nodes)
    requires n in s.nodes && n in s.calls && s.calls[n].status.IsOpen()
    ensures R.Resolve(s, ByKey(n)) == Ok(n)
  {
    RS.ResolveNamed(s, n);
    assert ByKey(n) == Recovery.Named(s.calls[n]);
  }

  /** A call set in place moves, and nothing but it and its mirror. */
  lemma SetMoves(s: State, n: Id, call: ToolCall, causes: Option<R.Causes>, seqNo: nat)
    requires n in s.calls && call.origin.FromCode? && call.name == s.calls[n].name
    ensures OneCallMoved(s, R.SetCall(s, n, call, causes).(lastSeq := seqNo), n, call.status, call.approved)
  {
  }

  lemma StartHandled(s: State, n: Id)
    requires R.Resolve(s, ByKey(n)) == Ok(n) && s.intent.None? && n in s.calls && s.calls[n].origin.FromCode?
    requires s.calls[n].status.Requested? && s.calls[n].approved != Some(false)
    ensures var a := R.HandleCallFact(s, s.lastSeq + 1, ToolStarted(ByKey(n)));
            a.Ok? && OneCallMoved(s, a.value.(lastSeq := s.lastSeq + 1), n, Started, s.calls[n].approved)
  {
    SetMoves(s, n, s.calls[n].(status := Started), None, s.lastSeq + 1);
    hide R.Resolve, R.SetCall, OneCallMoved;
  }

  lemma FinishHandled(s: State, fact: Fact, n: Id)
    requires fact.ToolFinished? && fact.call == ByKey(n) && R.Resolve(s, ByKey(n)) == Ok(n) && s.intent.None? && n in s.calls
    requires s.calls[n].status.MayFinishAs(fact.status) && !fact.status.OutcomeUnknown? && !fact.blocked
    ensures var a := R.HandleCallFact(s, s.lastSeq + 1, fact);
            a.Ok? && OneCallMoved(s, a.value.(lastSeq := s.lastSeq + 1), n, fact.status, s.calls[n].approved)
  {
    hide R.Resolve;
  }

  lemma AppendKeeps(s: State, fact: Fact)
    requires I.Inv(s) && Recovery.Append(s, fact).Ok?
    ensures I.Inv(Recovery.Append(s, fact).value)
  {
    hide I.Inv, R.Step;
    Runs.StepKeeps(s, Event(s.lastSeq + 1, fact));
  }

  lemma DecisionHandled(s: State, n: Id, approved: bool, scope: Scope)
    requires R.Resolve(s, ByKey(n)) == Ok(n) && s.intent.None? && n in s.calls && s.calls[n].key == n
    requires s.calls[n].status.Requested? && s.calls[n].approved.None? && (scope.WholeSession? ==> approved)
    ensures var a := R.HandleCallFact(s, s.lastSeq + 1, ApprovalDecided(ByKey(n), approved, scope));
            a.Ok? && OneCallMoved(s, a.value.(lastSeq := s.lastSeq + 1), n, Requested, Some(approved))
  {
    hide R.Resolve;
  }

  /** The status and the decision that a note gives to its node. */
  function LeftBy(s: State, note: Note): (ToolStatus, Option<bool>)
    requires note.FileNoted? || (NoteIn(note, s.calls.Keys))
  {
    match note
    case Did(a) => (if a.Start? then Started else a.status, s.calls[a.id].approved)
    case Decided(n, approved, _) => (s.calls[n].status, Some(approved))
    case FileNoted => (Requested, None)
  }

  function NodeOf(note: Note): Id
    requires !note.FileNoted?
  {
    if note.Did? then note.act.id else note.id
  }

  /** What the reducer needs for a note. */
  ghost predicate Possible(s: State, note: Note) {
    && s.created && s.intent.None? && s.active.Some? && NoteIn(note, s.nodes.Keys) && NoteIn(note, s.calls.Keys)
    && match note
       case Did(Start(n)) => s.calls[n].status.Requested? && s.calls[n].approved != Some(false)
       case Did(Finish(n, status)) => Finishes(s.calls[n].status, status)
       case Decided(n, approved, scope) => s.calls[n].status.Requested? && s.calls[n].approved.None? && (scope.WholeSession? ==> approved)
       case FileNoted => true
  }

  /** The reducer accepts the note of a node whose status allows it. */
  lemma NodeNoteAccepted(s: State, t: Table, note: Note)
    requires I.Inv(s) && Possible(s, note) && !note.FileNoted?
    ensures var u := Recovery.Append(s, FactOf(t, note));
            u.Ok? && I.Inv(u.value) && OneCallMoved(s, u.value, NodeOf(note), LeftBy(s, note).0, LeftBy(s, note).1)
  {
    assert I.CallsOk(s.calls, s.active) && I.MirrorOk(s.calls, s.nodes);
    var n := NodeOf(note);
    ResolveByKey(s, n);
    RS.AppendCallFact(s, FactOf(t, note));
    hide R.HandleCallFact, R.Handle, I.Inv, OneCallMoved, R.Resolve, Recovery.Append;
    match note
    case Did(Start(_)) =>
      assert s.calls[n].origin.FromCode?;
      StartHandled(s, n);
      AppendKeeps(s, FactOf(t, note));
    case Did(Finish(_, _)) =>
      FinishHandled(s, FactOf(t, note), n);
      AppendKeeps(s, FactOf(t, note));
    case Decided(_, approved, scope) =>
      DecisionHandled(s, n, approved, scope);
      AppendKeeps(s, FactOf(t, note));
  }

  lemma FileNoteAccepted(s: State)
    requires I.Inv(s) && s.created && s.intent.None? && s.active.Some?
    ensures var u := Recovery.Append(s, FileFact);
            u.Ok? && I.Inv(u.value) && u.value == s.(lastSeq := s.lastSeq + 1)
  {
    hide I.Inv, R.HandleCallFact, R.HandleGraphFact, R.HandleTurnFact;
    AppendKeeps(s, FileFact);
  }

  /** One more note: accepted, and the session keeps saying what the notes say. */
  lemma NoteMirrored(s: State, t: Table, ids: set<Id>, notes: seq<Note>, note: Note)
    requires I.Inv(s) && Mirrors(s, ids, notes) && NoteIn(note, ids) && NoteAllowed(notes, note)
    requires note.Did? ==>
      if note.act.Start? then StatusIn(ActsIn(notes), note.act.id).Requested? else Finishes(StatusIn(ActsIn(notes), note.act.id), note.act.status)
    ensures var u := Recovery.Append(s, FactOf(t, note));
            u.Ok? && I.Inv(u.value) && Mirrors(u.value, ids, notes + [note]) && Framed(s, u.value)
  {
    hide I.Inv, Recovery.Append, StatusIn, ActsIn, DecisionIn;
    if note.FileNoted? {
      FileNoteAccepted(s);
      FileMirrored(s, Recovery.Append(s, FileFact).value, ids, notes);
    } else {
      assert Possible(s, note);
      NodeNoteAccepted(s, t, note);
      MirrorsNext(s, Recovery.Append(s, FactOf(t, note)).value, ids, notes, note);
    }
  }

  lemma FileMirrored(s: State, u: State, ids: set<Id>, notes: seq<Note>)
    requires Mirrors(s, ids, notes) && u == s.(lastSeq := u.lastSeq)
    ensures Mirrors(u, ids, notes + [FileNoted]) && Framed(s, u)
  {
    var more := notes + [FileNoted];
    assert more[..|notes|] == notes;
    assert ActsIn(more) == ActsIn(notes) + [];
    assert ActsIn(more) == ActsIn(notes);
  }

  lemma MirrorsNext(s: State, u: State, ids: set<Id>, notes: seq<Note>, note: Note)
    requires Mirrors(s, ids, notes) && NoteIn(note, ids) && !note.FileNoted? && NoteIn(note, s.calls.Keys)
    requires OneCallMoved(s, u, NodeOf(note), LeftBy(s, note).0, LeftBy(s, note).1)
    ensures Mirrors(u, ids, notes + [note]) && Framed(s, u)
  {
    var more := notes + [note];
    assert more[..|notes|] == notes;
    if note.Did? {
      var acts := ActsIn(more);
      assert acts == ActsIn(notes) + [note.act] && acts[..|acts| - 1] == ActsIn(notes);
    } else {
      assert ActsIn(more) == ActsIn(notes);
    }
  }

  lemma {:induction false} ActsConcat(a: seq<Note>, b: seq<Note>)
    ensures ActsIn(a + b) == ActsIn(a) + ActsIn(b)
  {
    if b == [] {
      assert a + b == a;
    } else {
      ActsConcat(a, b[..|b| - 1]);
      assert (a + b)[..|a + b| - 1] == a + b[..|b| - 1];
    }
  }

  /** The part of a legal log is legal. */
  lemma PartIsLegal(log: seq<Act>, more: seq<Act>)
    requires LegalMoves(log + more) && OnceEach(log + more)
    ensures LegalMoves(log) && OnceEach(log)
  {
    var all := log + more;
    forall j | 0 <= j < |log| && log[j].Finish? ensures Finishes(if log[j].id in Running(log[..j]) then Started else Requested, log[j].status) {
      assert log[..j] == all[..j] && log[j] == all[j];
    }
    forall i, j | 0 <= i < j < |log| && log[i].id == log[j].id ensures log[i].Start? && log[j].Finish? {
      assert all[i] == log[i] && all[j] == log[j];
    }
  }

  /**
   From a session that says what the notes say so far, every further note is accepted, and the session then says what
   the longer notes say.
   */
  lemma {:induction false} NotesAccepted(s: State, t: Table, ids: set<Id>, done: seq<Note>, more: seq<Note>)
    requires I.Inv(s) && Mirrors(s, ids, done) && LegalMoves(ActsIn(done + more)) && OnceEach(ActsIn(done + more))
    requires Disciplined(done + more) && forall j :: 0 <= j < |more| ==> NoteIn(more[j], ids)
    ensures var a := Recovery.AppendAll(s, FactsOf(t, more));
            a.Ok? && I.Inv(a.value) && Mirrors(a.value, ids, done + more) && Framed(s, a.value)
  {
    hide I.Inv, Mirrors, Recovery.Append, StatusIn, FactOf, ActsIn, Framed, NoteAllowed, NoteIn, LegalMoves, OnceEach;
    if more == [] {
      assert done + more == done;
      FramedSelf(s);
    } else {
      var front, note := more[..|more| - 1], more[|more| - 1];
      var all, before := done + more, done + front;
      assert all == before + [note] && before == all[..|all| - 1];
      LastNote(before, note);
      FrontDisciplined(before, note);
      NotesAccepted(s, t, ids, done, front);
      var facts := FactsOf(t, more);
      assert facts == FactsOf(t, front) + [FactOf(t, note)] && facts[..|facts| - 1] == FactsOf(t, front);
      var u := Recovery.AppendAll(s, FactsOf(t, front)).value;
      NoteMirrored(u, t, ids, before, note);
      FramedOn(s, u, Recovery.Append(u, FactOf(t, note)).value);
    }
  }

  // ----- The causes of a failure -----

  /** The session gives the causes that the table gives. */
  ghost predicate CausesGiven(s: State, t: Table, n: Id) {
    n in t && n in s.nodes && s.nodes[n].blockedBy == t[n].blockedBy && s.nodes[n].rootFailures == t[n].roots
  }

  predicate Ends(note: Note, n: Id) { note.Did? && note.act.Finish? && note.act.id == n }

  /** Of every node that has ended by these notes the session gives the causes in the table. */
  ghost predicate CausesNoted(s: State, t: Table, notes: seq<Note>) {
    forall j, n :: 0 <= j < |notes| && Ends(notes[j], n) ==> CausesGiven(s, t, n)
  }

  /** What one fact does to the causes: a finish sets those of its node. */
  lemma FinishSetsCauses(s: State, t: Table, n: Id, status: ToolStatus)
    requires I.MirrorOk(s.calls, s.nodes) && n in s.nodes && n in s.calls && n in t
    requires R.Resolve(s, ByKey(n)) == Ok(n) && R.HandleCallFact(s, s.lastSeq + 1, FactOf(t, Did(Finish(n, status)))).Ok?
    ensures var u := R.HandleCallFact(s, s.lastSeq + 1, FactOf(t, Did(Finish(n, status)))).value;
            CausesGiven(u, t, n) && forall m :: m in s.nodes && m != n ==> m in u.nodes && u.nodes[m] == s.nodes[m]
  {
    hide R.Resolve;
  }

  lemma OtherKeepsCauses(s: State, t: Table, note: Note)
    requires !note.FileNoted? && !(note.Did? && note.act.Finish?) && R.HandleCallFact(s, s.lastSeq + 1, FactOf(t, note)).Ok?
    ensures var u := R.HandleCallFact(s, s.lastSeq + 1, FactOf(t, note)).value;
            forall m :: m in s.nodes ==>
              m in u.nodes && u.nodes[m].blockedBy == s.nodes[m].blockedBy && u.nodes[m].rootFailures == s.nodes[m].rootFailures
  {
    hide R.Resolve;
  }

  lemma NoteCauses(s: State, t: Table, notes: seq<Note>, note: Note)
    requires I.Inv(s) && Possible(s, note) && NoteIn(note, t.Keys) && CausesNoted(s, t, notes) && Recovery.Append(s, FactOf(t, note)).Ok?
    ensures CausesNoted(Recovery.Append(s, FactOf(t, note)).value, t, notes + [note])
  {
    hide *;
    var u := Recovery.Append(s, FactOf(t, note)).value;
    if note.FileNoted? {
      NotedIs(t, note);
      FileNoteKeepsNodes(s);
      CausesStayNoted(s, u, t, notes, note);
    } else {
      if note.Did? && note.act.Finish? {
        FinishCauses(s, t, note);
        CausesSet(s, u, t, notes, note);
      } else {
        OtherCauses(s, t, note);
        CausesStayNoted(s, u, t, notes, note);
      }
    }
  }

  lemma FinishCauses(s: State, t: Table, note: Note)
    requires I.Inv(s) && Possible(s, note) && NoteIn(note, t.Keys) && note.Did? && note.act.Finish? && Recovery.Append(s, FactOf(t, note)).Ok?
    ensures var u := Recovery.Append(s, FactOf(t, note)).value;
            CausesGiven(u, t, note.act.id) && forall m :: m in s.nodes && m != note.act.id ==> m in u.nodes && u.nodes[m] == s.nodes[m]
  {
    NoteHandled(s, t, note);
    FinishSetsCauses(s, t, note.act.id, note.act.status);
    hide I.Inv, I.MirrorOk, Possible, Recovery.Append, R.Resolve, R.HandleCallFact;
  }

  lemma OtherCauses(s: State, t: Table, note: Note)
    requires I.Inv(s) && Possible(s, note) && NoteIn(note, t.Keys) && !note.FileNoted? && !(note.Did? && note.act.Finish?)
    requires Recovery.Append(s, FactOf(t, note)).Ok?
    ensures var u := Recovery.Append(s, FactOf(t, note)).value;
            forall m :: m in s.nodes ==>
              m in u.nodes && u.nodes[m].blockedBy == s.nodes[m].blockedBy && u.nodes[m].rootFailures == s.nodes[m].rootFailures
  {
    NoteHandled(s, t, note);
    OtherKeepsCauses(s, t, note);
    hide I.Inv, I.MirrorOk, Possible, Recovery.Append, R.Resolve, R.HandleCallFact;
  }

  lemma NotedIs(t: Table, note: Note)
    ensures note.FileNoted? ==> FactOf(t, note) == FileFact
  {
  }

  lemma FileNoteKeepsNodes(s: State)
    requires Recovery.Append(s, FileFact).Ok?
    ensures Recovery.Append(s, FileFact).value.nodes == s.nodes
  {
    hide R.HandleCallFact, R.HandleGraphFact, R.HandleTurnFact;
  }

  lemma NoteHandled(s: State, t: Table, note: Note)
    requires I.Inv(s) && Possible(s, note) && !note.FileNoted? && NoteIn(note, t.Keys) && Recovery.Append(s, FactOf(t, note)).Ok?
    ensures I.MirrorOk(s.calls, s.nodes) && NodeOf(note) in s.nodes && NodeOf(note) in s.calls && NodeOf(note) in t
    ensures R.Resolve(s, ByKey(NodeOf(note))) == Ok(NodeOf(note)) && R.HandleCallFact(s, s.lastSeq + 1, FactOf(t, note)).Ok?
    ensures Recovery.Append(s, FactOf(t, note)).value == R.HandleCallFact(s, s.lastSeq + 1, FactOf(t, note)).value.(lastSeq := s.lastSeq + 1)
  {
    assert I.CallsOk(s.calls, s.active) && I.MirrorOk(s.calls, s.nodes);
    ResolveByKey(s, NodeOf(note));
    RS.AppendCallFact(s, FactOf(t, note));
    hide R.HandleCallFact, R.Handle, I.Inv, R.Resolve, Recovery.Append;
  }

  lemma CausesSet(s: State, u: State, t: Table, notes: seq<Note>, note: Note)
    requires note.Did? && note.act.Finish? && CausesGiven(u, t, note.act.id) && CausesNoted(s, t, notes)
    requires forall m :: m in s.nodes && m != note.act.id ==> m in u.nodes && u.nodes[m] == s.nodes[m]
    ensures CausesNoted(u, t, notes + [note])
  {
    forall j, n | 0 <= j < |notes| + 1 && Ends((notes + [note])[j], n) ensures CausesGiven(u, t, n) {
      if j < |notes| { assert CausesGiven(s, t, n); }
    }
  }

  lemma CausesStayNoted(s: State, u: State, t: Table, notes: seq<Note>, note: Note)
    requires !(note.Did? && note.act.Finish?) && CausesNoted(s, t, notes)
    requires forall m :: m in s.nodes ==>
               m in u.nodes && u.nodes[m].blockedBy == s.nodes[m].blockedBy && u.nodes[m].rootFailures == s.nodes[m].rootFailures
    ensures CausesNoted(u, t, notes + [note])
  {
    forall j, n | 0 <= j < |notes| + 1 && Ends((notes + [note])[j], n) ensures CausesGiven(u, t, n) {
      assert j < |notes| && CausesGiven(s, t, n);
    }
  }

  /** The facts of all notes leave the causes of every ended node as the table gives them. */
  lemma {:induction false} NotesCauses(s: State, t: Table, ids: set<Id>, done: seq<Note>, more: seq<Note>)
    requires I.Inv(s) && Mirrors(s, ids, done) && LegalMoves(ActsIn(done + more)) && OnceEach(ActsIn(done + more))
    requires Disciplined(done + more) && (forall j :: 0 <= j < |more| ==> NoteIn(more[j], ids)) && ids <= t.Keys && CausesNoted(s, t, done)
    ensures var a := Recovery.AppendAll(s, FactsOf(t, more)); a.Ok? && CausesNoted(a.value, t, done + more)
  {
    hide I.Inv, Mirrors, Recovery.Append, StatusIn, FactOf, ActsIn, Framed, NoteAllowed, NoteIn, LegalMoves, OnceEach, CausesNoted, Disciplined;
    if more == [] {
      assert done + more == done;
    } else {
      var front, note := more[..|more| - 1], more[|more| - 1];
      var all, before := done + more, done + front;
      assert all == before + [note] && before == all[..|all| - 1];
      LastNote(before, note);
      FrontDisciplined(before, note);
      NotesAccepted(s, t, ids, done, front);
      NotesCauses(s, t, ids, done, front);
      var facts := FactsOf(t, more);
      assert facts == FactsOf(t, front) + [FactOf(t, note)] && facts[..|facts| - 1] == FactsOf(t, front);
      var u := Recovery.AppendAll(s, FactsOf(t, front)).value;
      NoteMirrored(u, t, ids, before, note);
      MayNote(u, ids, before, note);
      NoteInMore(note, ids, t.Keys);
      NoteCauses(u, t, before, note);
    }
  }

  lemma NoteInMore(note: Note, ids: set<Id>, more: set<Id>)
    requires NoteIn(note, ids) && ids <= more
    ensures NoteIn(note, more)
  {
  }

  lemma MayNote(s: State, ids: set<Id>, notes: seq<Note>, note: Note)
    requires Mirrors(s, ids, notes) && NoteIn(note, ids) && NoteAllowed(notes, note)
    requires note.Did? ==>
      if note.act.Start? then StatusIn(ActsIn(notes), note.act.id).Requested? else Finishes(StatusIn(ActsIn(notes), note.act.id), note.act.status)
    ensures Possible(s, note)
  {
    hide StatusIn, ActsIn, DecisionIn;
  }

  lemma FramedSelf(s: State)
    ensures Framed(s, s)
  {
  }

  lemma FrontDisciplined(before: seq<Note>, note: Note)
    requires Disciplined(before + [note])
    ensures Disciplined(before) && NoteAllowed(before, note)
  {
    hide NoteAllowed;
    var all := before + [note];
    assert all[..|before|] == before && all[|before|] == note;
    forall j | 0 <= j < |before| ensures NoteAllowed(before[..j], before[j]) {
      assert all[..j] == before[..j] && all[j] == before[j];
    }
  }

  /** What the last note of a legal sequence may rely on. */
  lemma LastNote(before: seq<Note>, note: Note)
    requires LegalMoves(ActsIn(before + [note])) && OnceEach(ActsIn(before + [note]))
    ensures LegalMoves(ActsIn(before)) && OnceEach(ActsIn(before))
    ensures note.Did? ==>
      if note.act.Start? then StatusIn(ActsIn(before), note.act.id).Requested? else Finishes(StatusIn(ActsIn(before), note.act.id), note.act.status)
  {
    hide LegalMoves, OnceEach, StatusIn, Running, Finishes;
    var acts := ActsIn(before + [note]);
    ActsConcat(before, [note]);
    assert [note][..0] == [];
    if note.Did? {
      assert acts == ActsIn(before) + [note.act] && acts[..|acts| - 1] == ActsIn(before);
      NextIsLegal(acts);
      PartIsLegal(ActsIn(before), [note.act]);
    } else {
      assert acts == ActsIn(before);
    }
  }

  lemma LegalFront(log: seq<Act>)
    requires LegalMoves(log) && log != []
    ensures LegalMoves(log[..|log| - 1])
  {
    var front := log[..|log| - 1];
    forall j | 0 <= j < |front| && front[j].Finish?
      ensures Finishes(if front[j].id in Running(front[..j]) then Started else Requested, front[j].status)
    {
      assert front[..j] == log[..j] && front[j] == log[j];
    }
  }

  /** The last act of a legal log is one that the status before it allows. */
  lemma NextIsLegal(log: seq<Act>)
    requires LegalMoves(log) && OnceEach(log) && log != []
    ensures var a := log[|log| - 1];
            var before := StatusIn(log[..|log| - 1], a.id);
            if a.Start? then before.Requested? else Finishes(before, a.status)
  {
    var front, a := log[..|log| - 1], log[|log| - 1];
    LegalFront(log);
    if a.Start? {
      NotMentioned(front, a.id);
    } else {
      OnlyStarted(front, a.id);
      RunningIsStarted(front, a.id);
      assert log[|log| - 1].Finish?;
    }
  }

  /** When every node of the run has ended, the reducer lets the run finish. */
  lemma RunMayFinish(s: State, ids: set<Id>, t: Table, notes: seq<Note>, run: string, status: RunStatus)
    requires Mirrors(s, ids, notes) && LogMatches(t, ActsIn(notes)) && OnceEach(ActsIn(notes)) && LegalMoves(ActsIn(notes))
    requires I.MirrorOk(s.calls, s.nodes) && run in s.runs && s.runs[run].status.RunActive? && !status.RunActive?
    requires forall n :: n in s.runs[run].nodeIds ==> n in ids && n in t && t[n].status.IsTerminal()
    ensures Recovery.Append(s, CodeRunFinished(run, status)).Ok?
  {
    var run_ := s.runs[run];
    forall i | 0 <= i < |run_.nodeIds| && run_.nodeIds[i] in s.nodes ensures s.nodes[run_.nodeIds[i]].status.IsTerminal() {
      var n := run_.nodeIds[i];
      StatusMatches(t, ActsIn(notes), n);
      assert s.calls[n].status == s.nodes[n].status;
    }
    assert R.NodesTerminal(s, run_);
    hide I.MirrorOk, Mirrors, LogMatches, OnceEach, LegalMoves, StatusIn, Running, ActsIn;
  }
}
