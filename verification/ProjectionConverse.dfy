/**
 The converse: one wrong tag or one empty assistant fact is enough to make the projection fail for ever; only a tagged
 result of a model call may hide behind a checkpoint.
 */
module ProjectionConverse {
  import opened Domain
  import opened Projection
  import opened ProjectionSteps
  import opened ProjectionTheorem
  import R = Reducer
  import I = ReducerInvariant
  import Runs = ReducerRuns
  import C = Conversation

  type Scanned = Result<C.Scanner, C.Fault>

  ghost predicate Names(calls: Calls, t: Tracker) {
    forall k :: k in t.byKey ==> k in calls && calls[k].origin.FromModel? && calls[k].providerId == t.byKey[k]
  }

  /** No call that could still be answered carries this id. */
  ghost predicate Hopeless(s: State, id: string) {
    s.active.Some? ==>
      && (exists k :: k in s.calls && R.Named(s, id, k) && s.calls[k].origin.FromModel? && !s.calls[k].status.IsUnsettled())
      && (forall k :: k in s.calls && Awaited(s.calls[k]) ==> s.calls[k].providerId != id)
  }

  ghost predicate Doomed(s: State, r: Scanned) {
    r.Err? || exists id :: id in r.value.pending && Hopeless(s, id)
  }

  function Scanning(r: Scanned, m: Option<Message>): Scanned {
    if r.Err? || m.None? then r else C.ScanMessage(r.value, m.value)
  }

  // ----- The first wrong fact -----

  lemma AnsweredIsHopeless(s: State, t: Tracker, v: C.Scanner, k: string, call: ToolCall, u: State)
    requires InStep(s.calls, t, v) && k in s.calls && Awaited(s.calls[k]) && s.active == Some(s.calls[k].turn)
    requires I.SameIdentity(s.calls[k], call) && !call.status.IsUnsettled()
    requires u.calls == s.calls[k := call] && u.active == s.active
    ensures Doomed(u, Ok(v))
  {
    var id := s.calls[k].providerId;
    assert t.byKey[k] == id && id in v.pending;
    assert R.Named(u, id, k);
    forall j | j in u.calls && Awaited(u.calls[j]) ensures u.calls[j].providerId != id {
      assert j in t.byKey;
    }
    assert Hopeless(u, id);
  }

  lemma AnswerFrame(s: State, seqNo: nat, fact: Fact)
    requires fact.ToolFinished? || fact.ToolReconciled?
    requires R.HandleCallFact(s, seqNo, fact).Ok?
    ensures var k, u := R.Resolve(s, fact.call).value, R.HandleCallFact(s, seqNo, fact).value;
            && k in u.calls && u.calls == s.calls[k := u.calls[k]] && u.active == s.active
            && I.SameIdentity(s.calls[k], u.calls[k]) && s.calls[k].status.IsUnsettled()
            && (u.calls[k].status.IsUnsettled() ==> fact.ToolFinished? && fact.status.OutcomeUnknown?)
  {
    hide R.ApplyAssistant, R.ApplyApproval, R.ApplyToolStarted;
  }

  lemma WrongFactDooms(s: State, seqNo: nat, fact: Fact, t: Tracker, v: C.Scanner)
    requires I.CallsOk(s.calls, s.active) && InStep(s.calls, t, v) && fact.ChangesCalls() && !FactOk(s, fact)
    requires R.HandleCallFact(s, seqNo, fact).Ok? && ProjectFact(t, seqNo, fact).Ok?
    ensures var p := ProjectFact(t, seqNo, fact).value;
            Doomed(R.HandleCallFact(s, seqNo, fact).value, Scanning(Ok(v), p.1))
  {
    if fact.ToolFinished? || fact.ToolReconciled? {
      AnswerFrame(s, seqNo, fact);
      hide Doomed, R.HandleCallFact;
      var k := R.Resolve(s, fact.call).value;
      if s.calls[k].origin.FromCode? {
        CodeCallIsUntracked(s, fact.call, t);
      } else {
        var u := R.HandleCallFact(s, seqNo, fact).value;
        AnsweredIsHopeless(s, t, v, k, u.calls[k], u);
      }
    }
  }

  lemma CodeCallIsUntracked(s: State, ref: CallRef, t: Tracker)
    requires I.CallsOk(s.calls, s.active) && Tracks(s.calls, t)
    requires R.Resolve(s, ref).Ok? && s.calls[R.Resolve(s, ref).value].origin.FromCode?
    ensures Lookup(t, ref).Err?
  {
    if ref.key.None? && ref.id.Some? && ref.id.value in t.byId {
      assert R.Named(s, ref.id.value, t.byId[ref.id.value]);
    }
  }

  // ----- Doom is for ever -----

  lemma {:induction false} BatchNames(s: State, t: Tracker, seqNo: nat, turn: string, docs: seq<CallDoc>)
    requires Names(s.calls, t) && R.AddCalls(s, seqNo, turn, docs).Ok? && AddCalls(t, seqNo, docs).Ok?
    ensures Names(R.AddCalls(s, seqNo, turn, docs).value.calls, AddCalls(t, seqNo, docs).value)
  {
    if docs != [] { BatchNames(s, t, seqNo, turn, docs[..|docs| - 1]); }
  }

  lemma ProjectShrinks(t: Tracker, seqNo: nat, fact: Fact)
    requires !fact.AssistantAccepted? && ProjectFact(t, seqNo, fact).Ok?
    ensures forall k :: k in ProjectFact(t, seqNo, fact).value.0.byKey ==>
              k in t.byKey && ProjectFact(t, seqNo, fact).value.0.byKey[k] == t.byKey[k]
  {
    hide Lookup;
  }

  lemma NamesStep(s: State, e: Event, t: Tracker)
    requires I.Inv(s) && Names(s.calls, t) && R.Step(s, e).Ok? && ProjectFact(t, e.seqNo, e.fact).Ok?
    ensures Names(R.Step(s, e).value.calls, ProjectFact(t, e.seqNo, e.fact).value.0)
  {
    Runs.StepAdvances(s, e);
    hide I.Inv, R.HandleGraphFact, R.HandleTurnFact, R.HandleOtherFact;
    if e.fact.AssistantAccepted? {
      BatchNames(s, t, e.seqNo, s.active.value, e.fact.calls);
    } else {
      ProjectShrinks(t, e.seqNo, e.fact);
      hide R.HandleCallFact, R.Step, ProjectFact;
    }
  }

  lemma AnswerMisses(s: State, ref: CallRef, t: Tracker, id: string)
    requires Names(s.calls, t) && s.active.Some? && Hopeless(s, id)
    requires R.Resolve(s, ref).Ok? && s.calls[R.Resolve(s, ref).value].status.IsUnsettled() && Lookup(t, ref).Ok?
    ensures Lookup(t, ref).value.id != id
  {
    var k0 :| k0 in s.calls && R.Named(s, id, k0) && s.calls[k0].origin.FromModel? && !s.calls[k0].status.IsUnsettled();
  }

  lemma CallFactKeepsActive(s: State, seqNo: nat, fact: Fact)
    requires fact.ChangesCalls() && !fact.AssistantAccepted? && R.HandleCallFact(s, seqNo, fact).Ok?
    ensures s.active.Some? && R.HandleCallFact(s, seqNo, fact).value.active == s.active
    ensures forall k :: k in R.HandleCallFact(s, seqNo, fact).value.calls ==> k in s.calls || k == s.calls[R.Resolve(s, fact.call).value].key
    ensures fact.ToolFinished? || fact.ToolReconciled? ==>
              R.Resolve(s, fact.call).Ok? && s.calls[R.Resolve(s, fact.call).value].status.IsUnsettled()
  {
  }

  lemma CallFactKeepsDoom(s: State, seqNo: nat, fact: Fact, t: Tracker, v: C.Scanner, id: string)
    requires I.CallInv(s) && Names(s.calls, t) && fact.ChangesCalls() && id in v.pending && Hopeless(s, id)
    requires R.HandleCallFact(s, seqNo, fact).Ok? && ProjectFact(t, seqNo, fact).Ok? && !fact.AssistantAccepted?
    ensures var r := Scanning(Ok(v), ProjectFact(t, seqNo, fact).value.1);
            r.Err? || (id in r.value.pending && R.HandleCallFact(s, seqNo, fact).value.active == s.active)
  {
    hide R.HandleCallFact, I.CallInv, Names, Hopeless, R.Resolve, Lookup;
    CallFactKeepsActive(s, seqNo, fact);
    if fact.ToolFinished? || fact.ToolReconciled? {
      if Lookup(t, fact.call).Ok? { AnswerMisses(s, fact.call, t, id); }
    }
  }

  lemma StaysHopeless(s: State, u: State, id: string)
    requires Hopeless(s, id) && Runs.Forward(s, u)
    requires u.active == s.active || u.active.None?
    requires forall k :: k in u.calls && Awaited(u.calls[k]) ==> k in s.calls
    ensures Hopeless(u, id)
  {
    if u.active.Some? {
      var k0 :| k0 in s.calls && R.Named(s, id, k0) && s.calls[k0].origin.FromModel? && !s.calls[k0].status.IsUnsettled();
      assert R.Named(u, id, k0);
    }
  }

  lemma GraphFactFrame(s: State, seqNo: nat, fact: Fact)
    requires fact.ChangesGraph() && R.HandleGraphFact(s, seqNo, fact).Ok?
    ensures var u := R.HandleGraphFact(s, seqNo, fact).value;
            u.active == s.active && forall k :: k in u.calls && Awaited(u.calls[k]) ==> k in s.calls
  {
  }

  lemma TurnFactFrame(s: State, fact: Fact)
    requires fact.ChangesTurns() && !fact.TurnStarted? && R.HandleTurnFact(s, fact).Ok?
    ensures var u := R.HandleTurnFact(s, fact).value;
            (u.active == s.active || u.active.None?) && u.calls == s.calls
  {
  }

  lemma OtherFactFrame(s: State, seqNo: nat, fact: Fact)
    requires !fact.ChangesCalls() && !fact.ChangesGraph() && !fact.ChangesTurns()
    requires R.HandleOtherFact(s, seqNo, fact).Ok?
    ensures var u := R.HandleOtherFact(s, seqNo, fact).value;
            u.active == s.active && u.calls == s.calls
  {
  }

  lemma StepFrame(s: State, e: Event)
    requires I.Inv(s) && R.Step(s, e).Ok? && !e.fact.AssistantAccepted? && !e.fact.TurnStarted?
    ensures var u := R.Step(s, e).value;
            && (u.active == s.active || u.active.None?)
            && forall k :: k in u.calls && Awaited(u.calls[k]) ==> k in s.calls
  {
    assert I.CallsOk(s.calls, s.active);
    hide I.Inv, R.HandleCallFact, R.HandleGraphFact, R.HandleTurnFact, R.HandleOtherFact;
    if e.fact.ChangesCalls() {
      CallFactKeepsActive(s, e.seqNo, e.fact);
    } else if e.fact.ChangesGraph() {
      GraphFactFrame(s, e.seqNo, e.fact);
    } else if e.fact.ChangesTurns() {
      TurnFactFrame(s, e.fact);
    } else {
      OtherFactFrame(s, e.seqNo, e.fact);
    }
  }

  lemma DoomStep(s: State, e: Event, t: Tracker, r: Scanned)
    requires I.Inv(s) && Names(s.calls, t) && Doomed(s, r)
    requires R.Step(s, e).Ok? && ProjectFact(t, e.seqNo, e.fact).Ok?
    ensures Doomed(R.Step(s, e).value, Scanning(r, ProjectFact(t, e.seqNo, e.fact).value.1))
  {
    if r.Ok? {
      var id :| id in r.value.pending && Hopeless(s, id);
      var u, q := R.Step(s, e).value, Scanning(r, ProjectFact(t, e.seqNo, e.fact).value.1);
      Runs.StepAdvances(s, e);
      hide R.HandleCallFact, R.HandleGraphFact, R.HandleTurnFact, R.HandleOtherFact, Hopeless, Runs.Forward;
      if q.Ok? && !e.fact.AssistantAccepted? && !e.fact.TurnStarted? {
        StepFrame(s, e);
        if e.fact.ChangesCalls() { CallFactKeepsDoom(s, e.seqNo, e.fact, t, r.value, id); }
        StaysHopeless(s, u, id);
      }
    }
  }

  lemma FactsOkExtend(events: seq<Event>)
    requires events != [] && R.Replay(EMPTY, events).Ok? && FactsOk(events[..|events| - 1])
    requires FactOk(R.Replay(EMPTY, events[..|events| - 1]).value, events[|events| - 1].fact)
    ensures FactsOk(events)
  {
    hide FactOk, R.Step, R.Replay;
    var n := |events| - 1;
    forall i | 0 <= i < |events| && R.Replay(EMPTY, events[..i]).Ok?
      ensures FactOk(R.Replay(EMPTY, events[..i]).value, events[i].fact)
    {
      if i < n {
        assert events[..n][..i] == events[..i];
        assert events[..n][i] == events[i];
      }
    }
  }

  /** The projection from the cut on has failed, or cannot close any more. */
  ghost predicate Lost(events: seq<Event>, through: nat) {
    var f := FoldEvents(events, through);
    f.Err? || (R.Replay(EMPTY, events).Ok?
               && Names(R.Replay(EMPTY, events).value.calls, f.value.tracker)
               && Doomed(R.Replay(EMPTY, events).value, C.Scan(C.START, f.value.messages)))
  }

  lemma LostExtend(events: seq<Event>, through: nat)
    requires through < |events| && R.Replay(EMPTY, events).Ok? && Lost(events[..|events| - 1], through)
    ensures Lost(events, through)
  {
    var n := |events| - 1;
    var front := events[..n];
    Unfold(EMPTY, events);
    SeqNumbers(events);
    if FoldEvents(events, through).Ok? {
      var s, fold := R.Replay(EMPTY, front).value, FoldEvents(front, through).value;
      Runs.ReachableInv(front);
      hide I.Inv, R.Handle, Names, Doomed;
      NamesStep(s, events[n], fold.tracker);
      DoomStep(s, events[n], fold.tracker, C.Scan(C.START, fold.messages));
      var m := ProjectFact(fold.tracker, events[n].seqNo, events[n].fact).value.1;
      if m.Some? { C.ScanExtend(C.START, fold.messages, m.value); }
      DoomMonotone(R.Replay(EMPTY, events).value, fold.messages, m);
    }
  }

  lemma DoomMonotone(s: State, ms: seq<Message>, m: Option<Message>)
    requires Doomed(s, Scanning(C.Scan(C.START, ms), m))
    ensures Doomed(s, C.Scan(C.START, if m.Some? then ms + [m.value] else ms))
  {
    if m.Some? { C.ScanExtend(C.START, ms, m.value); }
  }

  /** The log has been read up to a cut that leaves nothing unsettled, and was right up to there. */
  ghost predicate RightUpTo(events: seq<Event>, through: nat) {
    && through <= |events| && FactsOk(events[..through])
    && R.Replay(EMPTY, events[..through]).Ok? && !R.Unsettled(R.Replay(EMPTY, events[..through]).value)
  }

  lemma FirstWrongFact(events: seq<Event>, through: nat)
    requires through < |events| && R.Replay(EMPTY, events).Ok? && RightUpTo(events[..|events| - 1], through)
    requires FactsOk(events[..|events| - 1])
    requires !FactOk(R.Replay(EMPTY, events[..|events| - 1]).value, events[|events| - 1].fact)
    ensures Lost(events, through)
  {
    var n := |events| - 1;
    var front := events[..n];
    Unfold(EMPTY, events);
    SeqNumbers(events);
    AfterCut(front, through);
    var s, fold := R.Replay(EMPTY, front).value, FoldEvents(front, through).value;
    Runs.ReachableInv(front);
    if FoldEvents(events, through).Ok? {
      NamesStep(s, events[n], fold.tracker);
      WrongFactDooms(s, events[n].seqNo, events[n].fact, fold.tracker, C.Scan(C.START, fold.messages).value);
      var m := ProjectFact(fold.tracker, events[n].seqNo, events[n].fact).value.1;
      DoomMonotone(R.Replay(EMPTY, events).value, fold.messages, m);
    }
  }

  lemma FrontIsRight(events: seq<Event>, through: nat)
    requires RightUpTo(events, through) && through < |events|
    ensures RightUpTo(events[..|events| - 1], through)
  {
    hide R.Replay, FactsOk, R.Unsettled;
    assert events[..|events| - 1][..through] == events[..through];
  }

  lemma RightToTheEnd(events: seq<Event>)
    requires RightUpTo(events, |events|)
    ensures FactsOk(events)
  {
    hide R.Replay, FactsOk, R.Unsettled;
    assert events[..|events|] == events;
  }

  lemma {:induction false} RightOrLost(events: seq<Event>, through: nat)
    requires R.Replay(EMPTY, events).Ok? && through <= |events| && RightUpTo(events, through)
    ensures FactsOk(events) || Lost(events, through)
  {
    hide *;
    if |events| == through {
      RightToTheEnd(events);
    } else {
      var front := events[..|events| - 1];
      Unfold(EMPTY, events);
      FrontIsRight(events, through);
      RightOrLost(front, through);
      if Lost(front, through) {
        LostExtend(events, through);
      } else if FactOk(R.Replay(EMPTY, front).value, events[|front|].fact) {
        FactsOkExtend(events);
      } else {
        FirstWrongFact(events, through);
      }
    }
  }

  /** The number of events that the latest checkpoint stands for. */
  function Through(events: seq<Event>): int {
    if LatestCheckpoint(events).Some? then LatestCheckpoint(events).value.throughSeq else 0
  }

  lemma {:induction false} NoCheckpointFound(events: seq<Event>)
    requires NoCheckpoint(events)
    ensures LatestCheckpoint(events).None?
  {
    if events != [] { NoCheckpointFound(events[..|events| - 1]); }
  }

  /** The empty beginning of a log is right. */
  lemma NothingBefore(events: seq<Event>)
    requires NoCheckpoint(events)
    ensures Through(events) == 0 && AllShow(events[..0])
  {
    NoCheckpointFound(events);
  }

  /** Closed messages in front neither repair nor spoil the rest. */
  lemma HeadDecidesNothing(system: string, baseline: seq<Message>, ms: seq<Message>)
    requires C.Valid(baseline) && C.NoSystem(baseline) && C.NoSystem(ms)
    ensures C.Valid([System(system)] + baseline + ms) <==> C.Valid(ms)
  {
    C.ScanOne(C.START, System(system));
    var v := C.START.(systemSeen := true);
    C.ScanConcat(C.START, [System(system)], baseline);
    C.ScanAfterClosed(C.START, v, baseline);
    var w := C.Scan(v, baseline).value;
    C.ScanConcat(C.START, [System(system)] + baseline, ms);
    C.ScanAfterClosed(C.START, w, ms);
  }

  // ----- Before the cut -----

  /** A result of a model call that the model is to see is not tagged. */
  ghost predicate Shows(s: State, fact: Fact) {
    match fact
    case ToolFinished(ref, status, _, _, tagged, _, _) =>
      var r := R.Resolve(s, ref);
      r.Ok? && s.calls[r.value].origin.FromModel? ==> !tagged || status.OutcomeUnknown?
    case ToolReconciled(ref, _, _, tagged) =>
      var r := R.Resolve(s, ref);
      r.Ok? && s.calls[r.value].origin.FromModel? ==> !tagged
    case _ => true
  }

  ghost predicate AllShow(events: seq<Event>) {
    forall i :: 0 <= i < |events| && R.Replay(EMPTY, events[..i]).Ok? ==> Shows(R.Replay(EMPTY, events[..i]).value, events[i].fact)
  }

  lemma RightShows(events: seq<Event>)
    requires FactsOk(events)
    ensures AllShow(events)
  {
    hide R.Replay, R.Resolve;
  }

  lemma AllShowFront(events: seq<Event>)
    requires AllShow(events) && events != []
    ensures AllShow(events[..|events| - 1])
    ensures R.Replay(EMPTY, events[..|events| - 1]).Ok? ==> Shows(R.Replay(EMPTY, events[..|events| - 1]).value, events[|events| - 1].fact)
  {
    hide R.Replay, Shows;
    var front := events[..|events| - 1];
    forall i | 0 <= i < |front| && R.Replay(EMPTY, front[..i]).Ok? ensures Shows(R.Replay(EMPTY, front[..i]).value, front[i].fact) {
      assert front[..i] == events[..i] && front[i] == events[i];
    }
  }

  /** A wrong fact that hides no result stops the projection at once. */
  lemma WrongFactStops(s: State, seqNo: nat, fact: Fact, t: Tracker)
    requires I.CallsOk(s.calls, s.active) && Tracks(s.calls, t) && Shows(s, fact) && !FactOk(s, fact)
    ensures ProjectFact(t, seqNo, fact).Err?
  {
    hide Lookup, AddCalls;
    if fact.ToolFinished? || fact.ToolReconciled? { CodeCallIsUntracked(s, fact.call, t); }
  }

  lemma NothingWrong()
    ensures FactsOk([])
  {
  }

  lemma FoldStops(events: seq<Event>, through: int)
    requires events != [] && FoldEvents(events[..|events| - 1], through).Ok?
    requires ProjectFact(FoldEvents(events[..|events| - 1], through).value.tracker, events[|events| - 1].seqNo, events[|events| - 1].fact).Err?
    ensures FoldEvents(events, through).Err?
  {
    hide ProjectFact;
  }

  lemma FoldStaysStopped(events: seq<Event>, through: int)
    requires events != [] && FoldEvents(events[..|events| - 1], through).Err?
    ensures FoldEvents(events, through).Err?
  {
    hide ProjectFact;
  }

  lemma CallsAreOk(s: State)
    requires I.Inv(s)
    ensures I.CallsOk(s.calls, s.active)
  {
    hide I.CallsOk;
  }

  /** Up to the cut a log that hides no result is right, or its projection has failed. */
  lemma {:induction false} RightOrStopped(events: seq<Event>, through: nat)
    requires R.Replay(EMPTY, events).Ok? && AllShow(events) && |events| <= through
    ensures FactsOk(events) || FoldEvents(events, through).Err?
  {
    hide *;
    if events == [] {
      NothingWrong();
    } else {
      var front, e := events[..|events| - 1], events[|events| - 1];
      Unfold(EMPTY, events);
      AllShowFront(events);
      RightOrStopped(front, through);
      if FoldEvents(front, through).Err? {
        FoldStaysStopped(events, through);
      } else if FactOk(R.Replay(EMPTY, front).value, e.fact) {
        FactsOkExtend(events);
      } else {
        BeforeCut(front, through);
        Runs.ReachableInv(front);
        CallsAreOk(R.Replay(EMPTY, front).value);
        WrongFactStops(R.Replay(EMPTY, front).value, e.seqNo, e.fact, FoldEvents(front, through).value.tracker);
        FoldStops(events, through);
      }
    }
  }

  /**
   A settled log in which no result of a model call is tagged before the cut of the latest checkpoint projects exactly
   when every result tag and assistant fact in it is right, before the cut and after it.
   */
  lemma ProjectionExact(events: seq<Event>, s: State, system: string)
    requires R.Replay(EMPTY, events) == Ok(s) && Settled(s)
    requires 0 <= Through(events) <= |events| ==> AllShow(events[..Through(events)])
    ensures Project(events, s, system).Ok? <==> FactsOk(events)
  {
    CutHolds(events);
    if FactsOk(events) {
      ProjectionSucceeds(events, s, system);
    } else {
      hide *;
      var through := ThroughIsCut(events);
      RightOrStopped(events[..through], through);
      if FactsOk(events[..through]) {
        RightIsRight(events, through);
        RightOrLost(events, through);
        LostIsRefused(events, s, system);
      } else {
        FoldErr(events, through, through);
        StoppedIsLost(events, through);
        LostIsRefused(events, s, system);
      }
    }
  }

  lemma ThroughIsCut(events: seq<Event>) returns (through: nat)
    requires R.Replay(EMPTY, events).Ok?
    ensures through == Through(events) && through <= |events|
    ensures R.Replay(EMPTY, events[..through]).Ok? && !R.Unsettled(R.Replay(EMPTY, events[..through]).value)
  {
    CutHolds(events);
    hide R.Replay, R.Unsettled, LatestCheckpoint, C.Valid, C.NoSystem;
    through := Through(events);
  }

  lemma RightIsRight(events: seq<Event>, through: nat)
    requires through <= |events| && FactsOk(events[..through])
    requires R.Replay(EMPTY, events[..through]).Ok? && !R.Unsettled(R.Replay(EMPTY, events[..through]).value)
    ensures RightUpTo(events, through)
  {
    hide R.Replay, R.Unsettled, FactsOk;
  }

  lemma StoppedIsLost(events: seq<Event>, through: nat)
    requires FoldEvents(events, through).Err?
    ensures Lost(events, through)
  {
    hide FoldEvents, R.Replay;
  }

  lemma LostIsRefused(events: seq<Event>, s: State, system: string)
    requires R.Replay(EMPTY, events) == Ok(s) && Settled(s) && 0 <= Through(events) && Lost(events, Through(events))
    ensures Project(events, s, system).Err?
  {
    CutHolds(events);
    hide R.Replay, FactsOk, FoldEvents, C.Valid;
    var through := Through(events);
    if FoldEvents(events, through).Ok? {
      FoldHasNoSystem(events, through);
      var baseline := if LatestCheckpoint(events).Some? then LatestCheckpoint(events).value.replacement else [];
      HeadDecidesNothing(system, baseline, FoldEvents(events, through).value.messages);
      NeverCloses(s, FoldEvents(events, through).value.messages);
    }
  }

  lemma NeverCloses(s: State, ms: seq<Message>)
    requires Doomed(s, C.Scan(C.START, ms))
    ensures !C.Valid(ms)
  {
  }
}
