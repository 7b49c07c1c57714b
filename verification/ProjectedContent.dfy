/**
 What a projected conversation holds behind the cut: what the user wrote, what the model answered, and for each call of
 the model that has ended its one result, in the order of the log.
 */
module ProjectedContent {
  import opened Domain
  import opened Projection
  import opened ProjectionSteps
  import opened ProjectionTheorem
  import R = Reducer
  import I = ReducerInvariant
  import Runs = ReducerRuns
  import M = ReducerMeaning
  import PC = ProjectionConverse
  import C = Conversation
  import CT = CompactionTheorem

  // ----- What is to be said -----

  /** The words for a verdict of the user. */
  function Words(status: ToolStatus): string {
    match status
    case UserConfirmedSuccess => "User confirmed after recovery that the tool succeeded."
    case UserConfirmedFailure => "User confirmed after recovery that the tool failed."
    case _ => "User abandoned the uncertain tool call after recovery."
  }

  /** What the model is told of a call that has ended: its result, or the verdict with its note. */
  function Told(call: ToolCall): string {
    if call.status in {UserConfirmedSuccess, UserConfirmedFailure, Abandoned} then
      Words(call.status) + if call.note.Some? && call.note.value != "" then " Note: " + call.note.value else ""
    else if call.result.Some? then call.result.value else ""
  }

  /** This call of the model ended, for good, with event `q`. */
  predicate EndedAt(calls: Calls, k: string, q: nat) {
    k in calls && calls[k].origin.FromModel? && calls[k].finishedSeq == Some(q) && !calls[k].status.OutcomeUnknown?
  }

  /** What the conversation says for event `q`, given the calls at the end. */
  ghost predicate Says(calls: Calls, e: Event, q: nat, m: Option<Message>) {
    match e.fact
    case TurnStarted(_, input) => m == Some(User(input))
    case AssistantAccepted(_, content, docs) => m == Some(Assistant(content, docs))
    case _ =>
      if exists k :: EndedAt(calls, k, q)
      then exists k :: EndedAt(calls, k, q) && m == Some(Tool(calls[k].providerId, Told(calls[k])))
      else m == None
  }

  /** The messages are what the events after the cut say, one after another. */
  ghost predicate SaidFrom(events: seq<Event>, calls: Calls, cut: nat, ms: seq<Message>)
    decreases |events|
  {
    if |events| <= cut then ms == []
    else
      exists m: Option<Message> ::
        Says(calls, events[|events| - 1], |events|, m)
        && if m.None? then SaidFrom(events[..|events| - 1], calls, cut, ms)
           else ms != [] && ms[|ms| - 1] == m.value && SaidFrom(events[..|events| - 1], calls, cut, ms[..|ms| - 1])
  }

  // ----- The fold says it -----

  /** Nothing is different for the events up to `n`. */
  ghost predicate SameUpTo(a: Calls, b: Calls, n: nat) {
    forall k: string, q: nat :: q <= n ==> (EndedAt(a, k, q) <==> EndedAt(b, k, q)) && (EndedAt(a, k, q) ==> a[k] == b[k])
  }

  lemma SameSays(a: Calls, b: Calls, n: nat, e: Event, q: nat, m: Option<Message>)
    requires SameUpTo(a, b, n) && q <= n && Says(a, e, q, m)
    ensures Says(b, e, q, m)
  {
    hide EndedAt, Told;
  }

  lemma {:induction false} SameSaid(events: seq<Event>, a: Calls, b: Calls, n: nat, cut: nat, ms: seq<Message>)
    requires SameUpTo(a, b, n) && |events| <= n && SaidFrom(events, a, cut, ms)
    ensures SaidFrom(events, b, cut, ms)
    decreases |events|
  {
    hide SameUpTo, Says;
    if |events| > cut {
      var front := events[..|events| - 1];
      var m :| Says(a, events[|events| - 1], |events|, m)
               && if m.None? then SaidFrom(front, a, cut, ms)
                  else ms != [] && ms[|ms| - 1] == m.value && SaidFrom(front, a, cut, ms[..|ms| - 1]);
      SameSays(a, b, n, events[|events| - 1], |events|, m);
      SameSaid(front, a, b, n, cut, if m.None? then ms else ms[..|ms| - 1]);
    }
  }

  lemma SaidMore(events: seq<Event>, calls: Calls, cut: nat, ms: seq<Message>, m: Option<Message>)
    requires |events| > cut && SaidFrom(events[..|events| - 1], calls, cut, ms) && Says(calls, events[|events| - 1], |events|, m)
    ensures SaidFrom(events, calls, cut, if m.Some? then ms + [m.value] else ms)
  {
    hide Says;
    if m.Some? {
      var more := ms + [m.value];
      assert more[..|more| - 1] == ms;
    }
  }

  /** An accepted event leaves alone what ended before. */
  lemma OldEndsStay(s: State, u: State)
    requires I.CallsOk(s.calls, s.active) && I.CallsOk(u.calls, u.active) && I.SeqsOk(s.calls, s.lastSeq)
    requires Runs.CallsForward(s.calls, u.calls, s.lastSeq)
    requires forall k :: k in u.calls && k !in s.calls ==> u.calls[k].finishedSeq.None?
    ensures SameUpTo(s.calls, u.calls, s.lastSeq)
  {
    forall k, q: nat | q <= s.lastSeq
      ensures (EndedAt(s.calls, k, q) <==> EndedAt(u.calls, k, q)) && (EndedAt(s.calls, k, q) ==> s.calls[k] == u.calls[k])
    {
      if k in s.calls { assert Runs.CallForward(s.calls[k], u.calls[k], s.lastSeq); }
    }
  }

  lemma OnlyOneEndsNow(s: State, u: State, k: string, e: Event)
    requires M.CallMoved(s, u, k, e.seqNo, e.fact) && I.SeqsOk(s.calls, s.lastSeq) && e.seqNo == s.lastSeq + 1
    ensures forall j :: EndedAt(u.calls, j, e.seqNo) ==> j == k
  {
    hide M.IsAbout;
  }

  lemma NoneEndsNow(s: State, u: State, seqNo: nat)
    requires M.CallsJoined(s, u) && I.SeqsOk(s.calls, s.lastSeq) && seqNo == s.lastSeq + 1
    ensures forall j :: !EndedAt(u.calls, j, seqNo)
  {
  }

  /** A call ends openly: it was open before, and does not end with a verdict. */
  lemma FinishIsNoVerdict(s: State, e: Event)
    requires R.Step(s, e).Ok? && e.fact.ToolFinished?
    ensures R.Resolve(s, e.fact.call).Ok? && R.Resolve(s, e.fact.call).value in s.calls
    ensures s.calls[R.Resolve(s, e.fact.call).value].status.IsOpen() && e.fact.status !in {UserConfirmedSuccess, UserConfirmedFailure, Abandoned}
  {
    hide R.HandleGraphFact, R.HandleTurnFact, R.HandleOtherFact;
  }

  lemma FinishSays(s: State, u: State, e: Event, t: Tracker, k: string)
    requires e.fact.ToolFinished? && R.Resolve(s, e.fact.call) == Ok(k) && M.CallMoved(s, u, k, e.seqNo, e.fact)
    requires Tracks(s.calls, t) && FactOk(s, e.fact) && I.SeqsOk(s.calls, s.lastSeq) && e.seqNo == s.lastSeq + 1
    requires s.calls[k].status.IsOpen() && e.fact.status !in {UserConfirmedSuccess, UserConfirmedFailure, Abandoned}
    ensures ProjectFact(t, e.seqNo, e.fact).Ok? ==> Says(u.calls, e, e.seqNo, ProjectFact(t, e.seqNo, e.fact).value.1)
  {
    OnlyOneEndsNow(s, u, k, e);
    if s.calls[k].origin.FromModel? { LookupFinds(s, e.fact.call, t); }
    hide R.Resolve, Lookup, M.IsAbout, Tracks;
    assert EndedAt(u.calls, k, e.seqNo) <==> s.calls[k].origin.FromModel? && !e.fact.status.OutcomeUnknown?;
  }

  lemma VerdictSays(s: State, u: State, e: Event, t: Tracker, k: string)
    requires e.fact.ToolReconciled? && R.Resolve(s, e.fact.call) == Ok(k) && M.CallMoved(s, u, k, e.seqNo, e.fact)
    requires Tracks(s.calls, t) && FactOk(s, e.fact) && I.SeqsOk(s.calls, s.lastSeq) && e.seqNo == s.lastSeq + 1
    ensures ProjectFact(t, e.seqNo, e.fact).Ok? ==> Says(u.calls, e, e.seqNo, ProjectFact(t, e.seqNo, e.fact).value.1)
  {
    OnlyOneEndsNow(s, u, k, e);
    if s.calls[k].origin.FromModel? { LookupFinds(s, e.fact.call, t); }
    VerdictWords(e.fact.outcome, e.fact.note);
    hide R.Resolve, Lookup, M.IsAbout, Tracks, VerdictText, Words;
    assert EndedAt(u.calls, k, e.seqNo) <==> s.calls[k].origin.FromModel?;
  }

  lemma VerdictWords(outcome: Outcome, note: string)
    ensures VerdictText(outcome, note) == Words(M.Judged(outcome)) + if note != "" then " Note: " + note else ""
  {
    match outcome
    case ConfirmSuccess =>
    case ConfirmFailure =>
    case GiveUp =>
  }

  /** What an event says, and so what the events after a cut say, is one thing only. */
  lemma SaysOneThing(events: seq<Event>, s: State, e: Event, q: nat, a: Option<Message>, b: Option<Message>)
    requires M.CallsTold(events, s) && Says(s.calls, e, q, a) && Says(s.calls, e, q, b)
    ensures a == b
  {
    hide Told, M.Ends;
    assert forall j, k :: EndedAt(s.calls, j, q) && EndedAt(s.calls, k, q) ==> j == k;
    hide M.CallsTold, EndedAt;
  }

  lemma {:induction false} SaidIsOneThing(events: seq<Event>, log: seq<Event>, s: State, cut: nat, a: seq<Message>, b: seq<Message>)
    requires M.CallsTold(log, s) && SaidFrom(events, s.calls, cut, a) && SaidFrom(events, s.calls, cut, b)
    ensures a == b
    decreases |events|
  {
    hide M.CallsTold, Says;
    if |events| > cut {
      var front, e := events[..|events| - 1], events[|events| - 1];
      var m :| Says(s.calls, e, |events|, m)
               && if m.None? then SaidFrom(front, s.calls, cut, a) else a != [] && a[|a| - 1] == m.value && SaidFrom(front, s.calls, cut, a[..|a| - 1]);
      var n :| Says(s.calls, e, |events|, n)
               && if n.None? then SaidFrom(front, s.calls, cut, b) else b != [] && b[|b| - 1] == n.value && SaidFrom(front, s.calls, cut, b[..|b| - 1]);
      SaysOneThing(log, s, e, |events|, m, n);
      if m.None? {
        SaidIsOneThing(front, log, s, cut, a, b);
      } else {
        SaidIsOneThing(front, log, s, cut, a[..|a| - 1], b[..|b| - 1]);
        assert a == a[..|a| - 1] + [m.value] && b == b[..|b| - 1] + [m.value];
      }
    }
  }

  /** What the projector makes of one event is what the conversation is to say for it. */
  lemma FactSays(s: State, e: Event, t: Tracker)
    requires I.Inv(s) && R.Step(s, e).Ok? && Tracks(s.calls, t) && FactOk(s, e.fact) && ProjectFact(t, e.seqNo, e.fact).Ok?
    ensures Says(R.Step(s, e).value.calls, e, e.seqNo, ProjectFact(t, e.seqNo, e.fact).value.1)
  {
    assert I.SeqsOk(s.calls, s.lastSeq);
    M.StepHandles(s, e);
    hide I.Inv, R.Step, Tracks, FactOk, Says, ProjectFact, I.SeqsOk, M.CallMoved, M.CallsJoined;
    var u := R.Step(s, e).value;
    if e.fact.ToolFinished? {
      var k := M.StepMovesCall(s, e);
      FinishIsNoVerdict(s, e);
      FinishSays(s, u, e, t, k);
    } else if e.fact.ToolReconciled? {
      var k := M.StepMovesCall(s, e);
      VerdictSays(s, u, e, t, k);
    } else if M.MovesCall(e.fact) {
      var k := M.StepMovesCall(s, e);
      Runs.StepKeeps(s, e);
      StartSays(s, u, e, t, k);
    } else {
      M.StepJoins(s, e);
      NoneEndsNow(s, u, e.seqNo);
      OtherSays(u.calls, e, t);
    }
  }

  lemma StartSays(s: State, u: State, e: Event, t: Tracker, k: string)
    requires M.CallMoved(s, u, k, e.seqNo, e.fact) && (e.fact.ToolStarted? || e.fact.ApprovalDecided?)
    requires I.SeqsOk(s.calls, s.lastSeq) && e.seqNo == s.lastSeq + 1 && I.Inv(u)
    ensures ProjectFact(t, e.seqNo, e.fact).Ok? ==> Says(u.calls, e, e.seqNo, ProjectFact(t, e.seqNo, e.fact).value.1)
  {
    hide I.Inv, M.IsAbout;
  }

  lemma OtherSays(calls: Calls, e: Event, t: Tracker)
    requires (forall j :: !EndedAt(calls, j, e.seqNo)) && !M.MovesCall(e.fact)
    ensures ProjectFact(t, e.seqNo, e.fact).Ok? ==> Says(calls, e, e.seqNo, ProjectFact(t, e.seqNo, e.fact).value.1)
  {
    hide AddCalls, EndedAt;
  }

  /** The kept messages are what the events after the cut say of the calls as they are now. */
  lemma {:induction false} FoldSays(events: seq<Event>, cut: nat)
    requires R.Replay(EMPTY, events).Ok? && FactsOk(events) && cut <= |events|
    requires R.Replay(EMPTY, events[..cut]).Ok? && !R.Unsettled(R.Replay(EMPTY, events[..cut]).value)
    ensures FoldEvents(events, cut).Ok? && SaidFrom(events, R.Replay(EMPTY, events).value.calls, cut, FoldEvents(events, cut).value.messages)
  {
    hide *;
    AfterCut(events, cut);
    if |events| == cut {
      AtTheCut(events);
      NothingSaid(events, R.Replay(EMPTY, events).value.calls, cut);
    } else {
      var front, e := events[..|events| - 1], events[|events| - 1];
      M.LastStep(events);
      FactsOkPrefix(events, |front|);
      assert front[..cut] == events[..cut];
      FoldSays(front, cut);
      AfterCut(front, cut);
      var s, u, fold := R.Replay(EMPTY, front).value, R.Replay(EMPTY, events).value, FoldEvents(front, cut).value;
      Runs.ReachableInv(front);
      Runs.ReachableInv(events);
      LastFactOk(events);
      FoldStep(events, cut);
      InStepTracks(s.calls, fold);
      FactSays(s, e, fold.tracker);
      EndsBefore(s, u, e);
      M.StepHandles(s, e);
      SameSaid(front, s.calls, u.calls, s.lastSeq, cut, fold.messages);
      SaidMore(events, u.calls, cut, fold.messages, ProjectFact(fold.tracker, e.seqNo, e.fact).value.1);
    }
  }

  lemma InStepTracks(calls: Calls, fold: Fold)
    requires C.Scan(C.START, fold.messages).Ok? && InStep(calls, fold.tracker, C.Scan(C.START, fold.messages).value)
    ensures Tracks(calls, fold.tracker)
  {
  }

  lemma LastFactOk(events: seq<Event>)
    requires events != [] && FactsOk(events) && R.Replay(EMPTY, events[..|events| - 1]).Ok?
    ensures FactOk(R.Replay(EMPTY, events[..|events| - 1]).value, events[|events| - 1].fact)
  {
    hide R.Replay, FactOk;
  }

  lemma AtTheCut(events: seq<Event>)
    requires R.Replay(EMPTY, events).Ok? && FactsOk(events)
    ensures FoldEvents(events, |events|).Ok? && FoldEvents(events, |events|).value.messages == []
  {
    BeforeCut(events, |events|);
  }

  lemma NothingSaid(events: seq<Event>, calls: Calls, cut: nat)
    requires |events| <= cut
    ensures SaidFrom(events, calls, cut, [])
  {
  }

  lemma FoldStep(events: seq<Event>, cut: nat)
    requires |events| > cut && FoldEvents(events, cut).Ok? && events[|events| - 1].seqNo == |events|
    ensures FoldEvents(events[..|events| - 1], cut).Ok?
    ensures var fold, e := FoldEvents(events[..|events| - 1], cut).value, events[|events| - 1];
            var p := ProjectFact(fold.tracker, e.seqNo, e.fact);
            && p.Ok?
            && FoldEvents(events, cut).value.messages == if p.value.1.Some? then fold.messages + [p.value.1.value] else fold.messages
  {
    hide ProjectFact;
  }

  lemma EndsBefore(s: State, u: State, e: Event)
    requires I.Inv(s) && I.Inv(u) && R.Step(s, e) == Ok(u)
    ensures SameUpTo(s.calls, u.calls, s.lastSeq)
  {
    Runs.StepAdvances(s, e);
    assert I.CallsOk(s.calls, s.active) && I.CallsOk(u.calls, u.active) && I.SeqsOk(s.calls, s.lastSeq);
    hide I.Inv, R.Step, SameUpTo, I.SeqsOk;
    forall k | k in u.calls && k !in s.calls ensures u.calls[k].finishedSeq.None? { NewIsOpen(s, u, e, k); }
    hide I.CallsOk;
    OldEndsStay(s, u);
  }

  lemma NewIsOpen(s: State, u: State, e: Event, k: string)
    requires I.Inv(s) && R.Step(s, e) == Ok(u) && k in u.calls && k !in s.calls
    ensures u.calls[k].finishedSeq.None?
  {
    hide I.Inv, R.Step;
    if M.MovesCall(e.fact) { var j := M.StepMovesCall(s, e); } else { M.StepJoins(s, e); }
    hide M.IsAbout;
  }

  /**
   A settled and rightly tagged log projects to the system message, the replacement of its latest checkpoint, and what
   the events after the cut say: each input of the user, each answer of the model with its calls, and for each call of
   the model that ended after the cut one result, in the order of the log.
   */
  lemma ProjectionSays(events: seq<Event>, s: State, system: string) returns (rest: seq<Message>)
    requires R.Replay(EMPTY, events) == Ok(s) && Settled(s) && FactsOk(events)
    ensures Project(events, s, system) == Ok([System(system)] + CT.Baseline(events) + rest)
    ensures 0 <= PC.Through(events) && SaidFrom(events, s.calls, PC.Through(events), rest)
  {
    hide *;
    ProjectionSucceeds(events, s, system);
    var cut := PC.ThroughIsCut(events);
    FoldSays(events, cut);
    rest := FoldEvents(events, cut).value.messages;
    PartsOf(events, s, system);
  }

  lemma PartsOf(events: seq<Event>, s: State, system: string)
    requires Project(events, s, system).Ok? && R.Replay(EMPTY, events) == Ok(s)
    ensures FoldEvents(events, PC.Through(events)).Ok?
    ensures Project(events, s, system).value == [System(system)] + CT.Baseline(events) + FoldEvents(events, PC.Through(events)).value.messages
  {
    hide R.Replay, FoldEvents, C.Valid, LatestCheckpoint;
  }
}
