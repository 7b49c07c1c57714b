/**
 What the session says about its log: each call, turn, run and setting is as the last fact about it tells.
 */
module ReducerMeaning {
  import opened Domain
  import R = Reducer
  import I = ReducerInvariant
  import Runs = ReducerRuns
  import P = Projection
  import T = ProjectionTheorem

  // ----- Calls -----

  /** The fact may be about this call. */
  predicate IsAbout(ref: CallRef, call: ToolCall) {
    && (ref.key.Some? ==> ref.key.value == call.key)
    && (ref.id.Some? ==> ref.id.value == call.providerId)
    && (ref.key.Some? || ref.id.Some?)
  }

  /** One accepted fact about a call: this call changes as it says, and no other. */
  ghost predicate CallMoved(s: State, u: State, k: string, seqNo: nat, fact: Fact) {
    && k in s.calls && k in u.calls && u.calls == s.calls[k := u.calls[k]]
    && match fact
       case ToolStarted(ref) => IsAbout(ref, s.calls[k]) && u.calls[k] == s.calls[k].(status := Started)
       case ApprovalDecided(ref, approved, _) => IsAbout(ref, s.calls[k]) && u.calls[k] == s.calls[k].(approved := Some(approved))
       case ToolFinished(ref, status, result, _, _, _, _) =>
         IsAbout(ref, s.calls[k]) && u.calls[k] == s.calls[k].(status := status, result := result, finishedSeq := Some(seqNo))
       case ToolReconciled(ref, outcome, note, _) =>
         && IsAbout(ref, s.calls[k]) && s.calls[k].status.OutcomeUnknown?
         && u.calls[k] == s.calls[k].(status := Judged(outcome), note := Some(note), finishedSeq := Some(seqNo))
       case _ => false
  }

  function Judged(outcome: Outcome): ToolStatus {
    match outcome
    case ConfirmSuccess => UserConfirmedSuccess
    case ConfirmFailure => UserConfirmedFailure
    case GiveUp => Abandoned
  }

  predicate MovesCall(fact: Fact) { fact.ToolStarted? || fact.ApprovalDecided? || fact.ToolFinished? || fact.ToolReconciled? }

  lemma Resolved(s: State, ref: CallRef)
    requires I.CallsOk(s.calls, s.active) && R.Resolve(s, ref).Ok?
    ensures var k := R.Resolve(s, ref).value; k in s.calls && s.calls[k].key == k && IsAbout(ref, s.calls[k])
  {
  }

  lemma CallFactMoves(s: State, seqNo: nat, fact: Fact)
    requires I.CallsOk(s.calls, s.active) && MovesCall(fact) && R.HandleCallFact(s, seqNo, fact).Ok?
    ensures R.Resolve(s, fact.call).Ok? && CallMoved(s, R.HandleCallFact(s, seqNo, fact).value, R.Resolve(s, fact.call).value, seqNo, fact)
  {
    hide R.ApplyAssistant, IsAbout;
    if R.Resolve(s, fact.call).Ok? { Resolved(s, fact.call); }
    hide R.Resolve;
  }

  lemma StepMovesCall(s: State, e: Event) returns (k: string)
    requires I.Inv(s) && MovesCall(e.fact) && R.Step(s, e).Ok?
    ensures R.Resolve(s, e.fact.call) == Ok(k) && CallMoved(s, R.Step(s, e).value, k, e.seqNo, e.fact)
  {
    assert I.CallsOk(s.calls, s.active);
    hide I.Inv;
    CallFactMoves(s, e.seqNo, e.fact);
    hide R.HandleCallFact, CallMoved, R.Resolve;
    StepHandles(s, e);
    k := R.Resolve(s, e.fact.call).value;
    MovedToo(s, R.HandleCallFact(s, e.seqNo, e.fact).value, R.Step(s, e).value, k, e);
  }

  lemma StepHandles(s: State, e: Event)
    requires R.Step(s, e).Ok?
    ensures e.seqNo == s.lastSeq + 1 && R.Handle(s, e.seqNo, e.fact).Ok?
    ensures R.Step(s, e).value == R.Handle(s, e.seqNo, e.fact).value.(lastSeq := e.seqNo)
  {
    hide R.Handle;
  }

  lemma MovedToo(s: State, t: State, u: State, k: string, e: Event)
    requires CallMoved(s, t, k, e.seqNo, e.fact) && u == t.(lastSeq := u.lastSeq)
    ensures CallMoved(s, u, k, e.seqNo, e.fact)
  {
  }

  /** Other facts leave every call as it is; a batch or a plan adds requested ones. */
  ghost predicate CallsJoined(s: State, u: State) {
    forall k :: k in u.calls ==> if k in s.calls then u.calls[k] == s.calls[k] else u.calls[k].status.Requested? && u.calls[k].finishedSeq.None?
  }

  lemma {:induction false} BatchJoins(s: State, seqNo: nat, turn: string, docs: seq<CallDoc>)
    requires R.AddCalls(s, seqNo, turn, docs).Ok?
    ensures CallsJoined(s, R.AddCalls(s, seqNo, turn, docs).value)
    ensures forall k :: k in s.calls ==> k in R.AddCalls(s, seqNo, turn, docs).value.calls
  {
    hide ModelKey;
    if docs != [] { BatchJoins(s, seqNo, turn, docs[..|docs| - 1]); }
  }

  lemma OtherFactJoins(s: State, seqNo: nat, fact: Fact)
    requires !MovesCall(fact) && R.Handle(s, seqNo, fact).Ok?
    ensures CallsJoined(s, R.Handle(s, seqNo, fact).value)
  {
    if fact.AssistantAccepted? {
      if R.AssistantRefusal(s, fact.claimedTurn, fact.calls).None? { BatchJoins(s, seqNo, s.active.value, fact.calls); }
      hide R.AddCalls, CallsJoined, R.AssistantRefusal;
    } else {
      hide R.HandleCallFact;
    }
  }

  lemma StepJoins(s: State, e: Event)
    requires !MovesCall(e.fact) && R.Step(s, e).Ok?
    ensures CallsJoined(s, R.Step(s, e).value)
  {
    hide *;
    StepHandles(s, e);
    OtherFactJoins(s, e.seqNo, e.fact);
    JoinedToo(s, R.Handle(s, e.seqNo, e.fact).value, R.Step(s, e).value);
  }

  lemma JoinedToo(s: State, t: State, u: State)
    requires CallsJoined(s, t) && u == t.(lastSeq := u.lastSeq)
    ensures CallsJoined(s, u)
  {
  }

  /** The fact ends the call with what the call then shows. */
  predicate Ends(fact: Fact, call: ToolCall) {
    match fact
    case ToolFinished(ref, status, result, _, _, _, _) => IsAbout(ref, call) && call.status == status && call.result == result
    case ToolReconciled(ref, outcome, note, _) => IsAbout(ref, call) && call.status == Judged(outcome) && call.note == Some(note)
    case _ => false
  }

  /** Each ended call was ended by the event with its finish number, and no two calls by one event. */
  ghost predicate CallsTold(events: seq<Event>, s: State) {
    && (forall k :: k in s.calls && s.calls[k].finishedSeq.Some? ==>
          1 <= s.calls[k].finishedSeq.value <= |events| && Ends(events[s.calls[k].finishedSeq.value - 1].fact, s.calls[k]))
    && forall j, k :: j in s.calls && k in s.calls && s.calls[j].finishedSeq.Some? && s.calls[j].finishedSeq == s.calls[k].finishedSeq ==> j == k
  }

  lemma ToldMoved(events: seq<Event>, s: State, u: State, k: string, e: Event)
    requires events != [] && events[|events| - 1] == e && CallsTold(events[..|events| - 1], s) && e.seqNo == |events|
    requires CallMoved(s, u, k, e.seqNo, e.fact) && I.CallsOk(u.calls, u.active)
    ensures CallsTold(events, u)
  {
    hide *;
    forall j | j in u.calls && u.calls[j].finishedSeq.Some?
      ensures 1 <= u.calls[j].finishedSeq.value <= |events| && Ends(events[u.calls[j].finishedSeq.value - 1].fact, u.calls[j])
    {
      OneTold(events, s, u, k, e, j);
    }
    forall i, j | i in u.calls && j in u.calls && u.calls[i].finishedSeq.Some? && u.calls[i].finishedSeq == u.calls[j].finishedSeq ensures i == j {
      OneEach(events, s, u, k, e, i, j);
    }
    NowTold(events, u);
  }

  lemma NowTold(events: seq<Event>, u: State)
    requires forall j :: j in u.calls && u.calls[j].finishedSeq.Some? ==>
               1 <= u.calls[j].finishedSeq.value <= |events| && Ends(events[u.calls[j].finishedSeq.value - 1].fact, u.calls[j])
    requires forall i, j :: i in u.calls && j in u.calls && u.calls[i].finishedSeq.Some? && u.calls[i].finishedSeq == u.calls[j].finishedSeq ==> i == j
    ensures CallsTold(events, u)
  {
    hide Ends;
  }

  lemma OneTold(events: seq<Event>, s: State, u: State, k: string, e: Event, j: string)
    requires events != [] && events[|events| - 1] == e && CallsTold(events[..|events| - 1], s) && e.seqNo == |events|
    requires CallMoved(s, u, k, e.seqNo, e.fact) && I.CallsOk(u.calls, u.active) && j in u.calls && u.calls[j].finishedSeq.Some?
    ensures 1 <= u.calls[j].finishedSeq.value <= |events| && Ends(events[u.calls[j].finishedSeq.value - 1].fact, u.calls[j])
  {
    if j == k && (e.fact.ToolFinished? || e.fact.ToolReconciled?) {
      EndsNow(s, u, k, e);
    } else {
      assert j == k ==> !e.fact.ToolStarted?;
      hide I.CallsOk;
      assert j in s.calls;
      assert events[..|events| - 1][s.calls[j].finishedSeq.value - 1] == events[s.calls[j].finishedSeq.value - 1];
    }
  }

  lemma OneEach(events: seq<Event>, s: State, u: State, k: string, e: Event, i: string, j: string)
    requires events != [] && CallsTold(events[..|events| - 1], s) && e.seqNo == |events| && CallMoved(s, u, k, e.seqNo, e.fact)
    requires i in u.calls && j in u.calls && u.calls[i].finishedSeq.Some? && u.calls[i].finishedSeq == u.calls[j].finishedSeq
    ensures i == j
  {
    hide Ends, IsAbout;
  }

  lemma EndsNow(s: State, u: State, k: string, e: Event)
    requires CallMoved(s, u, k, e.seqNo, e.fact) && (e.fact.ToolFinished? || e.fact.ToolReconciled?)
    ensures Ends(e.fact, u.calls[k])
  {
  }

  lemma ToldJoined(events: seq<Event>, s: State, u: State)
    requires events != [] && CallsTold(events[..|events| - 1], s) && CallsJoined(s, u)
    ensures CallsTold(events, u)
  {
    hide Ends;
    forall j | j in u.calls && u.calls[j].finishedSeq.Some?
      ensures 1 <= u.calls[j].finishedSeq.value <= |events| && Ends(events[u.calls[j].finishedSeq.value - 1].fact, u.calls[j])
    {
      assert events[..|events| - 1][s.calls[j].finishedSeq.value - 1] == events[s.calls[j].finishedSeq.value - 1];
    }
  }

  lemma NothingCalled()
    ensures CallsTold([], EMPTY)
  {
  }

  /** In every reachable session a call that has ended shows the status, result and note of the fact that ended it. */
  lemma {:induction false} CallsAsTold(events: seq<Event>)
    requires R.Replay(EMPTY, events).Ok?
    ensures CallsTold(events, R.Replay(EMPTY, events).value)
  {
    hide *;
    if events == [] {
      NothingCalled();
      ReplayNothing();
    } else {
      var front, e := events[..|events| - 1], events[|events| - 1];
      LastStep(events);
      CallsAsTold(front);
      var s, u := R.Replay(EMPTY, front).value, R.Replay(EMPTY, events).value;
      Runs.ReachableInv(front);
      Runs.ReachableInv(events);
      if MovesCall(e.fact) {
        var k := StepMovesCall(s, e);
        CallsFine(u);
        ToldMoved(events, s, u, k, e);
      } else {
        StepJoins(s, e);
        ToldJoined(events, s, u);
      }
    }
  }

  lemma CallsFine(s: State)
    requires I.Inv(s)
    ensures I.CallsOk(s.calls, s.active)
  {
  }

  lemma ReplayNothing()
    ensures R.Replay(EMPTY, []) == Ok(EMPTY)
  {
  }

  lemma {:induction false} LastStep(events: seq<Event>)
    requires events != [] && R.Replay(EMPTY, events).Ok?
    ensures R.Replay(EMPTY, events[..|events| - 1]).Ok?
    ensures R.Step(R.Replay(EMPTY, events[..|events| - 1]).value, events[|events| - 1]) == R.Replay(EMPTY, events)
    ensures events[|events| - 1].seqNo == |events|
  {
    T.Unfold(EMPTY, events);
    T.SeqNumbers(events);
  }

  // ----- Settings, turns and runs -----

  /** What the last fact that sets the plan mode says. */
  function PlanModeSaid(events: seq<Event>): bool {
    if events == [] then false
    else
      var fact := events[|events| - 1].fact;
      if fact.PlanModeSet? then fact.active else PlanModeSaid(events[..|events| - 1])
  }

  /** Whether a call was approved for the whole session after the last reset. */
  function AlwaysApproved(events: seq<Event>): bool {
    if events == [] then false
    else
      var fact := events[|events| - 1].fact;
      if fact.SessionApprovalReset? then false
      else if fact.ApprovalDecided? && fact.scope.WholeSession? then true
      else AlwaysApproved(events[..|events| - 1])
  }

  /** The turn that was started last, unless it was finished. */
  function TurnUnderWay(events: seq<Event>): Option<string> {
    if events == [] then None
    else
      var fact := events[|events| - 1].fact;
      if fact.TurnStarted? then Some(fact.turn) else if fact.TurnFinished? then None else TurnUnderWay(events[..|events| - 1])
  }

  /** The abandon or interruption that is under way. */
  function IntentUnderWay(events: seq<Event>): Option<Intent> {
    if events == [] then None
    else
      var fact := events[|events| - 1].fact;
      if fact.TurnRecoveryIntent? then Some(Intent(fact.action, fact.reason))
      else if fact.TurnFinished? then None
      else IntentUnderWay(events[..|events| - 1])
  }

  ghost predicate SettingsTold(events: seq<Event>, s: State) {
    && s.planMode == PlanModeSaid(events) && s.approvalAlways == AlwaysApproved(events)
    && s.active == TurnUnderWay(events) && s.intent == IntentUnderWay(events) && s.checkpoint == P.LatestCheckpoint(events)
  }

  /** What one accepted fact does to these fields. */
  ghost predicate SettingsMoved(s: State, u: State, seqNo: nat, fact: Fact) {
    && u.planMode == (if fact.PlanModeSet? then fact.active else s.planMode)
    && u.approvalAlways == (if fact.SessionApprovalReset? then false else s.approvalAlways || (fact.ApprovalDecided? && fact.scope.WholeSession?))
    && u.active == (if fact.TurnStarted? then Some(fact.turn) else if fact.TurnFinished? then None else s.active)
    && u.intent == (if fact.TurnRecoveryIntent? then Some(Intent(fact.action, fact.reason)) else if fact.TurnFinished? then None else s.intent)
    && u.checkpoint == (if fact.CompactionCheckpoint? then Some(Checkpoint(seqNo, fact.throughSeq, fact.summary, fact.replacement)) else s.checkpoint)
  }

  lemma {:induction false} BatchSettings(s: State, seqNo: nat, turn: string, docs: seq<CallDoc>)
    requires R.AddCalls(s, seqNo, turn, docs).Ok?
    ensures var u := R.AddCalls(s, seqNo, turn, docs).value; u == s.(calls := u.calls, callOrder := u.callOrder)
  {
    if docs != [] { BatchSettings(s, seqNo, turn, docs[..|docs| - 1]); }
  }

  lemma CallFactSettings(s: State, seqNo: nat, fact: Fact)
    requires fact.ChangesCalls() && R.HandleCallFact(s, seqNo, fact).Ok?
    ensures SettingsMoved(s, R.HandleCallFact(s, seqNo, fact).value, seqNo, fact)
  {
    if fact.AssistantAccepted? && R.AssistantRefusal(s, fact.claimedTurn, fact.calls).None? { BatchSettings(s, seqNo, s.active.value, fact.calls); }
    hide R.AddCalls, R.AssistantRefusal, R.Resolve;
  }

  lemma FactSettings(s: State, seqNo: nat, fact: Fact)
    requires R.Handle(s, seqNo, fact).Ok?
    ensures SettingsMoved(s, R.Handle(s, seqNo, fact).value, seqNo, fact)
  {
    if fact.ChangesCalls() {
      CallFactSettings(s, seqNo, fact);
      hide R.HandleCallFact, R.HandleGraphFact, R.HandleTurnFact, R.HandleOtherFact;
    } else {
      hide R.HandleCallFact;
    }
  }

  /** In every reachable session the settings, the turn under way, the intent and the checkpoint are as the last facts about them say. */
  lemma {:induction false} SettingsAsTold(events: seq<Event>)
    requires R.Replay(EMPTY, events).Ok?
    ensures SettingsTold(events, R.Replay(EMPTY, events).value)
  {
    hide *;
    if events == [] {
      ReplayNothing();
      NothingSet();
    } else {
      var front, e := events[..|events| - 1], events[|events| - 1];
      LastStep(events);
      SettingsAsTold(front);
      var s, u := R.Replay(EMPTY, front).value, R.Replay(EMPTY, events).value;
      StepHandles(s, e);
      FactSettings(s, e.seqNo, e.fact);
      SettingsNext(events, s, R.Handle(s, e.seqNo, e.fact).value, u);
    }
  }

  lemma NothingSet()
    ensures SettingsTold([], EMPTY)
  {
  }

  lemma SettingsNext(events: seq<Event>, s: State, t: State, u: State)
    requires events != [] && SettingsTold(events[..|events| - 1], s) && u == t.(lastSeq := u.lastSeq)
    requires SettingsMoved(s, t, events[|events| - 1].seqNo, events[|events| - 1].fact)
    ensures SettingsTold(events, u)
  {
  }

  /** A turn that is over ended as its last fact says, and so did a code run. */
  ghost predicate EndsTold(events: seq<Event>, s: State) {
    && (forall t :: t in s.turns && s.turns[t].IsTerminal() ==> exists i :: 0 <= i < |events| && events[i].fact == TurnFinished(t, s.turns[t]))
    && forall r :: r in s.runs && !s.runs[r].status.RunActive? ==> exists i :: 0 <= i < |events| && events[i].fact == CodeRunFinished(r, s.runs[r].status)
  }

  /** Only the end of a turn ends it, and only the end of a run ends that. */
  ghost predicate EndsMoved(s: State, u: State, fact: Fact) {
    && (forall t :: t in u.turns && u.turns[t].IsTerminal() ==> (t in s.turns && u.turns[t] == s.turns[t]) || fact == TurnFinished(t, u.turns[t]))
    && (forall r :: r in u.runs && !u.runs[r].status.RunActive? ==>
          (r in s.runs && u.runs[r].status == s.runs[r].status) || fact == CodeRunFinished(r, u.runs[r].status))
  }

  lemma CallFactEnds(s: State, seqNo: nat, fact: Fact)
    requires fact.ChangesCalls() && R.HandleCallFact(s, seqNo, fact).Ok?
    ensures EndsMoved(s, R.HandleCallFact(s, seqNo, fact).value, fact)
  {
    if fact.AssistantAccepted? && R.AssistantRefusal(s, fact.claimedTurn, fact.calls).None? { BatchSettings(s, seqNo, s.active.value, fact.calls); }
    hide R.AddCalls, R.AssistantRefusal, R.Resolve;
  }

  lemma FactEnds(s: State, seqNo: nat, fact: Fact)
    requires R.Handle(s, seqNo, fact).Ok?
    ensures EndsMoved(s, R.Handle(s, seqNo, fact).value, fact)
  {
    if fact.ChangesCalls() {
      CallFactEnds(s, seqNo, fact);
      hide R.HandleCallFact, R.HandleGraphFact, R.HandleTurnFact, R.HandleOtherFact;
    } else {
      hide R.HandleCallFact;
    }
  }

  /** In every reachable session each turn and each run that is over ended with the status of the fact that ended it. */
  lemma {:induction false} EndsAsTold(events: seq<Event>)
    requires R.Replay(EMPTY, events).Ok?
    ensures EndsTold(events, R.Replay(EMPTY, events).value)
  {
    hide *;
    if events == [] {
      ReplayNothing();
      NothingEnded();
    } else {
      var front, e := events[..|events| - 1], events[|events| - 1];
      LastStep(events);
      EndsAsTold(front);
      var s, u := R.Replay(EMPTY, front).value, R.Replay(EMPTY, events).value;
      StepHandles(s, e);
      FactEnds(s, e.seqNo, e.fact);
      EndsNext(events, s, R.Handle(s, e.seqNo, e.fact).value, u);
    }
  }

  lemma NothingEnded()
    ensures EndsTold([], EMPTY)
  {
  }

  lemma EndsNext(events: seq<Event>, s: State, t: State, u: State)
    requires events != [] && EndsTold(events[..|events| - 1], s) && u == t.(lastSeq := u.lastSeq)
    requires EndsMoved(s, t, events[|events| - 1].fact)
    ensures EndsTold(events, u)
  {
    var front, last := events[..|events| - 1], |events| - 1;
    forall x | x in u.turns && u.turns[x].IsTerminal() ensures exists i :: 0 <= i < |events| && events[i].fact == TurnFinished(x, u.turns[x]) {
      if events[last].fact != TurnFinished(x, u.turns[x]) {
        var i :| 0 <= i < |front| && front[i].fact == TurnFinished(x, s.turns[x]);
        assert events[i].fact == TurnFinished(x, u.turns[x]);
      }
    }
    forall r | r in u.runs && !u.runs[r].status.RunActive?
      ensures exists i :: 0 <= i < |events| && events[i].fact == CodeRunFinished(r, u.runs[r].status)
    {
      if events[last].fact != CodeRunFinished(r, u.runs[r].status) {
        var i :| 0 <= i < |front| && front[i].fact == CodeRunFinished(r, s.runs[r].status);
        assert events[i].fact == CodeRunFinished(r, u.runs[r].status);
      }
    }
  }

  // ----- Where calls and nodes come from -----

  predicate InBatch(docs: seq<CallDoc>, call: ToolCall) { exists i :: 0 <= i < |docs| && docs[i].id == call.providerId && docs[i].name == call.name }

  /** The fact asks for this call. */
  predicate Asks(fact: Fact, call: ToolCall) {
    match fact
    case AssistantAccepted(_, _, docs) => call.origin.FromModel? && InBatch(docs, call)
    case CodeNodePlanned(run, node, ordinal, name, _) =>
      call.key == node && call.name == name && call.origin.FromCode? && call.origin.run == run && call.origin.ordinal == ordinal
    case _ => false
  }

  predicate HasDependencies(fact: Fact, node: CodeNode) {
    fact.CodeNodePlanned? && fact.run == node.run && fact.ordinal == node.ordinal && fact.dependencies == node.dependencies
  }

  /** Each call was asked for by the event with its request number. */
  ghost predicate CallsAsked(events: seq<Event>, s: State) {
    forall k :: k in s.calls ==> 1 <= s.calls[k].requestedSeq <= |events| && Asks(events[s.calls[k].requestedSeq - 1].fact, s.calls[k])
  }

  /** Each node has the place and the dependencies of the fact that planned it. */
  ghost predicate NodesAsked(events: seq<Event>, s: State) {
    forall n :: n in s.nodes ==> exists i :: 0 <= i < |events| && Plans(events[i].fact, n, s.nodes[n])
  }

  predicate Plans(fact: Fact, n: string, node: CodeNode) { HasDependencies(fact, node) && fact.node == n }

  /** New calls and nodes are those of the fact. */
  ghost predicate NewOnes(s: State, u: State, seqNo: nat, fact: Fact) {
    && (forall k :: k in u.calls && k !in s.calls ==> u.calls[k].requestedSeq == seqNo && Asks(fact, u.calls[k]))
    && forall n :: n in u.nodes && n !in s.nodes ==> Plans(fact, n, u.nodes[n])
  }

  ghost predicate BatchAdds(s: State, u: State, seqNo: nat, docs: seq<CallDoc>) {
    forall k :: k in u.calls && k !in s.calls ==> u.calls[k].requestedSeq == seqNo && u.calls[k].origin.FromModel? && InBatch(docs, u.calls[k])
  }

  lemma InMore(docs: seq<CallDoc>, n: nat, call: ToolCall)
    requires n <= |docs| && InBatch(docs[..n], call)
    ensures InBatch(docs, call)
  {
    var i :| 0 <= i < n && docs[..n][i].id == call.providerId && docs[..n][i].name == call.name;
    assert docs[i] == docs[..n][i];
  }

  lemma {:induction false} BatchOrigins(s: State, seqNo: nat, turn: string, docs: seq<CallDoc>)
    requires R.AddCalls(s, seqNo, turn, docs).Ok?
    ensures BatchAdds(s, R.AddCalls(s, seqNo, turn, docs).value, seqNo, docs)
  {
    hide ModelKey;
    if docs != [] {
      var n := |docs| - 1;
      BatchOrigins(s, seqNo, turn, docs[..n]);
      var t, u := R.AddCalls(s, seqNo, turn, docs[..n]).value, R.AddCalls(s, seqNo, turn, docs).value;
      forall k | k in u.calls && k !in s.calls
        ensures u.calls[k].requestedSeq == seqNo && u.calls[k].origin.FromModel? && InBatch(docs, u.calls[k])
      {
        if k in t.calls {
          hide InBatch;
          InMore(docs, n, t.calls[k]);
        } else {
          assert docs[n].id == u.calls[k].providerId;
        }
      }
    }
  }

  lemma BatchIsNew(s: State, seqNo: nat, fact: Fact)
    requires fact.AssistantAccepted? && R.HandleCallFact(s, seqNo, fact).Ok?
    ensures NewOnes(s, R.HandleCallFact(s, seqNo, fact).value, seqNo, fact)
  {
    BatchOrigins(s, seqNo, s.active.value, fact.calls);
    BatchSettings(s, seqNo, s.active.value, fact.calls);
    hide R.AddCalls, R.AssistantRefusal, InBatch;
  }

  lemma MovingIsNothingNew(s: State, seqNo: nat, fact: Fact)
    requires I.CallsOk(s.calls, s.active) && MovesCall(fact) && R.HandleCallFact(s, seqNo, fact).Ok?
    ensures R.HandleCallFact(s, seqNo, fact).value.calls.Keys <= s.calls.Keys && R.HandleCallFact(s, seqNo, fact).value.nodes.Keys <= s.nodes.Keys
  {
    hide R.ApplyAssistant;
    if R.Resolve(s, fact.call).Ok? { Resolved(s, fact.call); }
    hide R.Resolve, IsAbout, I.CallsOk;
  }

  lemma OtherNewOnes(s: State, seqNo: nat, fact: Fact)
    requires !fact.ChangesCalls() && R.Handle(s, seqNo, fact).Ok?
    ensures NewOnes(s, R.Handle(s, seqNo, fact).value, seqNo, fact)
  {
    hide R.HandleCallFact;
  }

  lemma FactNewOnes(s: State, seqNo: nat, fact: Fact)
    requires I.Inv(s) && R.Handle(s, seqNo, fact).Ok?
    ensures NewOnes(s, R.Handle(s, seqNo, fact).value, seqNo, fact)
  {
    assert I.CallsOk(s.calls, s.active);
    if !fact.ChangesCalls() {
      OtherNewOnes(s, seqNo, fact);
    } else if fact.AssistantAccepted? {
      BatchIsNew(s, seqNo, fact);
    } else {
      MovingIsNothingNew(s, seqNo, fact);
    }
    hide I.Inv, R.HandleCallFact, R.HandleGraphFact, R.HandleTurnFact, R.HandleOtherFact, Asks, HasDependencies;
  }

  /** In every reachable session each call and node is as the fact that asked for it says. */
  lemma {:induction false} OriginsAsTold(events: seq<Event>)
    requires R.Replay(EMPTY, events).Ok?
    ensures CallsAsked(events, R.Replay(EMPTY, events).value) && NodesAsked(events, R.Replay(EMPTY, events).value)
  {
    hide *;
    if events == [] {
      ReplayNothing();
      NothingAsked();
    } else {
      var front, e := events[..|events| - 1], events[|events| - 1];
      LastStep(events);
      OriginsAsTold(front);
      var s, u := R.Replay(EMPTY, front).value, R.Replay(EMPTY, events).value;
      Runs.ReachableInv(front);
      StepHandles(s, e);
      FactNewOnes(s, e.seqNo, e.fact);
      Runs.StepAdvances(s, e);
      NewToo(s, R.Handle(s, e.seqNo, e.fact).value, u, e);
      CallsNext(events, s, u);
      NodesNext(events, s, u);
    }
  }

  lemma NothingAsked()
    ensures CallsAsked([], EMPTY) && NodesAsked([], EMPTY)
  {
  }

  lemma NewToo(s: State, t: State, u: State, e: Event)
    requires NewOnes(s, t, e.seqNo, e.fact) && u == t.(lastSeq := u.lastSeq) && Runs.Forward(s, u)
    ensures NewOnes(s, u, e.seqNo, e.fact) && Runs.CallsForward(s.calls, u.calls, s.lastSeq) && Runs.NodesFixed(s.nodes, u.nodes)
  {
    hide Asks, Plans, Runs.CallsForward, Runs.RunsForward, Runs.NodesFixed;
  }

  lemma SameAsked(fact: Fact, a: ToolCall, b: ToolCall)
    requires Asks(fact, a) && I.SameIdentity(a, b)
    ensures Asks(fact, b)
  {
  }

  lemma CallsNext(events: seq<Event>, s: State, u: State)
    requires events != [] && CallsAsked(events[..|events| - 1], s) && Runs.CallsForward(s.calls, u.calls, s.lastSeq)
    requires NewOnes(s, u, |events|, events[|events| - 1].fact)
    ensures CallsAsked(events, u)
  {
    hide Asks, Plans, InBatch;
    forall k | k in u.calls ensures 1 <= u.calls[k].requestedSeq <= |events| && Asks(events[u.calls[k].requestedSeq - 1].fact, u.calls[k]) {
      if k in s.calls {
        assert Runs.CallForward(s.calls[k], u.calls[k], s.lastSeq);
        assert events[..|events| - 1][s.calls[k].requestedSeq - 1] == events[s.calls[k].requestedSeq - 1];
        SameAsked(events[s.calls[k].requestedSeq - 1].fact, s.calls[k], u.calls[k]);
      }
    }
  }

  lemma NodesNext(events: seq<Event>, s: State, u: State)
    requires events != [] && NodesAsked(events[..|events| - 1], s) && Runs.NodesFixed(s.nodes, u.nodes)
    requires NewOnes(s, u, |events|, events[|events| - 1].fact)
    ensures NodesAsked(events, u)
  {
    hide Asks;
    var front := events[..|events| - 1];
    forall n | n in u.nodes ensures exists i :: 0 <= i < |events| && Plans(events[i].fact, n, u.nodes[n]) {
      if n in s.nodes {
        var i :| 0 <= i < |front| && Plans(front[i].fact, n, s.nodes[n]);
        assert Plans(events[i].fact, n, u.nodes[n]);
      } else {
        assert Plans(events[|events| - 1].fact, n, u.nodes[n]);
      }
    }
  }
}
