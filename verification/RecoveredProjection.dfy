/**
 After recovery the session can go on: the log with the facts of recovery projects, unless an outcome is left to the
 user, or recovery gave up a call of Code Mode, whose verdict it writes without the tag.
 */
module RecoveredProjection {
  import opened Domain
  import opened Recovery
  import R = Reducer
  import I = ReducerInvariant
  import Runs = ReducerRuns
  import Steps = RecoverySteps
  import T = RecoveryTheorem
  import A = AbandonedTurn
  import P = Projection
  import S = ProjectionSteps
  import PT = ProjectionTheorem
  import PC = ProjectionConverse

  /** Recovery will give up the unknown outcome of a code call. */
  ghost predicate GivesUpCode(s: State) {
    s.intent.Some? && s.intent.value.action.Abandon?
    && exists k :: k in s.calls && s.calls[k].status.OutcomeUnknown? && s.calls[k].origin.FromCode?
  }

  // ----- What the facts of recovery leave alone -----

  predicate IsRecoveryFact(fact: Fact) {
    fact.ToolFinished? || fact.ToolReconciled? || fact.CodeRunFinished? || fact.TurnFinished?
    || (fact.TurnRecoveryIntent? && fact.action.RecoverInterrupted?)
  }

  lemma {:induction false} ClosingsFinish(calls: Calls, ids: seq<string>, codeNodes: bool)
    ensures forall i :: 0 <= i < |Closings(calls, ids, codeNodes)| ==> Closings(calls, ids, codeNodes)[i].ToolFinished?
  {
    if ids != [] { ClosingsFinish(calls, ids[1..], codeNodes); }
  }

  lemma {:induction false} AbandonsReconcile(calls: Calls, active: Option<string>, ids: seq<string>, note: string)
    ensures forall i :: 0 <= i < |Abandons(calls, active, ids, note)| ==> Abandons(calls, active, ids, note)[i].ToolReconciled?
  {
    if ids != [] { AbandonsReconcile(calls, active, ids[1..], note); }
  }

  lemma RunFact(s: State, r: string)
    requires r in s.runs && RunWork(s, r) != []
    ensures IsRecoveryFact(RunWork(s, r)[0])
  {
    ClosingsFinish(s.calls, s.runs[r].nodeIds, true);
    hide Closings;
  }

  lemma NextIsRecoveryFact(s: State)
    requires NextFact(s).Some?
    ensures IsRecoveryFact(NextFact(s).value)
  {
    ClosingsFinish(s.calls, s.callOrder, false);
    if s.intent.Some? { AbandonsReconcile(s.calls, s.active, s.callOrder, s.intent.value.reason); }
    T.FirstBusyAnswer(s, 0);
    if FirstBusy(s, 0).Some? { RunFact(s, FirstBusy(s, 0).value); }
    hide Closings, Abandons, RunWork, FirstBusy, OnlyRequested, INTERRUPTED;
  }

  /** No call and no run is new, and no abandon is announced. */
  ghost predicate Closes(s: State, u: State) {
    && u.calls.Keys <= s.calls.Keys
    && (forall r :: r in u.runs ==> r in s.runs && u.runs[r].parent == s.runs[r].parent)
    && (u.intent == s.intent || u.intent.None? || u.intent.value.action.RecoverInterrupted?)
  }

  lemma CallFactCloses(s: State, seqNo: nat, fact: Fact)
    requires (fact.ToolFinished? || fact.ToolReconciled?) && R.HandleCallFact(s, seqNo, fact).Ok?
    ensures Closes(s, R.HandleCallFact(s, seqNo, fact).value)
  {
    hide R.ApplyAssistant, R.ApplyApproval, R.ApplyToolStarted;
  }

  lemma OtherFactCloses(s: State, seqNo: nat, fact: Fact)
    requires IsRecoveryFact(fact) && R.Handle(s, seqNo, fact).Ok?
    ensures Closes(s, R.Handle(s, seqNo, fact).value)
  {
    if fact.ToolFinished? || fact.ToolReconciled? {
      CallFactCloses(s, seqNo, fact);
    }
    hide R.HandleCallFact, R.HandleOtherFact, R.ApplyNodePlanned, R.ApplyRunStarted;
  }

  lemma RecoveryCloses(s: State, fact: Fact)
    requires IsRecoveryFact(fact) && Append(s, fact).Ok?
    ensures Closes(s, Append(s, fact).value)
  {
    hide *;
    AppendHandles(s, fact);
    OtherFactCloses(s, s.lastSeq + 1, fact);
    var t := R.Handle(s, s.lastSeq + 1, fact).value;
    SameCloses(s, t, Append(s, fact).value);
  }

  lemma AppendHandles(s: State, fact: Fact)
    requires Append(s, fact).Ok?
    ensures R.Handle(s, s.lastSeq + 1, fact).Ok?
    ensures Append(s, fact).value == R.Handle(s, s.lastSeq + 1, fact).value.(lastSeq := s.lastSeq + 1)
  {
    hide R.Handle;
  }

  lemma SameCloses(s: State, t: State, u: State)
    requires Closes(s, t) && u == t.(lastSeq := u.lastSeq)
    ensures Closes(s, u)
  {
  }

  lemma AppendForward(s: State, fact: Fact)
    requires I.Inv(s) && Append(s, fact).Ok?
    ensures Runs.CallsForward(s.calls, Append(s, fact).value.calls, s.lastSeq)
  {
    hide *;
    AppendIsStep(s, fact);
    Runs.StepAdvances(s, Event(s.lastSeq + 1, fact));
    ForwardCalls(s, Append(s, fact).value);
  }

  lemma AppendIsStep(s: State, fact: Fact)
    ensures Append(s, fact) == R.Step(s, Event(s.lastSeq + 1, fact))
  {
    hide R.Step;
  }

  lemma ForwardCalls(s: State, u: State)
    requires Runs.Forward(s, u)
    ensures Runs.CallsForward(s.calls, u.calls, s.lastSeq)
  {
    hide Runs.CallsForward;
  }

  // ----- One fact more -----

  /** The call that recovery gives up first, and that the verdict is right exactly for a call of the model. */
  lemma GivenUpFirst(s: State, note: string) returns (k: string)
    requires I.Inv(s) && Abandons(s.calls, s.active, s.callOrder, note) != []
    ensures k in s.calls && s.calls[k].status.OutcomeUnknown?
    ensures var fact := Abandons(s.calls, s.active, s.callOrder, note)[0];
            fact == ToolReconciled(Named(s.calls[k]), GiveUp, note, false) && (S.FactOk(s, fact) <==> s.calls[k].origin.FromModel?)
  {
    hide *;
    CallsListed(s);
    k := Steps.FirstAbandon(s.calls, s.active, s.callOrder, note);
    Unsettles(s.calls[k].status);
    Steps.ResolveNamed(s, k);
    VerdictRight(s, k, note);
  }

  lemma CallsListed(s: State)
    requires I.Inv(s)
    ensures Distinct(s.callOrder) && I.CallsOk(s.calls, s.active)
  {
    assert I.ListsExactly(s.callOrder, s.calls.Keys);
    hide I.CallsOk;
  }

  lemma Unsettles(status: ToolStatus)
    requires status.OutcomeUnknown?
    ensures status.IsUnsettled()
  {
  }

  /** A verdict without a tag is right for a call of the model. */
  lemma VerdictRight(s: State, k: string, note: string)
    requires k in s.calls && R.Resolve(s, Named(s.calls[k])) == Ok(k)
    ensures S.FactOk(s, ToolReconciled(Named(s.calls[k]), GiveUp, note, false)) <==> s.calls[k].origin.FromModel?
  {
    hide R.Resolve;
  }

  /** What the facts of recovery start from and keep. */
  ghost predicate Recovering(s: State) {
    I.Inv(s) && s.created && Harmless(s) && T.ModelParents(s)
  }

  lemma NextStep(s: State, fact: Fact)
    requires Recovering(s) && NextFact(s) == Some(fact) && Append(s, fact).Ok?
    ensures Recovering(Append(s, fact).value)
  {
    hide *;
    Parts(s);
    T.HarmlessStep(s, fact);
    NextIsRecoveryFact(s);
    RecoveryCloses(s, fact);
    AppendForward(s, fact);
    ParentsStay(s, Append(s, fact).value);
    ItRecovers(Append(s, fact).value);
  }

  lemma Parts(s: State)
    requires Recovering(s)
    ensures I.Inv(s) && s.created && Harmless(s) && T.ModelParents(s)
  {
    hide I.Inv, Harmless, T.ModelParents;
  }

  lemma ItRecovers(s: State)
    requires I.Inv(s) && s.created && Harmless(s) && T.ModelParents(s)
    ensures Recovering(s)
  {
    hide I.Inv, Harmless, T.ModelParents;
  }

  lemma ParentsStay(s: State, u: State)
    requires T.ModelParents(s) && Closes(s, u) && Runs.CallsForward(s.calls, u.calls, s.lastSeq)
    ensures T.ModelParents(u)
  {
  }

  /** Which fact is next while an abandon is pending. */
  lemma NextAbandon(s: State)
    requires I.Inv(s) && s.intent.Some? && s.intent.value.action.Abandon?
    ensures var closing := Abandons(s.calls, s.active, s.callOrder, s.intent.value.reason);
            s.active.Some? && NextFact(s) == Some(if closing != [] then closing[0] else TurnFinished(s.active.value, TurnAbandoned))
  {
    assert I.IntentOk(s.intent, s.calls, s.active);
    hide I.Inv, Abandons;
  }

  lemma SafeFactRight(s: State, fact: Fact)
    requires Recovering(s) && !GivesUpCode(s) && NextFact(s) == Some(fact)
    ensures S.FactOk(s, fact)
  {
    hide NextFact, I.Inv, Harmless, S.FactOk, Abandons;
    T.RecoveryTagsRight(s);
    if fact.ToolReconciled? {
      OnlyAbandonsReconcile(s);
      NextAbandon(s);
      var k := GivenUpFirst(s, s.intent.value.reason);
    }
  }

  /** Only a pending abandon makes recovery give a verdict. */
  lemma OnlyAbandonsReconcile(s: State)
    requires NextFact(s).Some? && NextFact(s).value.ToolReconciled?
    ensures s.intent.Some? && s.intent.value.action.Abandon?
    ensures s.active.Some? && Abandons(s.calls, s.active, s.callOrder, s.intent.value.reason) != []
  {
    ClosingsFinish(s.calls, s.callOrder, false);
    T.FirstBusyAnswer(s, 0);
    if FirstBusy(s, 0).Some? { RunVerdictFree(s, FirstBusy(s, 0).value); }
    hide Closings, Abandons, RunWork, FirstBusy, OnlyRequested, INTERRUPTED;
  }

  lemma RunVerdictFree(s: State, r: string)
    requires r in s.runs && RunWork(s, r) != []
    ensures !RunWork(s, r)[0].ToolReconciled?
  {
    ClosingsFinish(s.calls, s.runs[r].nodeIds, true);
    hide Closings;
  }

  lemma StaysSafe(s: State, fact: Fact)
    requires Recovering(s) && !GivesUpCode(s) && NextFact(s) == Some(fact) && Append(s, fact).Ok?
    ensures !GivesUpCode(Append(s, fact).value)
  {
    hide *;
    Parts(s);
    NextIsRecoveryFact(s);
    RecoveryCloses(s, fact);
    AppendForward(s, fact);
    NoneBecomesUnknown(s, Append(s, fact).value);
  }

  /** While an abandon is pending and nothing is open, no outcome becomes unknown. */
  lemma NoneBecomesUnknown(s: State, u: State)
    requires Harmless(s) && !GivesUpCode(s) && Closes(s, u) && Runs.CallsForward(s.calls, u.calls, s.lastSeq)
    ensures !GivesUpCode(u)
  {
  }

  /** While facts are right, the code call that is to be given up waits. */
  lemma StaysUnsafe(s: State, fact: Fact)
    requires Recovering(s) && GivesUpCode(s) && NextFact(s) == Some(fact) && S.FactOk(s, fact)
    ensures Append(s, fact).Ok? && GivesUpCode(Append(s, fact).value)
  {
    hide NextFact, Harmless, S.FactOk, Abandons, Append;
    var note := s.intent.value.reason;
    NextAbandon(s);
    SomethingGivenUp(s, note);
    var k := GivenUpFirst(s, note);
    Steps.ReconcileEffect(s, k, note);
    hide I.Inv;
    var c :| c in s.calls && s.calls[c].status.OutcomeUnknown? && s.calls[c].origin.FromCode?;
    assert c != k;
  }

  lemma SomethingGivenUp(s: State, note: string)
    requires I.Inv(s) && GivesUpCode(s)
    ensures Abandons(s.calls, s.active, s.callOrder, note) != []
  {
    assert I.CallsOk(s.calls, s.active) && I.ListsExactly(s.callOrder, s.calls.Keys);
    hide I.Inv;
    Steps.AbandonsEmpty(s.calls, s.active, s.callOrder, note);
  }

  // ----- The whole recovery -----

  /** The log after recovery. */
  function Recovered(events: seq<Event>, s: State, facts: seq<Fact>): seq<Event> { events + A.EventsOf(s.lastSeq, facts) }

  lemma RecoveredReplays(events: seq<Event>, s: State, facts: seq<Fact>)
    requires R.Replay(EMPTY, events) == Ok(s) && AppendAll(s, facts).Ok?
    ensures R.Replay(EMPTY, Recovered(events, s, facts)) == AppendAll(s, facts)
    ensures I.Inv(AppendAll(s, facts).value)
  {
    hide R.Replay, AppendAll, I.Inv;
    Runs.ReachableInv(events);
    A.AppendsReplay(s, facts);
    R.ReplayConcat(EMPTY, events, A.EventsOf(s.lastSeq, facts));
    Runs.ReachableInv(Recovered(events, s, facts));
  }

  lemma RecoveredFront(events: seq<Event>, s: State, facts: seq<Fact>)
    requires facts != []
    ensures var log, front := Recovered(events, s, facts), Recovered(events, s, facts[..|facts| - 1]);
            log != [] && log[..|log| - 1] == front && log[|log| - 1].fact == facts[|facts| - 1]
  {
  }

  /** What holds on the way of a recovery of a right log. */
  lemma {:induction false} OnTheWay(events: seq<Event>, s: State, facts: seq<Fact>)
    requires R.Replay(EMPTY, events) == Ok(s) && PT.FactsOk(events) && Recovering(s) && Chain(s, facts) && AppendAll(s, facts).Ok?
    ensures Recovering(AppendAll(s, facts).value)
    ensures !GivesUpCode(s) ==> PT.FactsOk(Recovered(events, s, facts)) && !GivesUpCode(AppendAll(s, facts).value)
    ensures GivesUpCode(s) ==> !PT.FactsOk(Recovered(events, s, facts)) || GivesUpCode(AppendAll(s, facts).value)
    ensures P.LatestCheckpoint(Recovered(events, s, facts)) == P.LatestCheckpoint(events)
  {
    hide *;
    if facts == [] {
      NothingAppended(events, s);
    } else {
      var front := facts[..|facts| - 1];
      ChainFront(s, facts);
      OnTheWay(events, s, front);
      RecoveredReplays(events, s, facts);
      RecoveredReplays(events, s, front);
      RecoveredFront(events, s, facts);
      OneMore(Recovered(events, s, facts), AppendAll(s, front).value, facts[|facts| - 1]);
    }
  }

  lemma NothingAppended(events: seq<Event>, s: State)
    ensures AppendAll(s, []) == Ok(s) && Recovered(events, s, []) == events
  {
  }

  lemma ChainFront(s: State, facts: seq<Fact>)
    requires facts != [] && Chain(s, facts)
    ensures Chain(s, facts[..|facts| - 1]) && AppendAll(s, facts[..|facts| - 1]).Ok?
    ensures var t := AppendAll(s, facts[..|facts| - 1]).value;
            NextFact(t) == Some(facts[|facts| - 1]) && AppendAll(s, facts) == Append(t, facts[|facts| - 1]) && Append(t, facts[|facts| - 1]).Ok?
  {
    hide NextFact, Append;
  }

  lemma OneMore(log: seq<Event>, t: State, fact: Fact)
    requires log != [] && log[|log| - 1].fact == fact && R.Replay(EMPTY, log).Ok?
    requires R.Replay(EMPTY, log[..|log| - 1]) == Ok(t) && Append(t, fact) == R.Replay(EMPTY, log)
    requires Recovering(t) && NextFact(t) == Some(fact)
    ensures Recovering(Append(t, fact).value)
    ensures PT.FactsOk(log[..|log| - 1]) && !GivesUpCode(t) ==> PT.FactsOk(log) && !GivesUpCode(Append(t, fact).value)
    ensures PT.FactsOk(log) ==> PT.FactsOk(log[..|log| - 1]) && (GivesUpCode(t) ==> GivesUpCode(Append(t, fact).value))
    ensures P.LatestCheckpoint(log) == P.LatestCheckpoint(log[..|log| - 1])
  {
    hide *;
    NextStep(t, fact);
    if PT.FactsOk(log[..|log| - 1]) && !GivesUpCode(t) {
      SafeFactRight(t, fact);
      StaysSafe(t, fact);
      PC.FactsOkExtend(log);
    }
    if PT.FactsOk(log) {
      PT.FactsOkPrefix(log, |log| - 1);
      LastIsRight(log);
      if GivesUpCode(t) { StaysUnsafe(t, fact); }
    }
    NextIsRecoveryFact(t);
    SameCheckpoint(log);
  }

  lemma LastIsRight(log: seq<Event>)
    requires log != [] && PT.FactsOk(log) && R.Replay(EMPTY, log[..|log| - 1]).Ok?
    ensures S.FactOk(R.Replay(EMPTY, log[..|log| - 1]).value, log[|log| - 1].fact)
  {
    hide R.Replay, S.FactOk;
  }

  lemma SameCheckpoint(log: seq<Event>)
    requires log != [] && IsRecoveryFact(log[|log| - 1].fact)
    ensures P.LatestCheckpoint(log) == P.LatestCheckpoint(log[..|log| - 1])
  {
  }

  lemma NothingToGiveUp(t: State)
    requires I.Inv(t) && NextFact(t).None?
    ensures !GivesUpCode(t) && t.intent.None? && (!t.blocked ==> P.Settled(t)) && (t.blocked <==> R.Unknowns(t))
  {
    T.NothingLeft(t);
    assert I.BlockOk(t.blocked, t.calls, t.active, t.turns);
    hide I.Inv, NextFact;
  }

  lemma EndOf(s: State, facts: seq<Fact>)
    requires Complete(s, facts)
    ensures Chain(s, facts) && AppendAll(s, facts).Ok? && NextFact(AppendAll(s, facts).value).None?
  {
    hide Chain, AppendAll, NextFact;
  }

  lemma RightToTheCut(events: seq<Event>, log: seq<Event>)
    requires PT.FactsOk(events) && events <= log && P.LatestCheckpoint(log) == P.LatestCheckpoint(events)
    requires R.Replay(EMPTY, events).Ok? && 0 <= PC.Through(log) <= |log|
    ensures PC.AllShow(log[..PC.Through(log)])
  {
    PT.CutHolds(events);
    hide R.Replay, PT.FactsOk, P.LatestCheckpoint;
    PT.FactsOkPrefix(events, PC.Through(events));
    assert log[..PC.Through(log)] == events[..PC.Through(events)];
    PC.RightShows(log[..PC.Through(log)]);
  }

  /**
   When a rightly tagged session is recovered, its log is refused as blocked while an outcome waits for the user; and
   otherwise it projects exactly when recovery gave up no code call.
   */
  lemma RecoveredProjects(events: seq<Event>, s: State, facts: seq<Fact>, system: string)
    requires R.Replay(EMPTY, events) == Ok(s) && PT.FactsOk(events)
    requires s.created && Harmless(s) && T.ModelParents(s) && Complete(s, facts)
    ensures AppendAll(s, facts).Ok?
    ensures var t, log := AppendAll(s, facts).value, Recovered(events, s, facts);
            R.Replay(EMPTY, log) == Ok(t)
            && if t.blocked then P.Project(log, t, system) == Err(P.Blocked) else P.Project(log, t, system).Ok? <==> !GivesUpCode(s)
  {
    Runs.ReachableInv(events);
    hide *;
    EndOf(s, facts);
    ItRecovers(s);
    OnTheWay(events, s, facts);
    RecoveredReplays(events, s, facts);
    var t, log := AppendAll(s, facts).value, Recovered(events, s, facts);
    NothingToGiveUp(t);
    if t.blocked {
      BlockedIsRefused(log, t, system);
    } else {
      BeginsWith(events, s, facts);
      if 0 <= PC.Through(log) <= |log| { RightToTheCut(events, log); }
      PC.ProjectionExact(log, t, system);
    }
  }

  lemma BeginsWith(events: seq<Event>, s: State, facts: seq<Fact>)
    ensures events <= Recovered(events, s, facts)
  {
  }

  lemma BlockedIsRefused(log: seq<Event>, t: State, system: string)
    requires R.Replay(EMPTY, log) == Ok(t) && t.blocked
    ensures P.Project(log, t, system) == Err(P.Blocked)
  {
    hide R.Replay, P.FoldEvents;
  }
}
