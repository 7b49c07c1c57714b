/**
 Each fact that recovery owes is accepted, and leaves exactly the rest of the work.
 */
module RecoverySteps {
  import opened Domain
  import opened Recovery
  import R = Reducer
  import I = ReducerInvariant
  import Runs = ReducerRuns

  /** Only call `k` changed, and it is closed now. */
  ghost predicate ClosedOne(s: State, u: State, k: string) {
    && k in s.calls && k in u.calls && u.calls == s.calls[k := u.calls[k]]
    && I.SameIdentity(s.calls[k], u.calls[k]) && u.calls[k].status.IsTerminal()
    && (s.calls[k].status.Started? && u.calls[k].status != Failed ==> u.calls[k].status.OutcomeUnknown?)
    && (s.calls[k].status.Requested? ==> u.calls[k].status.NotExecuted?)
    && u.active == s.active && u.intent == s.intent && u.runs == s.runs && u.runOrder == s.runOrder && u.callOrder == s.callOrder
    && u.lastSeq == s.lastSeq + 1
  }

  lemma ResolveNamed(s: State, k: string)
    requires I.CallsOk(s.calls, s.active) && k in s.calls && s.calls[k].status.IsUnsettled()
    ensures R.Resolve(s, Named(s.calls[k])) == Ok(k)
  {
  }

  lemma AppendCallFact(s: State, fact: Fact)
    requires s.created && fact.ChangesCalls()
    ensures Append(s, fact) == match R.HandleCallFact(s, s.lastSeq + 1, fact)
                               case Err(x) => Err(x)
                               case Ok(t) => Ok(t.(lastSeq := s.lastSeq + 1))
  {
    hide R.HandleCallFact;
  }

  lemma FinishEffect(s: State, k: string, fact: Fact)
    requires I.Inv(s) && s.created && k in s.calls && fact.ToolFinished? && fact.call == Named(s.calls[k])
    requires s.calls[k].status.MayFinishAs(fact.status) && fact.blocked == fact.status.OutcomeUnknown?
    requires s.intent.None? || (s.intent.value.action.RecoverInterrupted? && fact.status.NotExecuted?)
    requires s.calls[k].status.Requested? ==> fact.status.NotExecuted?
    requires s.calls[k].status.Started? ==> fact.status.OutcomeUnknown? || fact.status.Failed?
    ensures Append(s, fact).Ok? && I.Inv(Append(s, fact).value) && ClosedOne(s, Append(s, fact).value, k)
    ensures Append(s, fact).value.created
  {
    assert I.CallsOk(s.calls, s.active);
    ResolveNamed(s, k);
    AppendCallFact(s, fact);
    FinishEffectCall(s, k, fact);
    hide R.HandleCallFact, R.Handle, I.Inv, ClosedOne;
    Runs.StepKeeps(s, Event(s.lastSeq + 1, fact));
  }

  lemma FinishEffectCall(s: State, k: string, fact: Fact)
    requires k in s.calls && fact.ToolFinished? && R.Resolve(s, fact.call) == Ok(k)
    requires s.calls[k].status.MayFinishAs(fact.status) && fact.blocked == fact.status.OutcomeUnknown?
    requires s.intent.None? || (s.intent.value.action.RecoverInterrupted? && fact.status.NotExecuted?)
    requires s.calls[k].status.Requested? ==> fact.status.NotExecuted?
    requires s.calls[k].status.Started? ==> fact.status.OutcomeUnknown? || fact.status.Failed?
    ensures var a := R.HandleCallFact(s, s.lastSeq + 1, fact);
            a.Ok? && ClosedOne(s, a.value.(lastSeq := s.lastSeq + 1), k) && a.value.created == s.created
  {
    hide R.Resolve;
  }

  lemma CloseEffect(s: State, k: string, codeNode: bool)
    requires I.Inv(s) && s.created && k in s.calls && s.calls[k].status.IsOpen()
    requires s.intent.None? || (s.intent.value.action.RecoverInterrupted? && s.calls[k].status.Requested?)
    ensures var a := Append(s, CloseCall(s.calls[k], codeNode));
            a.Ok? && I.Inv(a.value) && ClosedOne(s, a.value, k) && a.value.created && a.value.calls[k].status != Failed
  {
    assert I.CallsOk(s.calls, s.active);
    hide I.Inv, Append;
    FinishEffect(s, k, CloseCall(s.calls[k], codeNode));
    if s.calls[k].status.Started? {
      UnknownEffect(s, k, CloseCall(s.calls[k], codeNode));
    }
  }

  lemma UnknownEffect(s: State, k: string, fact: Fact)
    requires I.CallsOk(s.calls, s.active) && s.created && k in s.calls && s.calls[k].status.Started?
    requires fact.ToolFinished? && fact.call == Named(s.calls[k]) && fact.status.OutcomeUnknown?
    ensures Append(s, fact).Ok? ==> k in Append(s, fact).value.calls && Append(s, fact).value.calls[k].status.OutcomeUnknown?
  {
    ResolveNamed(s, k);
    AppendCallFact(s, fact);
    hide R.Resolve, Append;
  }

  lemma ReconcileEffect(s: State, k: string, note: string)
    requires I.Inv(s) && s.created && k in s.calls && s.calls[k].status.OutcomeUnknown?
    requires s.intent.Some? && s.intent.value.action.Abandon?
    ensures var a := Append(s, ToolReconciled(Named(s.calls[k]), GiveUp, note, false));
            a.Ok? && I.Inv(a.value) && ClosedOne(s, a.value, k) && a.value.calls[k].status == Abandoned && a.value.created
  {
    assert I.CallsOk(s.calls, s.active);
    ResolveNamed(s, k);
    var fact := ToolReconciled(Named(s.calls[k]), GiveUp, note, false);
    AppendCallFact(s, fact);
    ReconcileEffectCall(s, k, fact);
    hide R.HandleCallFact, R.Handle, I.Inv, ClosedOne;
    Runs.StepKeeps(s, Event(s.lastSeq + 1, fact));
  }

  lemma ReconcileEffectCall(s: State, k: string, fact: Fact)
    requires k in s.calls && fact.ToolReconciled? && R.Resolve(s, fact.call) == Ok(k) && fact.outcome.GiveUp?
    requires s.calls[k].status.OutcomeUnknown? && s.intent.Some? && s.intent.value.action.Abandon?
    ensures var a := R.HandleCallFact(s, s.lastSeq + 1, fact);
            a.Ok? && ClosedOne(s, a.value.(lastSeq := s.lastSeq + 1), k) && a.value.calls[k].status == Abandoned
            && a.value.created == s.created
  {
    hide R.Resolve;
  }

  lemma NoOpenNode(s: State, r: string)
    requires I.MirrorOk(s.calls, s.nodes) && r in s.runs && Closings(s.calls, s.runs[r].nodeIds, true) == []
    ensures R.NodesTerminal(s, s.runs[r])
  {
    ClosingsEmpty(s.calls, s.runs[r].nodeIds, true);
  }

  lemma RunFinishHandled(s: State, r: string)
    requires r in s.runs && s.runs[r].status.RunActive? && R.NodesTerminal(s, s.runs[r]) && s.created
    ensures Append(s, CodeRunFinished(r, RunFailed))
         == Ok(s.(runs := s.runs[r := s.runs[r].(status := RunFailed)], lastSeq := s.lastSeq + 1))
  {
    hide R.HandleCallFact, R.HandleTurnFact, R.HandleOtherFact, R.NodesTerminal, R.ApplyNodePlanned, R.ApplyRunStarted;
  }

  lemma RunFinishEffect(s: State, r: string)
    requires I.Inv(s) && s.created && r in s.runs && s.runs[r].status.RunActive?
    requires Closings(s.calls, s.runs[r].nodeIds, true) == []
    ensures var a := Append(s, CodeRunFinished(r, RunFailed));
            a.Ok? && I.Inv(a.value)
            && a.value == s.(runs := s.runs[r := s.runs[r].(status := RunFailed)], lastSeq := s.lastSeq + 1)
  {
    assert I.MirrorOk(s.calls, s.nodes);
    NoOpenNode(s, r);
    RunFinishHandled(s, r);
    hide I.Inv, R.NodesTerminal, Closings, R.Handle;
    Runs.StepKeeps(s, Event(s.lastSeq + 1, CodeRunFinished(r, RunFailed)));
  }

  lemma IntentHandled(s: State, reason: string)
    requires I.CallsOk(s.calls, s.active) && OnlyRequested(s) && s.intent.None?
    ensures s.active.Some?
    ensures R.HandleTurnFact(s, TurnRecoveryIntent(s.active.value, RecoverInterrupted, reason)) == Ok(s.(intent := Some(Intent(RecoverInterrupted, reason))))
  {
    var k :| k in s.calls && s.calls[k].status == Requested;
    assert R.CallWith(s, s.active.value, Requested);
  }

  lemma IntentEffect(s: State)
    requires I.Inv(s) && s.created && OnlyRequested(s) && s.intent.None?
    ensures var a := Append(s, TurnRecoveryIntent(s.active.value, RecoverInterrupted, INTERRUPTED));
            a.Ok? && I.Inv(a.value)
            && a.value == s.(intent := Some(Intent(RecoverInterrupted, INTERRUPTED)), lastSeq := s.lastSeq + 1)
  {
    hide INTERRUPTED;
    var fact := TurnRecoveryIntent(s.active.value, RecoverInterrupted, INTERRUPTED);
    assert I.CallsOk(s.calls, s.active);
    IntentHandled(s, INTERRUPTED);
    hide R.HandleCallFact, R.HandleGraphFact, R.HandleTurnFact, R.HandleOtherFact, I.Inv, OnlyRequested;
    Runs.StepKeeps(s, Event(s.lastSeq + 1, fact));
  }

  function FinishFact(s: State): Fact
    requires s.active.Some? && s.intent.Some?
  {
    TurnFinished(s.active.value, if s.intent.value.action.RecoverInterrupted? then TurnInterrupted else TurnAbandoned)
  }

  lemma TurnFinishEffect(s: State)
    requires I.Inv(s) && s.created && s.active.Some? && s.intent.Some? && !s.blocked
    ensures var a := Append(s, FinishFact(s));
            if R.OpenCallIn(s, s.active.value) then a.Err?
            else a.Ok? && I.Inv(a.value)
                 && a.value == s.(turns := a.value.turns, active := None, blocked := false, intent := None, lastSeq := s.lastSeq + 1)
  {
    var fact := FinishFact(s);
    assert R.HandleTurnFact(s, fact) == if R.OpenCallIn(s, s.active.value) then Err(UnresolvedCalls)
      else Ok(s.(turns := s.turns[s.active.value := fact.turnStatus], active := None, blocked := false, intent := None));
    hide R.HandleCallFact, R.HandleGraphFact, R.HandleTurnFact, R.HandleOtherFact, I.Inv;
    if !R.OpenCallIn(s, s.active.value) { Runs.StepKeeps(s, Event(s.lastSeq + 1, fact)); }
  }

  // ----- Lists of closing facts shrink from the front -----

  lemma {:induction false} ClosingsEmpty(calls: Calls, ids: seq<string>, codeNodes: bool)
    ensures Closings(calls, ids, codeNodes) == [] <==> forall i :: 0 <= i < |ids| && ids[i] in calls ==> !calls[ids[i]].status.IsOpen()
  {
    if ids != [] {
      ClosingsEmpty(calls, ids[1..], codeNodes);
      assert forall i :: 0 < i < |ids| ==> ids[i] == ids[1..][i - 1];
    }
  }

  lemma {:induction false} ClosingsElsewhere(calls: Calls, ids: seq<string>, codeNodes: bool, k: string, call: ToolCall)
    requires k !in ids
    ensures Closings(calls[k := call], ids, codeNodes) == Closings(calls, ids, codeNodes)
  {
    if ids != [] { ClosingsElsewhere(calls, ids[1..], codeNodes, k, call); }
  }

  /** Which call the first closing fact is about; once it is closed, the others remain. */
  lemma {:induction false} FirstClosing(calls: Calls, ids: seq<string>, codeNodes: bool) returns (k: string)
    requires Closings(calls, ids, codeNodes) != [] && Distinct(ids)
    ensures k in ids && k in calls && calls[k].status.IsOpen()
    ensures Closings(calls, ids, codeNodes)[0] == CloseCall(calls[k], codeNodes)
    ensures forall call: ToolCall :: call.status.IsTerminal() ==>
              Closings(calls[k := call], ids, codeNodes) == Closings(calls, ids, codeNodes)[1..]
  {
    if ids[0] in calls && calls[ids[0]].status.IsOpen() {
      k := ids[0];
      forall call: ToolCall | call.status.IsTerminal()
        ensures Closings(calls[k := call], ids, codeNodes) == Closings(calls, ids, codeNodes)[1..]
      {
        ClosingsElsewhere(calls, ids[1..], codeNodes, k, call);
      }
    } else {
      k := FirstClosing(calls, ids[1..], codeNodes);
      assert k != ids[0];
    }
  }

  lemma {:induction false} AbandonsEmpty(calls: Calls, active: Option<string>, ids: seq<string>, note: string)
    ensures Abandons(calls, active, ids, note) == [] <==>
              forall i :: 0 <= i < |ids| && ids[i] in calls && active == Some(calls[ids[i]].turn) ==> !calls[ids[i]].status.OutcomeUnknown?
  {
    if ids != [] {
      AbandonsEmpty(calls, active, ids[1..], note);
      assert forall i :: 0 < i < |ids| ==> ids[i] == ids[1..][i - 1];
    }
  }

  lemma {:induction false} AbandonsElsewhere(calls: Calls, active: Option<string>, ids: seq<string>, note: string, k: string, call: ToolCall)
    requires k !in ids
    ensures Abandons(calls[k := call], active, ids, note) == Abandons(calls, active, ids, note)
  {
    if ids != [] { AbandonsElsewhere(calls, active, ids[1..], note, k, call); }
  }

  lemma {:induction false} FirstAbandon(calls: Calls, active: Option<string>, ids: seq<string>, note: string) returns (k: string)
    requires Abandons(calls, active, ids, note) != [] && Distinct(ids)
    ensures k in ids && k in calls && calls[k].status.OutcomeUnknown?
    ensures Abandons(calls, active, ids, note)[0] == ToolReconciled(Named(calls[k]), GiveUp, note, false)
    ensures forall call: ToolCall :: call.status == Abandoned ==>
              Abandons(calls[k := call], active, ids, note) == Abandons(calls, active, ids, note)[1..]
  {
    if ids[0] in calls && active == Some(calls[ids[0]].turn) && calls[ids[0]].status.OutcomeUnknown? {
      k := ids[0];
      forall call: ToolCall | call.status == Abandoned
        ensures Abandons(calls[k := call], active, ids, note) == Abandons(calls, active, ids, note)[1..]
      {
        AbandonsElsewhere(calls, active, ids[1..], note, k, call);
      }
    } else {
      k := FirstAbandon(calls, active, ids[1..], note);
      assert k != ids[0];
    }
  }
}
