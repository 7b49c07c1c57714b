/**
 `_recover_open_calls` and its helpers, in place on the session, proved to write exactly the
 chain of facts that the state owes.
 */
module RecoveryRuns {
  import opened Domain
  import opened Recovery
  import opened RecoverySteps
  import opened Sessions
  import R = Reducer
  import I = ReducerInvariant
  import Runs = ReducerRuns

  ghost predicate Idle(s: State, r: string) {
    r in s.runs && RunWork(s, r) == []
  }

  lemma IdleMeaning(s: State, r: string)
    requires r in s.runs
    ensures Idle(s, r) <==> !s.runs[r].status.RunActive? && !(s.runs[r].parent in s.calls && s.calls[s.runs[r].parent].status.Started?)
  {
  }

  /** Closing a call makes no idle run busy. */
  lemma IdleStays(s: State, u: State, k: string, q: string)
    requires I.Inv(s) && ClosedOne(s, u, k) && Idle(s, q)
    ensures Idle(u, q)
  {
  }

  lemma {:induction false} FirstBusyIs(s: State, i: nat, j: nat)
    requires i <= j < |s.runOrder| && s.runOrder[j] in s.runs && RunWork(s, s.runOrder[j]) != []
    requires forall m :: i <= m < j ==> Idle(s, s.runOrder[m])
    ensures FirstBusy(s, i) == Some(s.runOrder[j])
    decreases j - i
  {
    hide RunWork;
    if i < j { FirstBusyIs(s, i + 1, j); }
  }

  lemma {:induction false} NoneBusy(s: State, i: nat)
    requires forall m :: i <= m < |s.runOrder| ==> Idle(s, s.runOrder[m])
    ensures FirstBusy(s, i).None?
    decreases |s.runOrder| - i
  {
    hide RunWork;
    if i < |s.runOrder| { NoneBusy(s, i + 1); }
  }

  /** What a busy run owes after one of its facts was appended, and what that does to the others. */
  ghost predicate Shrinks(s: State, a: R.Applied, r: string)
    requires r in s.runs && RunWork(s, r) != []
  {
    && a.Ok? && I.Inv(a.value) && a.value.created && a.value.intent.None?
    && a.value.runOrder == s.runOrder && a.value.runs.Keys == s.runs.Keys
    && RunWork(a.value, r) == RunWork(s, r)[1..]
    && forall q :: q != r && Idle(s, q) ==> Idle(a.value, q)
  }

  lemma WorkAfterClosing(s: State, u: State, r: string, k: string)
    requires r in s.runs && s.runs[r].status.RunActive? && Closings(s.calls, s.runs[r].nodeIds, true) != []
    requires ClosedOne(s, u, k) && k != s.runs[r].parent
    requires Closings(u.calls, s.runs[r].nodeIds, true) == Closings(s.calls, s.runs[r].nodeIds, true)[1..]
    ensures RunWork(u, r) == RunWork(s, r)[1..]
  {
    hide Closings;
  }

  lemma FirstOpenNode(s: State, r: string) returns (k: string)
    requires r in s.runs && s.runs[r].status.RunActive? && I.RunOk(s.nodes, r, s.runs[r])
    requires Closings(s.calls, s.runs[r].nodeIds, true) != []
    ensures k in s.calls && s.calls[k].status.IsOpen() && k != s.runs[r].parent
    ensures RunWork(s, r) != [] && RunWork(s, r)[0] == CloseCall(s.calls[k], true)
    ensures forall call: ToolCall :: call.status.IsTerminal() ==>
              Closings(s.calls[k := call], s.runs[r].nodeIds, true) == Closings(s.calls, s.runs[r].nodeIds, true)[1..]
  {
    k := FirstClosing(s.calls, s.runs[r].nodeIds, true);
  }

  lemma ClosingShrinks(s: State, r: string)
    requires I.Inv(s) && s.created && s.intent.None? && r in s.runs && s.runs[r].status.RunActive?
    requires Closings(s.calls, s.runs[r].nodeIds, true) != []
    ensures RunWork(s, r) != [] && Shrinks(s, Append(s, RunWork(s, r)[0]), r)
  {
    hide I.Inv, Append, RunWork, Closings, CloseCall, Idle, ClosedOne, I.RunOk;
    RunIsOk(s, r);
    var k := FirstOpenNode(s, r);
    CloseEffect(s, k, true);
    var u := Append(s, CloseCall(s.calls[k], true)).value;
    ClosedFrame(s, u, k);
    WorkAfterClosing(s, u, r, k);
    forall q | q != r && Idle(s, q) ensures Idle(u, q) { IdleStays(s, u, k, q); }
  }

  lemma RunIsOk(s: State, r: string)
    requires I.Inv(s) && r in s.runs
    ensures I.RunOk(s.nodes, r, s.runs[r])
  {
  }

  lemma RunsKnown(s: State)
    requires I.Inv(s)
    ensures forall i :: 0 <= i < |s.runOrder| ==> s.runOrder[i] in s.runs
  {
    assert I.ListsExactly(s.runOrder, s.runs.Keys);
  }

  lemma AbandonsStep(calls: Calls, active: Option<string>, ids: seq<string>, i: nat, note: string)
    requires i < |ids|
    ensures Abandons(calls, active, ids[i..], note) ==
            (if ids[i] in calls && active == Some(calls[ids[i]].turn) && calls[ids[i]].status.OutcomeUnknown?
             then [ToolReconciled(Named(calls[ids[i]]), GiveUp, note, false)] else [])
            + Abandons(calls, active, ids[i + 1..], note)
  {
    assert ids[i..][1..] == ids[i + 1..];
  }

  lemma ClosedFrame(s: State, u: State, k: string)
    requires ClosedOne(s, u, k)
    ensures u.intent == s.intent && u.runs == s.runs && u.runOrder == s.runOrder && u.active == s.active
    ensures k in u.calls && u.calls == s.calls[k := u.calls[k]] && u.calls[k].status.IsTerminal()
  {
  }

  lemma FinishShrinks(s: State, r: string)
    requires I.Inv(s) && s.created && s.intent.None? && r in s.runs && s.runs[r].status.RunActive?
    requires Closings(s.calls, s.runs[r].nodeIds, true) == []
    ensures RunWork(s, r) != [] && Shrinks(s, Append(s, RunWork(s, r)[0]), r)
  {
    hide I.Inv, Append, Closings, ParentWork, RunWork, Idle;
    RunFinishEffect(s, r);
    var u := Append(s, CodeRunFinished(r, RunFailed)).value;
    FinishWork(s, u, r);
    assert u.runs.Keys == s.runs.Keys;
    forall q | q != r && Idle(s, q) ensures Idle(u, q) { IdleElsewhere(s, u, r, q); }
  }

  lemma FinishWork(s: State, u: State, r: string)
    requires r in s.runs && s.runs[r].status.RunActive? && Closings(s.calls, s.runs[r].nodeIds, true) == []
    requires u.calls == s.calls && u.runs == s.runs[r := s.runs[r].(status := RunFailed)]
    ensures RunWork(s, r) != [] && RunWork(s, r)[0] == CodeRunFinished(r, RunFailed) && RunWork(u, r) == RunWork(s, r)[1..]
  {
    hide Closings, ParentWork;
  }

  lemma IdleElsewhere(s: State, u: State, r: string, q: string)
    requires u.calls == s.calls && r in s.runs && r in u.runs && u.runs == s.runs[r := u.runs[r]] && q != r && Idle(s, q)
    ensures Idle(u, q)
  {
    hide Closings, ParentWork;
  }

  lemma ParentFact(s: State, r: string)
    requires r in s.runs && !s.runs[r].status.RunActive? && RunWork(s, r) != []
    ensures var k := s.runs[r].parent;
            k in s.calls && s.calls[k].status.Started? && RunWork(s, r) == [ParentFailed(s.calls[k])]
    ensures var f := RunWork(s, r)[0];
            f.ToolFinished? && f.call == Named(s.calls[s.runs[r].parent]) && f.status.Failed? && !f.blocked
  {
    hide Closings;
  }

  lemma ParentDone(s: State, u: State, r: string)
    requires r in s.runs && !s.runs[r].status.RunActive? && RunWork(s, r) != [] && ClosedOne(s, u, s.runs[r].parent)
    ensures RunWork(u, r) == RunWork(s, r)[1..]
  {
    hide Closings, ParentFailed;
  }

  lemma ParentShrinks(s: State, r: string)
    requires I.Inv(s) && s.created && s.intent.None? && r in s.runs && !s.runs[r].status.RunActive?
    requires RunWork(s, r) != []
    ensures Shrinks(s, Append(s, RunWork(s, r)[0]), r)
  {
    hide I.Inv, Append, Closings, RunWork, Idle, ClosedOne;
    var k, fact := s.runs[r].parent, RunWork(s, r)[0];
    ParentFact(s, r);
    FinishEffect(s, k, fact);
    var u := Append(s, fact).value;
    ClosedFrame(s, u, k);
    ParentDone(s, u, r);
    forall q | q != r && Idle(s, q) ensures Idle(u, q) { IdleStays(s, u, k, q); }
  }

  /** The first owed fact of a busy run is accepted; the run then owes the rest, and idle runs stay idle. */
  lemma RunWorkShrinks(s: State, r: string)
    requires I.Inv(s) && s.created && s.intent.None? && r in s.runs && RunWork(s, r) != []
    ensures Shrinks(s, Append(s, RunWork(s, r)[0]), r)
  {
    hide I.Inv, Append, RunWork, Shrinks;
    if !s.runs[r].status.RunActive? {
      ParentShrinks(s, r);
    } else if Closings(s.calls, s.runs[r].nodeIds, true) != [] {
      ClosingShrinks(s, r);
    } else {
      FinishShrinks(s, r);
    }
  }

  // ----- Plans and verdicts shrink in the same way -----

  lemma PlanShrinks(s: State)
    requires I.Inv(s) && s.created && Plan(s) != []
    requires s.intent.None? || s.intent.value.action.RecoverInterrupted?
    ensures var a := Append(s, Plan(s)[0]);
            && a.Ok? && Plan(a.value) == Plan(s)[1..]
            && exists k :: k in s.calls && ClosedOne(s, a.value, k) && s.calls[k].status.IsOpen()
                           && k in a.value.calls && a.value.calls[k].status != Failed
  {
    assert I.ListsExactly(s.callOrder, s.calls.Keys);
    var k := FirstClosing(s.calls, s.callOrder, false);
    assert I.IntentOk(s.intent, s.calls, s.active);
    hide I.Inv, Append, Closings, CloseCall;
    CloseEffect(s, k, false);
    assert ClosedOne(s, Append(s, Plan(s)[0]).value, k) && Append(s, Plan(s)[0]).value.calls[k].status != Failed;
  }

  lemma AbandonsShrink(s: State, note: string)
    requires I.Inv(s) && s.created && s.intent.Some? && s.intent.value.action.Abandon?
    requires Abandons(s.calls, s.active, s.callOrder, note) != []
    ensures var fact := Abandons(s.calls, s.active, s.callOrder, note)[0];
            var a := Append(s, fact);
            && a.Ok? && Abandons(a.value.calls, a.value.active, a.value.callOrder, note) == Abandons(s.calls, s.active, s.callOrder, note)[1..]
            && exists k :: k in s.calls && ClosedOne(s, a.value, k) && s.calls[k].status.OutcomeUnknown?
  {
    assert I.ListsExactly(s.callOrder, s.calls.Keys);
    var k := FirstAbandon(s.calls, s.active, s.callOrder, note);
    hide I.Inv, Append, Abandons;
    ReconcileEffect(s, k, note);
    assert ClosedOne(s, Append(s, Abandons(s.calls, s.active, s.callOrder, note)[0]).value, k);
  }

  ghost predicate AllIdle(s: State) {
    forall m :: 0 <= m < |s.runOrder| ==> Idle(s, s.runOrder[m])
  }

  lemma AllIdleStays(s: State, u: State, k: string)
    requires I.Inv(s) && ClosedOne(s, u, k) && AllIdle(s)
    ensures AllIdle(u)
  {
    forall m | 0 <= m < |u.runOrder| ensures Idle(u, u.runOrder[m]) {
      IdleStays(s, u, k, s.runOrder[m]);
    }
  }

  /** Closing one of several uncertain calls does not turn the rest into a plain interruption. */
  lemma UncertaintyStays(s: State, u: State, k: string)
    requires I.Inv(s) && ClosedOne(s, u, k) && s.calls[k].status.IsOpen() && u.calls[k].status != Failed
    requires !OnlyRequested(s)
    ensures !OnlyRequested(u)
  {
    assert I.CallsOk(s.calls, s.active) && I.BlockOk(s.blocked, s.calls, s.active, s.turns);
    hide I.Inv;
    assert s.calls[k].status == Requested ==> Any(s, Requested);
    if Any(s, Started) {
      var j :| j in s.calls && s.calls[j].status == Started;
      assert j == k ==> Any(u, OutcomeUnknown);
      assert j != k ==> u.calls[j].status == Started;
    } else if Any(s, OutcomeUnknown) {
      var j :| j in s.calls && s.calls[j].status == OutcomeUnknown;
      assert u.calls[j].status == OutcomeUnknown;
    }
  }

  class Rollout {
    const state: SessionState
    ghost const start: State
    var facts: seq<Fact>

    /** The facts written so far are the owed ones, and the state is what they lead to. */
    ghost predicate Valid()
      reads this, state
    {
      I.Inv(state.Abs()) && state.created && Chain(start, facts) && AppendAll(start, facts) == Ok(state.Abs())
    }

    constructor (session: SessionState)
      requires I.Inv(session.Abs()) && session.created
      ensures Valid() && state == session && start == session.Abs() && facts == []
    {
      state := session;
      start := session.Abs();
      facts := [];
    }

    method Append(fact: Fact) returns (accepted: bool)
      requires Valid() && NextFact(state.Abs()) == Some(fact) && !fact.AssistantAccepted?
      modifies this, state
      ensures Valid()
      ensures accepted ==> Recovery.Append(old(state.Abs()), fact) == Ok(state.Abs())
      ensures !accepted ==> Recovery.Append(old(state.Abs()), fact).Err? && state.Abs() == old(state.Abs())
    {
      hide R.Step, NextFact, I.Inv, Chain, AppendAll;
      ghost var before := state.Abs();
      var refusal := state.Apply(Event(state.lastSeq + 1, fact));
      accepted := refusal.None?;
      if accepted {
        Runs.StepKeeps(before, Event(before.lastSeq + 1, fact));
        Runs.StepAdvances(before, Event(before.lastSeq + 1, fact));
        ChainExtend(start, facts, fact);
        facts := facts + [fact];
      }
    }

    method CollectClosings(ids: seq<string>, codeNodes: bool) returns (candidates: seq<Fact>)
      ensures candidates == Closings(state.calls, ids, codeNodes)
    {
      hide CloseCall;
      candidates := [];
      for i := 0 to |ids|
        invariant candidates + Closings(state.calls, ids[i..], codeNodes) == Closings(state.calls, ids, codeNodes)
      {
        if ids[i] in state.calls && state.calls[ids[i]].status.IsOpen() {
          candidates := candidates + [CloseCall(state.calls[ids[i]], codeNodes)];
        }
        assert ids[i..][1..] == ids[i + 1..];
      }
    }

    method CollectAbandons(note: string) returns (candidates: seq<Fact>)
      ensures candidates == Abandons(state.calls, state.active, state.callOrder, note)
    {
      var ids := state.callOrder;
      candidates := [];
      assert ids[|ids|..] == [] && Abandons(state.calls, state.active, [], note) == [];
      hide Abandons;
      for i := 0 to |ids|
        invariant candidates + Abandons(state.calls, state.active, ids[i..], note) == Abandons(state.calls, state.active, ids, note)
      {
        AbandonsStep(state.calls, state.active, ids, i, note);
        if ids[i] in state.calls && state.active == Some(state.calls[ids[i]].turn) && state.calls[ids[i]].status.OutcomeUnknown? {
          candidates := candidates + [ToolReconciled(Named(state.calls[ids[i]]), GiveUp, note, false)];
        }
      }
    }

    /** Append the first fact that the first busy run owes. */
    method AppendForRun(i: nat, fact: Fact)
      requires Valid() && state.intent.None? && i < |state.runOrder| && BusyAt(state.Abs(), i)
      requires RunWork(state.Abs(), state.runOrder[i])[0] == fact && !fact.AssistantAccepted?
      modifies this, state
      ensures Valid() && state.intent.None? && state.runOrder == old(state.runOrder) && state.runOrder[i] in state.runs
      ensures RunWork(state.Abs(), state.runOrder[i]) == old(RunWork(state.Abs(), state.runOrder[i]))[1..]
      ensures forall m :: 0 <= m < i ==> Idle(state.Abs(), state.runOrder[m])
    {
      ghost var s := state.Abs();
      ghost var r := s.runOrder[i];
      FirstBusyIs(s, 0, i);
      RunWorkShrinks(s, r);
      assert I.ListsExactly(s.runOrder, s.runs.Keys);
      hide I.Inv, RunWork, Recovery.Append, Chain, AppendAll, Idle;
      var accepted := Append(fact);
    }

    /** Close the run's open nodes, then the run. */
    method CloseActiveRun(i: nat)
      requires Valid() && state.intent.None? && i < |state.runOrder|
      requires forall m :: 0 <= m < i ==> Idle(state.Abs(), state.runOrder[m])
      requires state.runOrder[i] in state.runs && state.runs[state.runOrder[i]].status.RunActive?
      modifies this, state
      ensures Valid() && state.intent.None? && state.runOrder == old(state.runOrder) && state.runOrder[i] in state.runs
      ensures RunWork(state.Abs(), state.runOrder[i]) == old(ParentWork(state.calls, state.runs[state.runOrder[i]].parent))
      ensures forall m :: 0 <= m < i ==> Idle(state.Abs(), state.runOrder[m])
    {
      hide I.Inv, Chain, AppendAll, Closings, CloseCall, NextFact, Recovery.Append, Idle, ParentWork;
      var r := state.runOrder[i];
      ghost var order, parentWork := state.runOrder, ParentWork(state.calls, state.runs[r].parent);
      var candidates := CollectClosings(state.runs[r].nodeIds, true);
      NoAssistant(state.calls, state.runs[r].nodeIds, true);
      assert candidates[0..] == candidates && forall f :: f in candidates ==> f.ToolFinished?;
      for j := 0 to |candidates|
        invariant Valid() && state.intent.None? && state.runOrder == order && r in state.runs
        invariant RunWork(state.Abs(), r) == candidates[j..] + [CodeRunFinished(r, RunFailed)] + parentWork
        invariant forall m :: 0 <= m < i ==> Idle(state.Abs(), state.runOrder[m])
      {
        hide RunWork;
        assert candidates[j] in candidates;
        AppendForRun(i, candidates[j]);
        assert (candidates[j..] + [CodeRunFinished(r, RunFailed)] + parentWork)[1..]
            == candidates[j + 1..] + [CodeRunFinished(r, RunFailed)] + parentWork;
      }
      hide RunWork;
      AppendForRun(i, CodeRunFinished(r, RunFailed));
    }

    /** Fail the call that started the run, unless it is closed already. */
    method FailParent(i: nat)
      requires Valid() && state.intent.None? && i < |state.runOrder| && state.runOrder[i] in state.runs
      requires forall m :: 0 <= m < i ==> Idle(state.Abs(), state.runOrder[m])
      requires RunWork(state.Abs(), state.runOrder[i]) == ParentWork(state.calls, state.runs[state.runOrder[i]].parent)
      modifies this, state
      ensures Valid() && state.intent.None? && state.runOrder == old(state.runOrder)
      ensures forall m :: 0 <= m <= i ==> Idle(state.Abs(), state.runOrder[m])
    {
      hide I.Inv, Chain, AppendAll, NextFact, Recovery.Append, ParentFailed, RunWork;
      var parent := state.runs[state.runOrder[i]].parent;
      if parent in state.calls && state.calls[parent].status.Started? {
        AppendForRun(i, ParentFailed(state.calls[parent]));
      }
    }

    method RecoverCodeRun(i: nat)
      requires Valid() && state.intent.None? && i < |state.runOrder|
      requires forall m :: 0 <= m < i ==> Idle(state.Abs(), state.runOrder[m])
      modifies this, state
      ensures Valid() && state.intent.None? && state.runOrder == old(state.runOrder)
      ensures forall m :: 0 <= m <= i ==> Idle(state.Abs(), state.runOrder[m])
    {
      hide I.Inv, Chain, AppendAll, Closings, CloseCall, NextFact, Recovery.Append, ParentFailed, Idle, RunWork, ParentWork;
      RunsKnown(state.Abs());
      var r := state.runOrder[i];
      if state.runs[r].status.RunActive? {
        NoFinishInParentWork(state.calls, state.runs[r].parent, r);
        CloseActiveRun(i);
        ActiveOwesFinish(state.Abs(), r);
      }
      EndedOwesParent(state.Abs(), r);
      FailParent(i);
    }

    method RecoverCodeRuns()
      requires Valid() && state.intent.None?
      modifies this, state
      ensures Valid() && state.intent.None? && AllIdle(state.Abs())
    {
      hide I.Inv, Chain, AppendAll, NextFact, Idle;
      var n := |state.runOrder|;
      ghost var order := state.runOrder;
      for i := 0 to n
        invariant Valid() && state.intent.None? && state.runOrder == order
        invariant forall m :: 0 <= m < i ==> Idle(state.Abs(), state.runOrder[m])
      {
        RecoverCodeRun(i);
      }
    }

    /** Close every open call of an interrupted turn. */
    method AppendPlan()
      requires Valid() && state.intent.Some? && state.intent.value.action.RecoverInterrupted? && state.active.Some?
      modifies this, state
      ensures Valid() && SameTurn(old(state.Abs()), state.Abs()) && Plan(state.Abs()) == []
      ensures AllIdle(old(state.Abs())) ==> AllIdle(state.Abs())
    {
      hide I.Inv, Chain, AppendAll, Closings, CloseCall, Recovery.Append, ClosedOne, AllIdle;
      ghost var s := state.Abs();
      var candidates := CollectClosings(state.callOrder, false);
      NoAssistant(state.calls, state.callOrder, false);
      assert candidates[0..] == candidates && candidates == Plan(s);
      for j := 0 to |candidates|
        invariant Valid() && SameTurn(s, state.Abs()) && Plan(state.Abs()) == candidates[j..]
        invariant forall f :: f in candidates ==> f.ToolFinished?
        invariant AllIdle(s) ==> AllIdle(state.Abs())
      {
        ghost var t := state.Abs();
        assert candidates[j] in candidates;
        PlanShrinks(t);
        var accepted := Append(candidates[j]);
        ghost var k :| k in t.calls && ClosedOne(t, state.Abs(), k) && t.calls[k].status.IsOpen();
        ClosedKeepsTurn(t, state.Abs(), k);
        if AllIdle(t) { AllIdleStays(t, state.Abs(), k); }
        assert candidates[j..][1..] == candidates[j + 1..];
      }
    }

    /** Give up every unknown outcome of the turn. */
    method AppendAbandons(note: string)
      requires Valid() && state.intent == Some(Intent(Abandon, note)) && state.active.Some?
      modifies this, state
      ensures Valid() && SameTurn(old(state.Abs()), state.Abs())
      ensures Abandons(state.calls, state.active, state.callOrder, note) == []
      ensures SameOpen(old(state.Abs()), state.Abs())
    {
      hide I.Inv, Chain, AppendAll, Abandons, Recovery.Append, ClosedOne, Plan;
      ghost var s := state.Abs();
      var candidates := CollectAbandons(note);
      NoAssistantAbandon(state.calls, state.active, state.callOrder, note);
      assert candidates[0..] == candidates;
      for j := 0 to |candidates|
        invariant Valid() && SameTurn(s, state.Abs())
        invariant Abandons(state.calls, state.active, state.callOrder, note) == candidates[j..]
        invariant forall f :: f in candidates ==> f.ToolReconciled?
        invariant SameOpen(s, state.Abs())
      {
        ghost var t := state.Abs();
        assert candidates[j] in candidates;
        AbandonsShrink(t, note);
        var accepted := Append(candidates[j]);
        ghost var k :| k in t.calls && ClosedOne(t, state.Abs(), k) && t.calls[k].status.OutcomeUnknown?;
        ClosedKeepsTurn(t, state.Abs(), k);
        assert candidates[j..][1..] == candidates[j + 1..];
      }
    }

    /** Finish the turn as the intent says; refused when a call is left open. */
    method FinishTurn() returns (ok: bool)
      requires Valid() && state.intent.Some? && state.active.Some? && !state.blocked
      requires NextFact(state.Abs()) == Some(FinishFact(state.Abs()))
      modifies this, state
      ensures Valid()
      ensures ok <==> NoneOpen(old(state.Abs()))
      ensures ok ==> state.intent.None? && state.calls == old(state.calls) && state.runs == old(state.runs)
    {
      hide I.Inv, Chain, AppendAll, NextFact, Recovery.Append, NoneOpen;
      TurnFinishEffect(state.Abs());
      OpenInTurn(state.Abs());
      ok := Append(TurnFinished(state.active.value,
                                if state.intent.value.action.RecoverInterrupted? then TurnInterrupted else TurnAbandoned));
    }

    /** What a pending intent still owes. */
    method CompleteRecoveryIntent() returns (ok: bool)
      requires Valid() && state.intent.Some? && state.active.Some?
      modifies this, state
      ensures Valid()
      ensures ok <==> (old(state.intent).value.action.RecoverInterrupted? || NoneOpen(old(state.Abs())))
      ensures ok ==> state.intent.None? && NoneOpen(state.Abs()) && state.runs == old(state.runs)
    {
      ghost var s := state.Abs();
      if state.intent.value.action.RecoverInterrupted? {
        AppendPlan();
        PlanDone(state.Abs());
      } else {
        AppendAbandons(state.intent.value.reason);
        AbandonDone(state.Abs());
        OpenTransfer(s, state.Abs());
      }
      hide I.Inv, Chain, AppendAll, Plan, Abandons, Recovery.Append, NoneOpen, NextFact;
      ghost var t := state.Abs();
      ok := FinishTurn();
      OpenTransfer(t, if ok then state.Abs() else t);
    }

    /** The uncertain case: every open call is closed and the turn waits for the user. */
    method AppendUncertain()
      requires Valid() && state.intent.None? && AllIdle(state.Abs()) && !OnlyRequested(state.Abs())
      modifies this, state
      ensures Valid() && NextFact(state.Abs()).None?
    {
      hide I.Inv, Chain, AppendAll, Closings, CloseCall, Recovery.Append, ClosedOne, AllIdle, OnlyRequested, RunWork;
      ghost var s := state.Abs();
      var candidates := CollectClosings(state.callOrder, false);
      NoAssistant(state.calls, state.callOrder, false);
      assert candidates[0..] == candidates && candidates == Plan(s);
      for j := 0 to |candidates|
        invariant Valid() && state.intent.None? && Plan(state.Abs()) == candidates[j..]
        invariant forall f :: f in candidates ==> f.ToolFinished?
        invariant AllIdle(state.Abs()) && !OnlyRequested(state.Abs())
      {
        ghost var t := state.Abs();
        assert candidates[j] in candidates;
        NextIsPlan(t);
        PlanShrinks(t);
        var accepted := Append(candidates[j]);
        ghost var k :| k in t.calls && ClosedOne(t, state.Abs(), k) && t.calls[k].status.IsOpen()
          && k in state.calls && state.calls[k].status != Failed;
        ClosedKeepsTurn(t, state.Abs(), k);
        AllIdleStays(t, state.Abs(), k);
        UncertaintyStays(t, state.Abs(), k);
        assert candidates[j..][1..] == candidates[j + 1..];
      }
      NextIsPlan(state.Abs());
    }

    /** Only requested calls are open: record the intent first, so that a crash cannot forget it. */
    method CloseInterrupted()
      requires Valid() && state.intent.None? && AllIdle(state.Abs()) && OnlyRequested(state.Abs())
      modifies this, state
      ensures Valid() && NextFact(state.Abs()).None?
    {
      hide I.Inv, Chain, AppendAll, NextFact, Recovery.Append, NoneOpen, AllIdle;
      NextIsIntent(state.Abs());
      IntentEffect(state.Abs());
      IdleRunsAreOver(state.Abs());
      var ok := Append(TurnRecoveryIntent(state.active.value, RecoverInterrupted, INTERRUPTED));
      hide OnlyRequested;
      ok := CompleteRecoveryIntent();
      QuietNext(state.Abs());
    }

    /** Recovery as it runs when a session is resumed. */
    method RecoverOpenCalls() returns (ok: bool)
      requires Valid()
      modifies this, state
      ensures Valid()
      ensures ok && NextFact(state.Abs()).None? <==> Harmless(old(state.Abs()))
    {
      ghost var s := state.Abs();
      assert I.IntentOk(state.intent, state.calls, state.active);
      hide I.Inv, Chain, AppendAll, NextFact, NoneOpen, AllIdle, OnlyRequested;
      if state.intent.Some? {
        ok := CompleteRecoveryIntent();
        if ok { QuietNext(state.Abs()); }
        HarmlessMeaning(s);
        return;
      }
      RecoverCodeRuns();
      var requested := exists k :: k in state.calls && state.calls[k].status == Requested;
      var started := exists k :: k in state.calls && state.calls[k].status == Started;
      var unknown := exists k :: k in state.calls && state.calls[k].status == OutcomeUnknown;
      OnlyRequestedMeaning(state.Abs());
      if requested && !started && !unknown && !state.blocked {
        CloseInterrupted();
      } else {
        AppendUncertain();
      }
      ok := true;
    }
  }

  ghost predicate NoneOpen(s: State) {
    forall k :: k in s.calls ==> !s.calls[k].status.IsOpen()
  }

  lemma PlanDone(s: State)
    requires I.Inv(s) && Plan(s) == [] && s.active.Some? && s.intent.Some? && s.intent.value.action.RecoverInterrupted?
    ensures NoneOpen(s) && !s.blocked && NextFact(s) == Some(FinishFact(s))
  {
    ClosingsEmpty(s.calls, s.callOrder, false);
    assert I.ListsExactly(s.callOrder, s.calls.Keys) && I.IntentOk(s.intent, s.calls, s.active);
    assert I.BlockOk(s.blocked, s.calls, s.active, s.turns);
    hide I.Inv;
  }

  lemma AbandonDone(s: State)
    requires I.Inv(s) && s.active.Some? && s.intent.Some? && s.intent.value.action.Abandon?
    requires Abandons(s.calls, s.active, s.callOrder, s.intent.value.reason) == []
    ensures !s.blocked && NextFact(s) == Some(FinishFact(s))
  {
    AbandonsEmpty(s.calls, s.active, s.callOrder, s.intent.value.reason);
    assert I.ListsExactly(s.callOrder, s.calls.Keys) && I.CallsOk(s.calls, s.active);
    assert I.BlockOk(s.blocked, s.calls, s.active, s.turns);
    hide I.Inv;
  }

  lemma OpenInTurn(s: State)
    requires I.Inv(s) && s.active.Some?
    ensures R.OpenCallIn(s, s.active.value) <==> !NoneOpen(s)
  {
    assert I.CallsOk(s.calls, s.active);
    hide I.Inv;
  }

  lemma OpenTransfer(s: State, t: State)
    requires SameOpen(s, t) || s.calls == t.calls
    ensures NoneOpen(s) <==> NoneOpen(t)
  {
  }

  lemma NextIsPlan(s: State)
    requires s.intent.None? && AllIdle(s) && !OnlyRequested(s)
    ensures NextFact(s) == if Plan(s) != [] then Some(Plan(s)[0]) else None
  {
    NoneBusy(s, 0);
    hide Plan, AllIdle, FirstBusy, OnlyRequested, RunWork;
  }

  lemma NextIsIntent(s: State)
    requires s.intent.None? && AllIdle(s) && OnlyRequested(s)
    ensures NextFact(s) == Some(TurnRecoveryIntent(s.active.value, RecoverInterrupted, INTERRUPTED))
  {
    NoneBusy(s, 0);
    hide Plan, AllIdle, FirstBusy, RunWork;
  }

  lemma OnlyRequestedMeaning(s: State)
    requires I.Inv(s)
    ensures OnlyRequested(s) <==> Any(s, Requested) && !Any(s, Started) && !Any(s, OutcomeUnknown) && !s.blocked
  {
    assert I.CallsOk(s.calls, s.active);
  }

  lemma IdleRunsAreOver(s: State)
    requires I.Inv(s) && AllIdle(s)
    ensures forall r :: r in s.runs ==> !s.runs[r].status.RunActive?
  {
    assert I.ListsExactly(s.runOrder, s.runs.Keys);
    hide I.Inv;
    forall r | r in s.runs ensures !s.runs[r].status.RunActive? {
      var m :| 0 <= m < |s.runOrder| && s.runOrder[m] == r;
      assert Idle(s, s.runOrder[m]);
      IdleMeaning(s, r);
    }
  }

  lemma {:induction false} BusyFound(s: State, i: nat, m: nat)
    requires i <= m < |s.runOrder| && s.runOrder[m] in s.runs && RunWork(s, s.runOrder[m]) != []
    ensures FirstBusy(s, i).Some? && FirstBusy(s, i).value in s.runs && RunWork(s, FirstBusy(s, i).value) != []
    decreases m - i
  {
    hide RunWork;
    if i < m { BusyFound(s, i + 1, m); }
  }

  /** With nothing open and no intent, only a running code run is still owed anything. */
  lemma QuietNext(s: State)
    requires I.Inv(s) && s.intent.None? && NoneOpen(s)
    ensures NextFact(s).None? <==> forall r :: r in s.runs ==> !s.runs[r].status.RunActive?
  {
    ClosingsEmpty(s.calls, s.callOrder, false);
    assert I.ListsExactly(s.runOrder, s.runs.Keys);
    hide I.Inv, Closings;
    if r :| r in s.runs && s.runs[r].status.RunActive? {
      var m :| 0 <= m < |s.runOrder| && s.runOrder[m] == r;
      BusyFound(s, 0, m);
    } else {
      NoneBusy(s, 0);
    }
  }

  lemma HarmlessMeaning(s: State)
    ensures s.intent.Some? ==>
              (Harmless(s) <==> (s.intent.value.action.Abandon? ==> NoneOpen(s)) && forall r :: r in s.runs ==> !s.runs[r].status.RunActive?)
  {
  }

  /** The turn, the intent and the runs are as before. */
  ghost predicate SameTurn(s: State, u: State) {
    u.active == s.active && u.intent == s.intent && u.runs == s.runs && u.runOrder == s.runOrder
  }

  ghost predicate SameOpen(s: State, u: State) {
    u.calls.Keys == s.calls.Keys && forall k :: k in u.calls ==> (u.calls[k].status.IsOpen() <==> s.calls[k].status.IsOpen())
  }

  lemma ClosedKeepsTurn(s: State, u: State, k: string)
    requires ClosedOne(s, u, k)
    ensures SameTurn(s, u)
    ensures s.calls[k].status.OutcomeUnknown? ==> SameOpen(s, u)
  {
    assert u.calls.Keys == s.calls.Keys;
  }

  lemma {:induction false} NoAssistantAbandon(calls: Calls, active: Option<string>, ids: seq<string>, note: string)
    ensures forall f :: f in Abandons(calls, active, ids, note) ==> f.ToolReconciled?
  {
    if ids != [] { NoAssistantAbandon(calls, active, ids[1..], note); }
  }

  ghost predicate BusyAt(s: State, i: nat)
    requires i < |s.runOrder|
  {
    s.runOrder[i] in s.runs && RunWork(s, s.runOrder[i]) != [] && forall m :: 0 <= m < i ==> Idle(s, s.runOrder[m])
  }

  lemma EndedOwesParent(s: State, r: string)
    requires r in s.runs && !s.runs[r].status.RunActive?
    ensures RunWork(s, r) == ParentWork(s.calls, s.runs[r].parent)
  {
  }

  lemma NoFinishInParentWork(calls: Calls, parent: string, r: string)
    ensures CodeRunFinished(r, RunFailed) !in ParentWork(calls, parent)
  {
  }

  lemma ActiveOwesFinish(s: State, r: string)
    requires r in s.runs
    ensures s.runs[r].status.RunActive? ==> CodeRunFinished(r, RunFailed) in RunWork(s, r)
  {
    var n := |Closings(s.calls, s.runs[r].nodeIds, true)|;
    assert s.runs[r].status.RunActive? ==> RunWork(s, r)[n] == CodeRunFinished(r, RunFailed);
  }

  lemma {:induction false} NoAssistant(calls: Calls, ids: seq<string>, codeNodes: bool)
    ensures forall f :: f in Closings(calls, ids, codeNodes) ==> f.ToolFinished?
  {
    if ids != [] { NoAssistant(calls, ids[1..], codeNodes); }
  }
}
