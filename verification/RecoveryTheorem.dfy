/**
 What recovery achieves, and what its facts mean for the projector.
 */
module RecoveryTheorem {
  import opened Domain
  import opened Recovery
  import opened RecoverySteps
  import opened RecoveryRuns
  import opened Sessions
  import R = Reducer
  import I = ReducerInvariant
  import Runs = ReducerRuns
  import S = ProjectionSteps

  /** A recovery run writes the complete chain of owed facts exactly when no intent can hurt. */
  method Resume(session: SessionState) returns (ghost facts: seq<Fact>, ok: bool)
    requires I.Inv(session.Abs()) && session.created
    modifies session
    ensures AppendAll(old(session.Abs()), facts) == Ok(session.Abs())
    ensures ok && Complete(old(session.Abs()), facts) <==> Harmless(old(session.Abs()))
  {
    hide I.Inv, NextFact, Harmless, Chain, AppendAll;
    var rollout := new Rollout(session);
    ok := rollout.RecoverOpenCalls();
    facts := rollout.facts;
  }

  /** Where nothing is owed, nothing is open: no call, no code run, no intent. */
  lemma NothingLeft(s: State)
    requires I.Inv(s) && NextFact(s).None?
    ensures s.intent.None? && NoneOpen(s) && forall r :: r in s.runs ==> !s.runs[r].status.RunActive?
  {
    assert I.IntentOk(s.intent, s.calls, s.active) && I.ListsExactly(s.callOrder, s.calls.Keys);
    ClosingsEmpty(s.calls, s.callOrder, false);
    hide I.Inv, Closings;
    QuietNext(s);
  }

  /** An intent that recovery itself records is harmless, and so stays every state on the way. */
  lemma {:induction false} HarmlessStays(s: State, facts: seq<Fact>)
    requires I.Inv(s) && s.created && Harmless(s) && Chain(s, facts) && AppendAll(s, facts).Ok?
    ensures I.Inv(AppendAll(s, facts).value) && AppendAll(s, facts).value.created && Harmless(AppendAll(s, facts).value)
  {
    hide I.Inv, Harmless, NextFact, Append;
    if facts != [] {
      var front := facts[..|facts| - 1];
      HarmlessStays(s, front);
      HarmlessStep(AppendAll(s, front).value, facts[|facts| - 1]);
    }
  }

  lemma AppendKeeps(s: State, fact: Fact)
    requires I.Inv(s) && s.created && Append(s, fact).Ok?
    ensures I.Inv(Append(s, fact).value) && Append(s, fact).value.created
  {
    hide I.Inv, R.Step;
    Runs.StepKeeps(s, Event(s.lastSeq + 1, fact));
    Runs.StepAdvances(s, Event(s.lastSeq + 1, fact));
  }

  lemma IntentHasTurn(s: State)
    requires I.Inv(s)
    ensures s.intent.Some? ==> s.active.Some?
  {
    assert I.IntentOk(s.intent, s.calls, s.active);
  }

  lemma HarmlessStep(s: State, fact: Fact)
    requires I.Inv(s) && s.created && Harmless(s) && NextFact(s) == Some(fact) && Append(s, fact).Ok?
    ensures I.Inv(Append(s, fact).value) && Append(s, fact).value.created && Harmless(Append(s, fact).value)
  {
    hide I.Inv, Append, Harmless, NextFact;
    AppendKeeps(s, fact);
    IntentHasTurn(s);
    if s.intent.Some? {
      PendingStep(s, fact);
    } else {
      FreeStep(s, fact);
    }
  }

  lemma PendingStep(s: State, fact: Fact)
    requires I.Inv(s) && s.created && s.intent.Some? && s.active.Some?
    requires Harmless(s) && NextFact(s) == Some(fact) && Append(s, fact).Ok?
    ensures Harmless(Append(s, fact).value)
  {
    hide I.Inv, Append, Plan, Abandons, ClosedOne;
    var u := Append(s, fact).value;
    if s.intent.value.action.RecoverInterrupted? {
      if Plan(s) != [] {
        PlanShrinks(s);
        var k :| k in s.calls && ClosedOne(s, u, k);
        ClosedKeepsTurn(s, u, k);
      } else {
        PlanDone(s);
        TurnFinishEffect(s);
      }
    } else if Abandons(s.calls, s.active, s.callOrder, s.intent.value.reason) != [] {
      AbandonsShrink(s, s.intent.value.reason);
      var k :| k in s.calls && ClosedOne(s, u, k) && s.calls[k].status.OutcomeUnknown?;
      ClosedKeepsTurn(s, u, k);
    } else {
      AbandonDone(s);
      TurnFinishEffect(s);
    }
  }

  lemma FreeStep(s: State, fact: Fact)
    requires I.Inv(s) && s.created && s.intent.None? && NextFact(s) == Some(fact) && Append(s, fact).Ok?
    ensures Harmless(Append(s, fact).value)
  {
    hide I.Inv, Append, Plan, ClosedOne, OnlyRequested, RunWork, AllIdle;
    FirstBusyAnswer(s, 0);
    if FirstBusy(s, 0).Some? {
      RunWorkShrinks(s, FirstBusy(s, 0).value);
    } else if OnlyRequested(s) {
      IntentEffect(s);
      IdleWhenNoneBusy(s);
      IdleRunsAreOver(s);
    } else {
      PlanShrinks(s);
      var k :| k in s.calls && ClosedOne(s, Append(s, fact).value, k);
      ClosedKeepsTurn(s, Append(s, fact).value, k);
    }
  }

  lemma {:induction false} FirstBusyAnswer(s: State, i: nat)
    ensures FirstBusy(s, i).Some? ==> FirstBusy(s, i).value in s.runs && RunWork(s, FirstBusy(s, i).value) != []
    ensures FirstBusy(s, i).None? ==> forall m :: i <= m < |s.runOrder| && s.runOrder[m] in s.runs ==> Idle(s, s.runOrder[m])
    decreases |s.runOrder| - i
  {
    hide RunWork;
    if i < |s.runOrder| { FirstBusyAnswer(s, i + 1); }
  }

  lemma IdleWhenNoneBusy(s: State)
    requires I.Inv(s) && FirstBusy(s, 0).None?
    ensures AllIdle(s)
  {
    FirstBusyAnswer(s, 0);
    assert I.ListsExactly(s.runOrder, s.runs.Keys);
  }

  /** Any number of crashes: cut a recovery anywhere, and what the next one writes is again what is missing. */
  lemma CrashAnywhere(s: State, facts: seq<Fact>, k: nat)
    requires I.Inv(s) && s.created && Harmless(s) && Complete(s, facts) && k <= |facts|
    ensures AppendAll(s, facts[..k]).Ok?
    ensures var t := AppendAll(s, facts[..k]).value;
            I.Inv(t) && t.created && Harmless(t)
            && forall again :: Complete(t, again) ==> again == facts[k..] && AppendAll(t, again) == AppendAll(s, facts)
  {
    assert Chain(s, facts);
    ChainPrefix(s, facts, k);
    hide I.Inv, Harmless, Chain, Complete, AppendAll, NextFact;
    HarmlessStays(s, facts[..k]);
    var t := AppendAll(s, facts[..k]).value;
    forall again | Complete(t, again) ensures again == facts[k..] && AppendAll(t, again) == AppendAll(s, facts) {
      ResumeAfterCut(s, facts, k, again);
    }
  }

  // ----- Recovery facts and the projector -----

  /** Code runs are started by calls of the model, not by nodes of other runs. */
  ghost predicate ModelParents(s: State) {
    forall r :: r in s.runs && s.runs[r].parent in s.calls ==> s.calls[s.runs[r].parent].origin.FromModel?
  }

  /** The closing facts of recovery carry the right tag; only the verdicts of an abandon may not. */
  lemma RecoveryTagsRight(s: State)
    requires I.Inv(s) && s.created && Harmless(s) && ModelParents(s) && NextFact(s).Some?
    ensures !NextFact(s).value.ToolReconciled? ==> S.FactOk(s, NextFact(s).value)
  {
    assert I.IntentOk(s.intent, s.calls, s.active);
    hide I.Inv, OnlyRequested, Plan, RunWork, Abandons, S.FactOk, Harmless;
    NeutralFactOk(s, NextFact(s).value);
    if s.intent.Some? {
      HarmlessMeaning(s);
      if s.intent.value.action.RecoverInterrupted? {
        if Plan(s) != [] { PlanTagRight(s); }
      } else {
        NoAssistantAbandon(s.calls, s.active, s.callOrder, s.intent.value.reason);
      }
    } else {
      FirstBusyAnswer(s, 0);
      if FirstBusy(s, 0).Some? {
        RunTagRight(s, FirstBusy(s, 0).value);
      } else if !OnlyRequested(s) {
        IdleWhenNoneBusy(s);
        IdleRunsAreOver(s);
        PlanTagRight(s);
      }
    }
  }

  lemma NeutralFactOk(s: State, fact: Fact)
    ensures fact.CodeRunFinished? || fact.TurnRecoveryIntent? || fact.TurnFinished? ==> S.FactOk(s, fact)
  {
  }

  lemma OpenNodeMeansActiveRun(s: State, k: string)
    requires I.Inv(s) && k in s.calls && s.calls[k].status.IsOpen() && s.calls[k].origin.FromCode?
    ensures k in s.nodes && s.nodes[k].run in s.runs && s.runs[s.nodes[k].run].status.RunActive?
  {
    assert I.MirrorOk(s.calls, s.nodes) && I.NodesHome(s.nodes, s.runs) && I.RunsOk(s.nodes, s.runs);
    hide I.Inv;
    assert I.RunOk(s.nodes, s.nodes[k].run, s.runs[s.nodes[k].run]);
  }

  lemma CloseTag(s: State, k: string, codeNode: bool)
    requires I.CallsOk(s.calls, s.active) && k in s.calls && s.calls[k].status.IsOpen()
    requires codeNode <==> s.calls[k].origin.FromCode?
    ensures S.FactOk(s, CloseCall(s.calls[k], codeNode))
  {
    ResolveNamed(s, k);
  }

  lemma PlanTagRight(s: State)
    requires I.Inv(s) && Plan(s) != [] && forall r :: r in s.runs ==> !s.runs[r].status.RunActive?
    ensures S.FactOk(s, Plan(s)[0])
  {
    assert I.ListsExactly(s.callOrder, s.calls.Keys) && I.CallsOk(s.calls, s.active);
    hide I.Inv, CloseCall, S.FactOk;
    var k := FirstClosing(s.calls, s.callOrder, false);
    if s.calls[k].origin.FromModel? {
      CloseTag(s, k, false);
    } else {
      OpenNodeMeansActiveRun(s, k);
    }
  }

  lemma ParentTag(s: State, k: string)
    requires I.CallsOk(s.calls, s.active) && k in s.calls && s.calls[k].status.Started? && s.calls[k].origin.FromModel?
    ensures S.FactOk(s, ParentFailed(s.calls[k]))
  {
    ResolveNamed(s, k);
  }

  lemma RunTagRight(s: State, r: string)
    requires I.Inv(s) && ModelParents(s) && r in s.runs && RunWork(s, r) != []
    ensures S.FactOk(s, RunWork(s, r)[0])
  {
    assert I.RunOk(s.nodes, r, s.runs[r]) && I.CallsOk(s.calls, s.active);
    NodeIsCode(s, r);
    hide I.Inv, CloseCall, ParentFailed, S.FactOk;
    if s.runs[r].status.RunActive? {
      if Closings(s.calls, s.runs[r].nodeIds, true) != [] {
        var k := FirstClosing(s.calls, s.runs[r].nodeIds, true);
        CloseTag(s, k, true);
      } else {
        NeutralFactOk(s, CodeRunFinished(r, RunFailed));
      }
    } else {
      ParentTag(s, s.runs[r].parent);
    }
  }

  lemma NodeIsCode(s: State, r: string)
    requires I.Inv(s) && r in s.runs
    ensures forall i :: 0 <= i < |s.runs[r].nodeIds| ==> s.runs[r].nodeIds[i] in s.calls && s.calls[s.runs[r].nodeIds[i]].origin.FromCode?
  {
    assert I.RunOk(s.nodes, r, s.runs[r]) && I.MirrorOk(s.calls, s.nodes);
    hide I.Inv;
  }
}
