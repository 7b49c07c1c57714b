/**
 What recovery makes of each call and each code run that a crash left open. A call that was only requested did not run, a
 call that had started has an unknown outcome, and the call behind an interrupted code run failed; what was settled stays.
 */
module RecoveredOutcomes {
  import opened Domain
  import opened Recovery
  import opened RecoverySteps
  import opened RecoveryRuns
  import R = Reducer
  import I = ReducerInvariant
  import M = ReducerMeaning
  import T = RecoveryTheorem

  ghost predicate IsParent(s: State, k: string) { exists r :: r in s.runs && s.runs[r].parent == k }

  ghost predicate GivesUp(s: State) { s.intent.Some? && s.intent.value.action.Abandon? }

  /** The status that the call must come to, by its status and by what it was doing. */
  ghost predicate RightOutcome(s: State, k: string, final: ToolStatus)
    requires k in s.calls
  {
    match s.calls[k].status
    case Requested => final == NotExecuted
    case Started =>
      if !IsParent(s, k) then final == OutcomeUnknown
      else if s.calls[k].origin.FromModel? then final == Failed
      else final in {Failed, OutcomeUnknown}
    case OutcomeUnknown => final == if GivesUp(s) then Abandoned else OutcomeUnknown
    case settled => final == settled
  }

  ghost predicate RightEnd(s: State, r: string, final: RunStatus)
    requires r in s.runs
  {
    final == if s.runs[r].status.RunActive? then RunFailed else s.runs[r].status
  }

  /** What is right for the state after a fact is right for the state before it. */
  ghost predicate Passes(s: State, u: State) {
    && (forall k :: k in s.calls ==> k in u.calls && forall final :: RightOutcome(u, k, final) ==> RightOutcome(s, k, final))
    && (forall r :: r in s.runs ==> r in u.runs && forall final :: RightEnd(u, r, final) ==> RightEnd(s, r, final))
  }

  // ----- One fact -----

  /** A closing fact names its call, and changes its status as it says. */
  lemma ClosedBy(s: State, k: string, fact: Fact)
    requires I.Inv(s) && s.created && k in s.calls && s.calls[k].status.IsUnsettled()
    requires (fact.ToolFinished? || fact.ToolReconciled?) && fact.call == Named(s.calls[k]) && Append(s, fact).Ok?
    ensures var u := Append(s, fact).value;
            && k in u.calls && u.calls == s.calls[k := u.calls[k]] && u.calls[k].origin == s.calls[k].origin
            && u.calls[k].status == (if fact.ToolFinished? then fact.status else M.Judged(fact.outcome))
  {
    hide *;
    InvCalls(s);
    ResolveNamed(s, k);
    AppendIs(s, fact);
    MovesIs(fact);
    var j := M.StepMovesCall(s, Event(s.lastSeq + 1, fact));
    MovedIs(s, R.Step(s, Event(s.lastSeq + 1, fact)).value, k, s.lastSeq + 1, fact);
  }

  lemma InvCalls(s: State)
    requires I.Inv(s)
    ensures I.CallsOk(s.calls, s.active)
  {
  }

  lemma AppendIs(s: State, fact: Fact)
    ensures Append(s, fact) == R.Step(s, Event(s.lastSeq + 1, fact))
  {
    hide R.Step;
  }

  lemma MovesIs(fact: Fact)
    ensures fact.ToolFinished? || fact.ToolReconciled? ==> M.MovesCall(fact)
  {
  }

  lemma MovedIs(s: State, u: State, k: string, seqNo: nat, fact: Fact)
    requires M.CallMoved(s, u, k, seqNo, fact) && (fact.ToolFinished? || fact.ToolReconciled?)
    ensures k in s.calls && k in u.calls && u.calls == s.calls[k := u.calls[k]] && u.calls[k].origin == s.calls[k].origin
    ensures u.calls[k].status == if fact.ToolFinished? then fact.status else M.Judged(fact.outcome)
  {
    hide M.IsAbout;
  }

  /** Of the calls only this one changes, to what is right for it, and nothing else that matters. */
  lemma ClosingPasses(s: State, u: State, k: string)
    requires k in s.calls && k in u.calls && u.calls == s.calls[k := u.calls[k]] && u.runs == s.runs && u.intent == s.intent
    requires u.calls[k].status in {NotExecuted, OutcomeUnknown, Failed, Abandoned}
    requires u.calls[k].status.OutcomeUnknown? ==> !GivesUp(s)
    requires RightOutcome(s, k, u.calls[k].status)
    ensures Passes(s, u)
  {
    forall j | j in s.calls ensures j in u.calls && forall final :: RightOutcome(u, j, final) ==> RightOutcome(s, j, final) {
      assert IsParent(u, j) == IsParent(s, j);
      if j != k { assert u.calls[j] == s.calls[j]; }
    }
    hide RightOutcome;
  }

  /** The first call that is closed, by a fact that is right for it. */
  lemma CloseCallPasses(s: State, k: string, codeNode: bool)
    requires I.Inv(s) && s.created && k in s.calls && s.calls[k].status.IsOpen()
    requires s.intent.None? || (s.intent.value.action.RecoverInterrupted? && s.calls[k].status.Requested?)
    requires s.calls[k].status.Started? && IsParent(s, k) ==> s.calls[k].origin.FromCode?
    ensures Append(s, CloseCall(s.calls[k], codeNode)).Ok? && Passes(s, Append(s, CloseCall(s.calls[k], codeNode)).value)
  {
    hide I.Inv, Append, ClosedOne, Passes, IsParent;
    CloseEffect(s, k, codeNode);
    var fact := CloseCall(s.calls[k], codeNode);
    ClosedBy(s, k, fact);
    ClosedFrame(s, Append(s, fact).value, k);
    ClosingPasses(s, Append(s, fact).value, k);
  }

  lemma PlanPasses(s: State)
    requires I.Inv(s) && s.created && Plan(s) != [] && (s.intent.Some? ==> s.intent.value.action.RecoverInterrupted?)
    requires s.intent.None? ==> AllIdle(s)
    ensures Append(s, Plan(s)[0]).Ok? && Passes(s, Append(s, Plan(s)[0]).value)
  {
    assert I.ListsExactly(s.callOrder, s.calls.Keys) && I.IntentOk(s.intent, s.calls, s.active);
    var k := FirstClosing(s.calls, s.callOrder, false);
    hide I.Inv, Append, Closings, Passes, CloseCall;
    if s.intent.None? && s.calls[k].status.Started? { NobodyWaits(s, k); }
    CloseCallPasses(s, k, false);
  }

  /** Where all runs are idle, no call that has merely started is behind one. */
  lemma NobodyWaits(s: State, k: string)
    requires I.Inv(s) && AllIdle(s) && k in s.calls && s.calls[k].status.Started?
    ensures !IsParent(s, k)
  {
    forall r | r in s.runs ensures s.runs[r].parent != k { IdleParent(s, r); }
    hide *;
    NotParent(s, k);
  }

  lemma NotParent(s: State, k: string)
    requires forall r :: r in s.runs ==> s.runs[r].parent != k
    ensures !IsParent(s, k)
  {
  }

  lemma IdleParent(s: State, r: string)
    requires I.Inv(s) && AllIdle(s) && r in s.runs
    ensures s.runs[r].parent in s.calls ==> !s.calls[s.runs[r].parent].status.Started?
  {
    assert I.ListsExactly(s.runOrder, s.runs.Keys);
    hide I.Inv, Idle;
    var m :| 0 <= m < |s.runOrder| && s.runOrder[m] == r;
    assert Idle(s, s.runOrder[m]);
    IdleMeaning(s, r);
  }

  lemma AbandonPasses(s: State)
    requires I.Inv(s) && s.created && GivesUp(s)
    requires Abandons(s.calls, s.active, s.callOrder, s.intent.value.reason) != []
    ensures var fact := Abandons(s.calls, s.active, s.callOrder, s.intent.value.reason)[0];
            Append(s, fact).Ok? && Passes(s, Append(s, fact).value)
  {
    assert I.ListsExactly(s.callOrder, s.calls.Keys);
    var note := s.intent.value.reason;
    var k := FirstAbandon(s.calls, s.active, s.callOrder, note);
    hide I.Inv, Append, Abandons, ClosedOne, Passes;
    ReconcileEffect(s, k, note);
    var fact := ToolReconciled(Named(s.calls[k]), GiveUp, note, false);
    ClosedBy(s, k, fact);
    ClosedFrame(s, Append(s, fact).value, k);
    ClosingPasses(s, Append(s, fact).value, k);
  }

  lemma TurnPasses(s: State)
    requires I.Inv(s) && s.created && s.intent.Some? && s.active.Some? && !s.blocked && Append(s, FinishFact(s)).Ok?
    ensures Passes(s, Append(s, FinishFact(s)).value)
  {
    assert I.BlockOk(s.blocked, s.calls, s.active, s.turns);
    hide I.Inv, Append, R.OpenCallIn;
    TurnFinishEffect(s);
    var u := Append(s, FinishFact(s)).value;
    forall k | k in s.calls ensures forall final :: RightOutcome(u, k, final) ==> RightOutcome(s, k, final) {
      assert IsParent(u, k) == IsParent(s, k) && !s.calls[k].status.OutcomeUnknown?;
    }
  }

  lemma IntentPasses(s: State)
    requires I.Inv(s) && s.created && OnlyRequested(s) && s.intent.None?
    ensures var a := Append(s, TurnRecoveryIntent(s.active.value, RecoverInterrupted, INTERRUPTED)); a.Ok? && Passes(s, a.value)
  {
    hide I.Inv, Append, OnlyRequested, INTERRUPTED;
    OnlyRequestedTurn(s);
    IntentEffect(s);
    var u := Append(s, TurnRecoveryIntent(s.active.value, RecoverInterrupted, INTERRUPTED)).value;
    forall k | k in s.calls ensures forall final :: RightOutcome(u, k, final) ==> RightOutcome(s, k, final) {
      assert IsParent(u, k) == IsParent(s, k);
    }
  }

  lemma OnlyRequestedTurn(s: State)
    requires OnlyRequested(s)
    ensures s.active.Some?
  {
  }

  lemma RunEndPasses(s: State, r: string)
    requires I.Inv(s) && s.created && r in s.runs && s.runs[r].status.RunActive? && Closings(s.calls, s.runs[r].nodeIds, true) == []
    ensures Append(s, CodeRunFinished(r, RunFailed)).Ok? && Passes(s, Append(s, CodeRunFinished(r, RunFailed)).value)
  {
    hide I.Inv, Append, Closings;
    RunFinishEffect(s, r);
    var u := Append(s, CodeRunFinished(r, RunFailed)).value;
    forall k | k in s.calls ensures forall final :: RightOutcome(u, k, final) ==> RightOutcome(s, k, final) {
      SameParents(s, u, r, k);
    }
  }

  lemma SameParents(s: State, u: State, r: string, k: string)
    requires r in s.runs && u.runs == s.runs[r := s.runs[r].(status := RunFailed)]
    ensures IsParent(u, k) == IsParent(s, k)
  {
    if IsParent(s, k) {
      var q :| q in s.runs && s.runs[q].parent == k;
      assert u.runs[q].parent == k;
    }
  }

  /** A node of a run belongs to Code Mode. */
  lemma NodePasses(s: State, r: string)
    requires I.Inv(s) && s.created && s.intent.None? && r in s.runs && s.runs[r].status.RunActive?
    requires Closings(s.calls, s.runs[r].nodeIds, true) != []
    ensures RunWork(s, r) != [] && Append(s, RunWork(s, r)[0]).Ok? && Passes(s, Append(s, RunWork(s, r)[0]).value)
  {
    assert I.RunOk(s.nodes, r, s.runs[r]) && I.MirrorOk(s.calls, s.nodes);
    var k := FirstClosing(s.calls, s.runs[r].nodeIds, true);
    assert RunWork(s, r)[0] == Closings(s.calls, s.runs[r].nodeIds, true)[0];
    assert s.calls[k].origin.FromCode?;
    hide I.Inv, I.RunOk, I.MirrorOk, Append, Closings, Passes, RunWork, CloseCall;
    CloseCallPasses(s, k, true);
  }

  lemma ParentPasses(s: State, r: string)
    requires I.Inv(s) && s.created && s.intent.None? && r in s.runs && !s.runs[r].status.RunActive? && RunWork(s, r) != []
    ensures Append(s, RunWork(s, r)[0]).Ok? && Passes(s, Append(s, RunWork(s, r)[0]).value)
  {
    hide I.Inv, Append, Closings, RunWork, ClosedOne, Passes;
    var k, fact := s.runs[r].parent, RunWork(s, r)[0];
    ParentFact(s, r);
    FinishEffect(s, k, fact);
    ClosedBy(s, k, fact);
    ClosedFrame(s, Append(s, fact).value, k);
    assert IsParent(s, k);
    ClosingPasses(s, Append(s, fact).value, k);
  }

  lemma RunPasses(s: State, r: string)
    requires I.Inv(s) && s.created && s.intent.None? && r in s.runs && RunWork(s, r) != []
    ensures Append(s, RunWork(s, r)[0]).Ok? && Passes(s, Append(s, RunWork(s, r)[0]).value)
  {
    if !s.runs[r].status.RunActive? {
      hide *;
      ParentPasses(s, r);
    } else if Closings(s.calls, s.runs[r].nodeIds, true) != [] {
      hide *;
      NodePasses(s, r);
    } else {
      assert RunWork(s, r)[0] == CodeRunFinished(r, RunFailed);
      hide *;
      RunEndPasses(s, r);
    }
  }

  lemma FactPasses(s: State, fact: Fact)
    requires I.Inv(s) && s.created && NextFact(s) == Some(fact) && Append(s, fact).Ok?
    ensures Passes(s, Append(s, fact).value)
  {
    hide I.Inv, Append, Plan, Abandons, Passes, OnlyRequested, RunWork;
    T.IntentHasTurn(s);
    if s.intent.Some? {
      if s.intent.value.action.RecoverInterrupted? {
        if Plan(s) != [] {
          PlanPasses(s);
        } else {
          PlanDone(s);
          TurnPasses(s);
        }
      } else if Abandons(s.calls, s.active, s.callOrder, s.intent.value.reason) != [] {
        AbandonPasses(s);
      } else {
        AbandonDone(s);
        TurnPasses(s);
      }
    } else {
      T.FirstBusyAnswer(s, 0);
      if FirstBusy(s, 0).Some? {
        RunPasses(s, FirstBusy(s, 0).value);
      } else if OnlyRequested(s) {
        IntentPasses(s);
      } else {
        T.IdleWhenNoneBusy(s);
        PlanPasses(s);
      }
    }
  }

  // ----- The whole recovery -----

  lemma {:induction false} ChainPasses(s: State, facts: seq<Fact>)
    requires I.Inv(s) && s.created && Chain(s, facts) && AppendAll(s, facts).Ok?
    ensures I.Inv(AppendAll(s, facts).value) && AppendAll(s, facts).value.created && Passes(s, AppendAll(s, facts).value)
  {
    hide I.Inv, NextFact, Append, RightOutcome, RightEnd;
    if facts != [] {
      var front := facts[..|facts| - 1];
      ChainPasses(s, front);
      var t := AppendAll(s, front).value;
      FactPasses(t, facts[|facts| - 1]);
      T.AppendKeeps(t, facts[|facts| - 1]);
    }
  }

  /**
   After a complete recovery every call has the outcome that is right for how the crash found it, and every run that was
   active has failed.
   */
  lemma Outcomes(s: State, facts: seq<Fact>)
    requires I.Inv(s) && s.created && Complete(s, facts)
    ensures AppendAll(s, facts).Ok?
    ensures var t := AppendAll(s, facts).value;
            && (forall k :: k in s.calls ==> k in t.calls && RightOutcome(s, k, t.calls[k].status))
            && (forall r :: r in s.runs ==> r in t.runs && RightEnd(s, r, t.runs[r].status))
  {
    hide I.Inv, NextFact, Chain, AppendAll;
    ChainPasses(s, facts);
    var t := AppendAll(s, facts).value;
    T.NothingLeft(t);
    forall k | k in s.calls ensures k in t.calls && RightOutcome(s, k, t.calls[k].status) { SettledIsRight(t, k); }
    forall r | r in s.runs ensures r in t.runs && RightEnd(s, r, t.runs[r].status) { assert RightEnd(t, r, t.runs[r].status); }
    hide RightOutcome, RightEnd;
  }

  lemma SettledIsRight(t: State, k: string)
    requires k in t.calls && NoneOpen(t) && t.intent.None?
    ensures RightOutcome(t, k, t.calls[k].status)
  {
  }
}
