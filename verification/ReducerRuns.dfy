/**
 Safety of the reducer over whole runs: the invariant holds in every reachable state, call
 statuses only move forward, and a finished code run is frozen.
 */
module ReducerRuns {
  import opened Domain
  import opened Reducer
  import opened ReducerInvariant

  // ----- Every handler keeps the invariant -----

  lemma ToolStartedKeeps(s: State, seqNo: nat, ref: CallRef)
    requires Inv(s) && s.lastSeq <= seqNo && ApplyToolStarted(s, ref).Ok?
    ensures Inv(ApplyToolStarted(s, ref).value.(lastSeq := seqNo))
  {
    var k := Resolve(s, ref).value;
    var call := s.calls[k].(status := Started);
    SetCallQuietlyKeeps(s, seqNo, k, call, None);
    SetCallGraph(s, k, call, None);
  }

  lemma ApprovalCallsKeep(s: State, seqNo: nat, k: string, approved: bool)
    requires CallInv(s) && s.lastSeq <= seqNo && k in s.calls && s.calls[k].status.Requested?
    ensures CallInv(s.(calls := s.calls[k := s.calls[k].(approved := Some(approved))], lastSeq := seqNo))
  {
    var call := s.calls[k].(approved := Some(approved));
    SetCallUnknowns(s, k, call);
    SetExactly(s.callOrder, s.calls, k, call);
  }

  lemma ApprovalGraphKeeps(s: State, k: string, approved: bool)
    requires GraphInv(s) && k in s.calls
    ensures GraphInv(s.(calls := s.calls[k := s.calls[k].(approved := Some(approved))]))
  {
    hide NodesHome, RunsOk, ListsExactly;
    assert MirrorOk(s.calls[k := s.calls[k].(approved := Some(approved))], s.nodes);
  }

  lemma ApprovalKeeps(s: State, seqNo: nat, ref: CallRef, approved: bool, scope: Scope)
    requires Inv(s) && s.lastSeq <= seqNo && ApplyApproval(s, ref, approved, scope).Ok?
    ensures Inv(ApplyApproval(s, ref, approved, scope).value.(lastSeq := seqNo))
  {
    var k := Resolve(s, ref).value;
    assert s.calls[k].key == k;
    ApprovalCallsKeep(s, seqNo, k, approved);
    ApprovalGraphKeeps(s, k, approved);
  }

  lemma ToolFinishedKeeps(s: State, seqNo: nat, ref: CallRef, status: ToolStatus, result: Option<string>, blocked: bool,
                          causes: seq<string>, roots: seq<string>)
    requires Inv(s) && s.lastSeq <= seqNo && ApplyToolFinished(s, seqNo, ref, status, result, blocked, causes, roots).Ok?
    ensures Inv(ApplyToolFinished(s, seqNo, ref, status, result, blocked, causes, roots).value.(lastSeq := seqNo))
  {
    hide CallInv, GraphInv, SetCall, RefreshBlock;
    var k := Resolve(s, ref).value;
    var call := s.calls[k].(status := status, finishedSeq := Some(seqNo), result := result);
    SetCallKeeps(s, seqNo, k, call, Some(Causes(causes, roots)));
    SetCallGraph(s, k, call, Some(Causes(causes, roots)));
    RefreshGraph(SetCall(s, k, call, Some(Causes(causes, roots))), seqNo);
  }

  lemma RefreshGraph(s: State, seqNo: nat)
    requires GraphInv(s)
    ensures GraphInv(RefreshBlock(s).(lastSeq := seqNo))
  {
    hide MirrorOk, NodesHome, RunsOk, ParentsOk, ListsExactly, Unknowns;
  }

  lemma ReconciledKeeps(s: State, seqNo: nat, ref: CallRef, outcome: Outcome, note: string)
    requires Inv(s) && s.lastSeq <= seqNo && ApplyReconciled(s, seqNo, ref, outcome, note).Ok?
    ensures Inv(ApplyReconciled(s, seqNo, ref, outcome, note).value.(lastSeq := seqNo))
  {
    hide CallInv, GraphInv, SetCall, RefreshBlock;
    var k := Resolve(s, ref).value;
    var call := s.calls[k].(status := outcome.Status(), finishedSeq := Some(seqNo), note := Some(note));
    SetCallKeeps(s, seqNo, k, call, None);
    SetCallGraph(s, k, call, None);
    RefreshGraph(SetCall(s, k, call, None), seqNo);
  }

  lemma NodePlannedKeeps(s: State, seqNo: nat, run: string, node: string, ordinal: nat, name: string, deps: seq<string>)
    requires Inv(s) && s.lastSeq <= seqNo && ApplyNodePlanned(s, seqNo, run, node, ordinal, name, deps).Ok?
    ensures Inv(ApplyNodePlanned(s, seqNo, run, node, ordinal, name, deps).value.(lastSeq := seqNo))
  {
    var call := ToolCall(node, node, s.active.value, name, Requested, None, seqNo, None, FromCode(run, s.runs[run].parent, ordinal), None, None);
    AddCallKeeps(s, seqNo, call);
    AddNodeGraph(s, node, CodeNode(run, ordinal, deps, Requested, [], []), call);
  }

  lemma RunStartedKeeps(s: State, seqNo: nat, run: string, turn: string, parent: string)
    requires Inv(s) && s.lastSeq <= seqNo && ApplyRunStarted(s, run, turn, parent).Ok?
    ensures Inv(ApplyRunStarted(s, run, turn, parent).value.(lastSeq := seqNo))
  {
    RunStartedGraph(s, run, turn, parent);
    hide GraphInv, CallsOk, TurnsOk, BlockOk, ListsExactly, IntentOk;
  }

  lemma RunStartedGraph(s: State, run: string, turn: string, parent: string)
    requires GraphInv(s) && ApplyRunStarted(s, run, turn, parent).Ok?
    ensures GraphInv(ApplyRunStarted(s, run, turn, parent).value)
  {
    hide ListsExactly, MirrorOk, NodesHome, RunsOk, ParentsOk;
    var fresh_ := CodeRun(turn, parent, RunActive, []);
    AppendExactly(s.runOrder, s.runs.Keys, run);
    assert s.runs[run := fresh_].Keys == s.runs.Keys + {run};
    NewRunFits(s.calls, s.nodes, s.runs, run, fresh_);
  }

  lemma NewRunFits(calls: Calls, nodes: Nodes, runs: Runs, run: string, fresh_: CodeRun)
    requires NodesHome(nodes, runs) && RunsOk(nodes, runs) && ParentsOk(calls, runs) && run !in runs
    requires fresh_.nodeIds == [] && fresh_.parent in calls && !calls[fresh_.parent].status.Requested? && fresh_.status.RunActive?
    ensures NodesHome(nodes, runs[run := fresh_]) && RunsOk(nodes, runs[run := fresh_]) && ParentsOk(calls, runs[run := fresh_])
  {
  }

  lemma RunFinishedGraph(s: State, run: string, status: RunStatus)
    requires GraphInv(s) && ApplyRunFinished(s, run, status).Ok?
    ensures GraphInv(ApplyRunFinished(s, run, status).value)
  {
    var runs := s.runs[run := s.runs[run].(status := status)];
    assert runs.Keys == s.runs.Keys;
    assert RunOk(s.nodes, run, s.runs[run]);
    assert RunOk(s.nodes, run, runs[run]);
  }

  lemma RunFinishedKeeps(s: State, seqNo: nat, run: string, status: RunStatus)
    requires Inv(s) && s.lastSeq <= seqNo && ApplyRunFinished(s, run, status).Ok?
    ensures Inv(ApplyRunFinished(s, run, status).value.(lastSeq := seqNo))
  {
    RunFinishedGraph(s, run, status);
  }

  lemma TurnStartedKeeps(s: State, seqNo: nat, turn: string)
    requires Inv(s) && s.lastSeq <= seqNo && ApplyTurnStarted(s, turn).Ok?
    ensures Inv(ApplyTurnStarted(s, turn).value.(lastSeq := seqNo))
  {
  }

  lemma TurnFinishedKeeps(s: State, seqNo: nat, turn: string, status: TurnStatus)
    requires Inv(s) && s.lastSeq <= seqNo && ApplyTurnFinished(s, turn, status).Ok?
    ensures Inv(ApplyTurnFinished(s, turn, status).value.(lastSeq := seqNo))
  {
    forall k | k in s.calls ensures !s.calls[k].status.IsUnsettled() {
    }
  }

  lemma IntentKeeps(s: State, seqNo: nat, turn: string, action: Action, reason: string)
    requires Inv(s) && s.lastSeq <= seqNo && ApplyIntent(s, turn, action, reason).Ok?
    ensures Inv(ApplyIntent(s, turn, action, reason).value.(lastSeq := seqNo))
  {
    if action.RecoverInterrupted? {
      forall k | k in s.calls ensures !s.calls[k].status.Started? && !s.calls[k].status.OutcomeUnknown? {
      }
    }
  }

  lemma CallFactKeeps(s: State, seqNo: nat, fact: Fact)
    requires Inv(s) && seqNo == s.lastSeq + 1 && fact.ChangesCalls() && HandleCallFact(s, seqNo, fact).Ok?
    ensures Inv(HandleCallFact(s, seqNo, fact).value.(lastSeq := seqNo))
  {
    hide Inv;
    match fact {
      case AssistantAccepted(claimed, _, docs) => AddCallsKeeps(s, seqNo, s.active.value, docs);
      case ApprovalDecided(ref, approved, scope) => ApprovalKeeps(s, seqNo, ref, approved, scope);
      case ToolStarted(ref) => ToolStartedKeeps(s, seqNo, ref);
      case ToolFinished(ref, status, result, blocked, _, causes, roots) => ToolFinishedKeeps(s, seqNo, ref, status, result, blocked, causes, roots);
      case ToolReconciled(ref, outcome, note, _) => ReconciledKeeps(s, seqNo, ref, outcome, note);
    }
  }

  lemma GraphFactKeeps(s: State, seqNo: nat, fact: Fact)
    requires Inv(s) && s.lastSeq <= seqNo && fact.ChangesGraph() && HandleGraphFact(s, seqNo, fact).Ok?
    ensures Inv(HandleGraphFact(s, seqNo, fact).value.(lastSeq := seqNo))
  {
    hide Inv;
    match fact {
      case CodeRunStarted(run, turn, parent) => RunStartedKeeps(s, seqNo, run, turn, parent);
      case CodeNodePlanned(run, node, ordinal, name, deps) => NodePlannedKeeps(s, seqNo, run, node, ordinal, name, deps);
      case CodeRunFinished(run, status) => RunFinishedKeeps(s, seqNo, run, status);
    }
  }

  lemma TurnFactKeeps(s: State, seqNo: nat, fact: Fact)
    requires Inv(s) && s.lastSeq <= seqNo && fact.ChangesTurns() && HandleTurnFact(s, fact).Ok?
    ensures Inv(HandleTurnFact(s, fact).value.(lastSeq := seqNo))
  {
    hide Inv;
    match fact {
      case TurnStarted(turn, _) => TurnStartedKeeps(s, seqNo, turn);
      case TurnRecoveryIntent(turn, action, reason) => IntentKeeps(s, seqNo, turn, action, reason);
      case TurnFinished(turn, status) => TurnFinishedKeeps(s, seqNo, turn, status);
    }
  }

  lemma OtherFactKeeps(s: State, seqNo: nat, fact: Fact)
    requires Inv(s) && s.lastSeq <= seqNo && !fact.ChangesCalls() && !fact.ChangesGraph() && !fact.ChangesTurns()
    requires HandleOtherFact(s, seqNo, fact).Ok?
    ensures Inv(HandleOtherFact(s, seqNo, fact).value.(lastSeq := seqNo))
  {
    OtherFactFrame(s, seqNo, fact);
    hide HandleOtherFact;
    hide CallsOk, TurnsOk, BlockOk, ListsExactly, IntentOk, MirrorOk, NodesHome, RunsOk, ParentsOk;
  }

  /** These facts touch neither calls, nor the graph, nor turns. */
  lemma OtherFactFrame(s: State, seqNo: nat, fact: Fact)
    requires !fact.ChangesCalls() && !fact.ChangesGraph() && !fact.ChangesTurns()
    requires HandleOtherFact(s, seqNo, fact).Ok?
    ensures var u := HandleOtherFact(s, seqNo, fact).value;
            && u == s.(created := u.created, checkpoint := u.checkpoint, planMode := u.planMode, approvalAlways := u.approvalAlways)
            && (s.created ==> u.created)
  {
    hide Conversation.Valid, Straddles, Blank, Unsettled;
  }

  /** The invariant survives every event the reducer accepts. */
  lemma StepKeeps(s: State, e: Event)
    requires Inv(s) && Step(s, e).Ok?
    ensures Inv(Step(s, e).value)
  {
    hide Inv, HandleCallFact, HandleGraphFact, HandleTurnFact, HandleOtherFact;
    if e.fact.ChangesCalls() {
      CallFactKeeps(s, e.seqNo, e.fact);
    } else if e.fact.ChangesGraph() {
      GraphFactKeeps(s, e.seqNo, e.fact);
    } else if e.fact.ChangesTurns() {
      TurnFactKeeps(s, e.seqNo, e.fact);
    } else {
      OtherFactKeeps(s, e.seqNo, e.fact);
    }
  }

  // ----- Calls and runs only move forward -----

  /** The verdicts of the user on an unknown outcome. */
  predicate IsVerdict(status: ToolStatus) { status in {UserConfirmedSuccess, UserConfirmedFailure, Abandoned} }

  /** What one accepted event may do to the status of a call. */
  predicate Transition(a: ToolStatus, b: ToolStatus) {
    || (a.Requested? && b.Started?)
    || a.MayFinishAs(b)
    || (a.OutcomeUnknown? && IsVerdict(b))
  }

  /** What a run may do: any number of transitions. */
  predicate Later(a: ToolStatus, b: ToolStatus) {
    || a == b || Transition(a, b)
    || (a.Requested? && Started.MayFinishAs(b))
    || (a.IsOpen() && IsVerdict(b))
  }

  /** `Later` is exactly that: a first transition, and more of them. */
  lemma LaterIsTransitions(a: ToolStatus, b: ToolStatus)
    ensures Later(a, b) <==> a == b || exists c :: Transition(a, c) && Later(c, b)
  {
    if Transition(a, b) {
      assert Later(b, b);
    } else if a.Requested? && (Started.MayFinishAs(b) || IsVerdict(b)) {
      assert Transition(a, Started) && Later(Started, b);
    } else if a.Started? && IsVerdict(b) {
      assert Transition(a, OutcomeUnknown) && Later(OutcomeUnknown, b);
    }
  }

  lemma LaterTransitive(a: ToolStatus, b: ToolStatus, c: ToolStatus)
    requires Later(a, b) && Later(b, c)
    ensures Later(a, c) && (a == c ==> b == a)
  {
  }

  /** Only the decision on a requested call may change while its status stays. */
  predicate Settled(a: ToolCall, b: ToolCall) {
    b == a || (a.status.Requested? && b == a.(approved := b.approved))
  }

  /** Calls stay, move forward, and carry the number of the event that gave them a result. */
  ghost predicate CallForward(a: ToolCall, b: ToolCall, lastSeq: nat) {
    && SameIdentity(a, b) && Later(a.status, b.status)
    && (a.status == b.status ==> Settled(a, b))
    && (a.status != b.status && b.status.IsTerminal() ==> b.finishedSeq.Some? && lastSeq < b.finishedSeq.value)
  }

  ghost predicate CallsForward(a: Calls, b: Calls, lastSeq: nat) {
    forall k :: k in a ==> k in b && CallForward(a[k], b[k], lastSeq)
  }

  /** One event moves a call by at most one transition. */
  ghost predicate CallsMove(a: Calls, b: Calls) {
    forall k :: k in a ==> k in b && (a[k].status == b[k].status || Transition(a[k].status, b[k].status))
  }

  ghost predicate RunsForward(a: Runs, b: Runs) {
    forall r :: r in a ==> r in b && a[r].nodeIds <= b[r].nodeIds && (!a[r].status.RunActive? ==> a[r] == b[r])
  }

  ghost predicate NodesFixed(a: Nodes, b: Nodes) {
    forall n :: n in a ==> n in b && a[n].dependencies == b[n].dependencies && a[n].ordinal == b[n].ordinal && a[n].run == b[n].run
  }

  ghost predicate Forward(s: State, t: State) {
    CallsForward(s.calls, t.calls, s.lastSeq) && RunsForward(s.runs, t.runs) && NodesFixed(s.nodes, t.nodes) && (s.created ==> t.created)
  }

  lemma {:induction false} AddCallsForward(s: State, seqNo: nat, turn: string, docs: seq<CallDoc>)
    requires AddCalls(s, seqNo, turn, docs).Ok?
    ensures var t := AddCalls(s, seqNo, turn, docs).value;
            CallsForward(s.calls, t.calls, s.lastSeq) && CallsMove(s.calls, t.calls) && t == s.(calls := t.calls, callOrder := t.callOrder)
  {
    if docs != [] { AddCallsForward(s, seqNo, turn, docs[..|docs| - 1]); }
  }

  lemma SetCallForward(s: State, k: string, call: ToolCall, causes: Option<Causes>)
    requires k in s.calls && SameIdentity(s.calls[k], call) && Transition(s.calls[k].status, call.status)
    requires call.status.IsTerminal() ==> call.finishedSeq.Some? && s.lastSeq < call.finishedSeq.value
    ensures Forward(s, SetCall(s, k, call, causes)) && CallsMove(s.calls, SetCall(s, k, call, causes).calls)
    ensures Forward(s, RefreshBlock(SetCall(s, k, call, causes))) && CallsMove(s.calls, RefreshBlock(SetCall(s, k, call, causes)).calls)
  {
    hide CallsForward, RunsForward, NodesFixed;
    OneCallForward(s.calls, k, call, s.lastSeq);
    OneNodeFixed(s, k, call, causes);
    RunsStay(s.runs);
  }

  lemma OneCallForward(calls: Calls, k: string, call: ToolCall, lastSeq: nat)
    requires k in calls && SameIdentity(calls[k], call) && Transition(calls[k].status, call.status)
    requires call.status.IsTerminal() ==> call.finishedSeq.Some? && lastSeq < call.finishedSeq.value
    ensures CallsForward(calls, calls[k := call], lastSeq) && CallsMove(calls, calls[k := call])
  {
  }

  lemma OneNodeFixed(s: State, k: string, call: ToolCall, causes: Option<Causes>)
    ensures NodesFixed(s.nodes, SetCall(s, k, call, causes).nodes)
  {
  }

  lemma RunsStay(runs: Runs)
    ensures RunsForward(runs, runs)
  {
  }

  lemma ApprovalForward(s: State, ref: CallRef, approved: bool, scope: Scope)
    requires CallInv(s) && ApplyApproval(s, ref, approved, scope).Ok?
    ensures Forward(s, ApplyApproval(s, ref, approved, scope).value) && CallsMove(s.calls, ApplyApproval(s, ref, approved, scope).value.calls)
  {
    assert s.calls[Resolve(s, ref).value].key == Resolve(s, ref).value;
  }

  lemma CallFactForward(s: State, seqNo: nat, fact: Fact)
    requires CallInv(s) && s.lastSeq < seqNo && fact.ChangesCalls() && HandleCallFact(s, seqNo, fact).Ok?
    ensures Forward(s, HandleCallFact(s, seqNo, fact).value) && CallsMove(s.calls, HandleCallFact(s, seqNo, fact).value.calls)
  {
    hide CallInv, Forward, SetCall, RefreshBlock, ApplyApproval;
    match fact {
      case AssistantAccepted(claimed, _, docs) =>
        AssistantForward(s, seqNo, claimed, docs);
      case ApprovalDecided(ref, approved, scope) =>
        ApprovalForward(s, ref, approved, scope);
      case ToolStarted(ref) =>
        var k := Resolve(s, ref).value;
        SetCallForward(s, k, s.calls[k].(status := Started), None);
      case ToolFinished(ref, status, result, _, _, causes, roots) =>
        var k := Resolve(s, ref).value;
        SetCallForward(s, k, s.calls[k].(status := status, finishedSeq := Some(seqNo), result := result), Some(Causes(causes, roots)));
      case ToolReconciled(ref, outcome, note, _) =>
        var k := Resolve(s, ref).value;
        SetCallForward(s, k, s.calls[k].(status := outcome.Status(), finishedSeq := Some(seqNo), note := Some(note)), None);
    }
  }

  lemma AssistantForward(s: State, seqNo: nat, claimed: Option<string>, docs: seq<CallDoc>)
    requires ApplyAssistant(s, seqNo, claimed, docs).Ok?
    ensures Forward(s, ApplyAssistant(s, seqNo, claimed, docs).value) && CallsMove(s.calls, ApplyAssistant(s, seqNo, claimed, docs).value.calls)
  {
    AddCallsForward(s, seqNo, s.active.value, docs);
  }

  lemma GraphFactForward(s: State, seqNo: nat, fact: Fact)
    requires fact.ChangesGraph() && HandleGraphFact(s, seqNo, fact).Ok?
    ensures Forward(s, HandleGraphFact(s, seqNo, fact).value) && CallsMove(s.calls, HandleGraphFact(s, seqNo, fact).value.calls)
  {
  }

  lemma TurnFactForward(s: State, fact: Fact)
    requires fact.ChangesTurns() && HandleTurnFact(s, fact).Ok?
    ensures Forward(s, HandleTurnFact(s, fact).value) && CallsMove(s.calls, HandleTurnFact(s, fact).value.calls)
  {
  }

  lemma OtherFactForward(s: State, seqNo: nat, fact: Fact)
    requires !fact.ChangesCalls() && !fact.ChangesGraph() && !fact.ChangesTurns()
    requires HandleOtherFact(s, seqNo, fact).Ok?
    ensures Forward(s, HandleOtherFact(s, seqNo, fact).value) && CallsMove(s.calls, HandleOtherFact(s, seqNo, fact).value.calls)
  {
    OtherFactFrame(s, seqNo, fact);
    hide HandleOtherFact;
  }

  /** Each accepted event moves a call only along the allowed transitions. */
  lemma StepAdvances(s: State, e: Event)
    requires Inv(s) && Step(s, e).Ok?
    ensures Forward(s, Step(s, e).value) && CallsMove(s.calls, Step(s, e).value.calls)
  {
    hide CallInv, GraphInv, HandleCallFact, HandleGraphFact, HandleTurnFact, HandleOtherFact;
    if e.fact.ChangesCalls() {
      CallFactForward(s, e.seqNo, e.fact);
    } else if e.fact.ChangesGraph() {
      GraphFactForward(s, e.seqNo, e.fact);
    } else if e.fact.ChangesTurns() {
      TurnFactForward(s, e.fact);
    } else {
      OtherFactForward(s, e.seqNo, e.fact);
    }
  }

  lemma {:induction false} ReachableInv(log: seq<Event>)
    requires Replay(EMPTY, log).Ok?
    ensures Inv(Replay(EMPTY, log).value)
  {
    if log != [] {
      ReachableInv(log[..|log| - 1]);
      StepKeeps(Replay(EMPTY, log[..|log| - 1]).value, log[|log| - 1]);
    }
  }

  lemma ForwardTransitive(s: State, t: State, u: State)
    requires Forward(s, t) && Forward(t, u) && s.lastSeq <= t.lastSeq
    ensures Forward(s, u)
  {
    forall k | k in s.calls ensures k in u.calls && CallForward(s.calls[k], u.calls[k], s.lastSeq) {
      LaterTransitive(s.calls[k].status, t.calls[k].status, u.calls[k].status);
    }
    hide Later;
    assert RunsForward(s.runs, u.runs);
    assert NodesFixed(s.nodes, u.nodes);
  }

  lemma {:induction false} RunKeeps(s: State, log: seq<Event>)
    requires Inv(s) && Replay(s, log).Ok?
    ensures Inv(Replay(s, log).value)
    ensures Forward(s, Replay(s, log).value)
    ensures Replay(s, log).value.lastSeq == s.lastSeq + |log|
  {
    if log != [] {
      RunKeeps(s, log[..|log| - 1]);
      var t := Replay(s, log[..|log| - 1]).value;
      StepKeeps(t, log[|log| - 1]);
      StepAdvances(t, log[|log| - 1]);
      hide Inv, Forward, Handle;
      ForwardTransitive(s, t, Replay(s, log).value);
    }
  }

  /** A settled call stays exactly as it is through any later run, with its result and the number of its finish. */
  lemma SettledForever(s: State, log: seq<Event>, k: string)
    requires Inv(s) && Replay(s, log).Ok?
    requires k in s.calls && s.calls[k].status.IsTerminal() && !s.calls[k].status.OutcomeUnknown?
    ensures k in Replay(s, log).value.calls && Replay(s, log).value.calls[k] == s.calls[k]
  {
    RunKeeps(s, log);
  }

  /** A finished code run gains no node, and every node of it stays finished. */
  lemma FinishedRunForever(s: State, log: seq<Event>, r: string, i: nat)
    requires Inv(s) && Replay(s, log).Ok?
    requires r in s.runs && !s.runs[r].status.RunActive?
    ensures var t := Replay(s, log).value;
            r in t.runs && t.runs[r] == s.runs[r]
            && (i < |t.runs[r].nodeIds| ==> t.runs[r].nodeIds[i] in t.nodes && t.nodes[t.runs[r].nodeIds[i]].status.IsTerminal())
  {
    RunKeeps(s, log);
    assert RunOk(Replay(s, log).value.nodes, r, s.runs[r]);
  }

  ghost predicate Path(nodes: Nodes, path: seq<string>) {
    && |path| >= 1
    && (forall i :: 0 <= i < |path| ==> path[i] in nodes)
    && (forall i :: 0 <= i < |path| - 1 ==> path[i + 1] in nodes[path[i]].dependencies)
  }

  /** Where a node stands in the planning order of its run. */
  lemma {:induction false} PathDescends(s: State, path: seq<string>)
    requires Inv(s) && Path(s.nodes, path)
    ensures s.nodes[path[|path| - 1]].run == s.nodes[path[0]].run
    ensures forall i :: 0 <= i < |s.runs[s.nodes[path[0]].run].nodeIds| && s.runs[s.nodes[path[0]].run].nodeIds[i] == path[0] && |path| > 1 ==>
              path[|path| - 1] in s.runs[s.nodes[path[0]].run].nodeIds[..i]
  {
    hide CallInv, MirrorOk, ParentsOk, ListsExactly;
    if |path| > 1 {
      var r := s.nodes[path[0]].run;
      var ids := s.runs[r].nodeIds;
      assert RunOk(s.nodes, r, s.runs[r]);
      var at :| 0 <= at < |ids| && ids[at] == path[0];
      assert path[1] in s.nodes[path[0]].dependencies;
      assert path[1] in ids[..at];
      var next :| 0 <= next < at && ids[next] == path[1];
      PathDescends(s, path[1..]);
      assert path[1..][|path| - 2] == path[|path| - 1];
      if |path| > 2 {
        assert path[|path| - 1] in ids[..next];
        assert forall x :: x in ids[..next] ==> x in ids[..at];
      }
    }
  }

  /** The dependency graph of every reachable session is acyclic. */
  lemma GraphIsAcyclic(s: State, path: seq<string>)
    requires Inv(s) && Path(s.nodes, path) && |path| > 1
    ensures path[0] != path[|path| - 1]
  {
    PathDescends(s, path);
    var ids := s.runs[s.nodes[path[0]].run].nodeIds;
    assert RunOk(s.nodes, s.nodes[path[0]].run, s.runs[s.nodes[path[0]].run]);
    var at :| 0 <= at < |ids| && ids[at] == path[0];
    assert path[|path| - 1] in ids[..at];
  }

  /** An abandoned turn with an open call is stuck: nothing that may follow closes the call or the turn. */
  lemma {:induction false} AbandonTrap(s: State, log: seq<Event>, k: string)
    requires Inv(s) && Replay(s, log).Ok?
    requires s.intent.Some? && s.intent.value.action.Abandon?
    requires k in s.calls && s.calls[k].status.IsOpen()
    ensures SameHold(s, Replay(s, log).value, k)
  {
    if log != [] {
      var front := log[..|log| - 1];
      AbandonTrap(s, front, k);
      RunKeeps(s, front);
      AbandonTrapStep(Replay(s, front).value, log[|log| - 1], k);
    }
  }

  ghost predicate SameHold(s: State, t: State, k: string)
    requires k in s.calls
  {
    t.active == s.active && t.intent == s.intent && k in t.calls && t.calls[k].status == s.calls[k].status
  }

  lemma CallFactUnderAbandon(s: State, seqNo: nat, fact: Fact, k: string)
    requires fact.ChangesCalls() && HandleCallFact(s, seqNo, fact).Ok?
    requires s.intent.Some? && s.intent.value.action.Abandon? && k in s.calls && s.calls[k].status.IsOpen()
    ensures SameHold(s, HandleCallFact(s, seqNo, fact).value, k)
  {
    assert fact.ToolReconciled?;
  }

  lemma GraphFactHolds(s: State, seqNo: nat, fact: Fact, k: string)
    requires fact.ChangesGraph() && HandleGraphFact(s, seqNo, fact).Ok? && k in s.calls
    ensures SameHold(s, HandleGraphFact(s, seqNo, fact).value, k)
  {
  }

  lemma TurnFactUnderIntent(s: State, fact: Fact, k: string)
    requires fact.ChangesTurns() && s.intent.Some? && k in s.calls && s.calls[k].status.IsOpen()
    requires IntentOk(s.intent, s.calls, s.active) && CallsOk(s.calls, s.active)
    ensures HandleTurnFact(s, fact).Err?
  {
    assert s.calls[k].status.IsUnsettled();
    assert OpenCallIn(s, s.active.value);
  }

  lemma OtherFactHolds(s: State, seqNo: nat, fact: Fact, k: string)
    requires !fact.ChangesCalls() && !fact.ChangesGraph() && !fact.ChangesTurns()
    requires HandleOtherFact(s, seqNo, fact).Ok? && k in s.calls
    ensures SameHold(s, HandleOtherFact(s, seqNo, fact).value, k)
  {
  }

  lemma AbandonTrapStep(s: State, e: Event, k: string)
    requires Inv(s) && Step(s, e).Ok?
    requires s.intent.Some? && s.intent.value.action.Abandon?
    requires k in s.calls && s.calls[k].status.IsOpen()
    ensures SameHold(s, Step(s, e).value, k)
  {
    hide HandleCallFact, HandleGraphFact, HandleTurnFact, HandleOtherFact;
    if e.fact.ChangesCalls() {
      CallFactUnderAbandon(s, e.seqNo, e.fact, k);
    } else if e.fact.ChangesGraph() {
      GraphFactHolds(s, e.seqNo, e.fact, k);
    } else if e.fact.ChangesTurns() {
      TurnFactUnderIntent(s, e.fact, k);
    } else {
      OtherFactHolds(s, e.seqNo, e.fact, k);
    }
  }
}
