/**
 The mutable session state.  Each handler updates the fields in place, and is proved to do
 exactly what the corresponding function of `Reducer` says.
 */
module Sessions {
  import opened Domain
  import R = Reducer
  import Conversation
  import ReducerInvariant

  /** The method either did what the function says, or refused and left everything alone. */
  ghost predicate Follows(spec: R.Applied, before: State, after: State, refusal: Option<Refusal>) {
    match spec
    case Ok(t) => refusal.None? && after == t
    case Err(x) => refusal == Some(x) && after == before
  }

  /** Recording has stopped at the first call whose key was taken, with all calls before it recorded. */
  ghost predicate StoppedAt(before: State, after: State, seqNo: nat, turn: string, docs: seq<CallDoc>) {
    var n := |after.callOrder| - |before.callOrder|;
    && 0 <= n < |docs| && R.AddCalls(before, seqNo, turn, docs[..n]) == Ok(after)
    && ModelKey(seqNo, docs[n].id) in after.calls
  }

  /** The calls before the first one with a taken key were recorded, although the batch was refused. */
  ghost predicate HalfRecorded(before: State, after: State, seqNo: nat, fact: Fact) {
    fact.AssistantAccepted? && before.active.Some? && StoppedAt(before, after, seqNo, before.active.value, fact.calls)
  }

  class SessionState {
    var created: bool
    var lastSeq: nat
    var active: Option<string>
    var turns: map<string, TurnStatus>
    var callOrder: seq<string>
    var calls: map<string, ToolCall>
    var runOrder: seq<string>
    var runs: map<string, CodeRun>
    var nodes: map<string, CodeNode>
    var checkpoint: Option<Checkpoint>
    var intent: Option<Intent>
    var blocked: bool
    var planMode: bool
    var approvalAlways: bool

    /** The fields as one value. */
    function Abs(): State
      reads this
    {
      State(created, lastSeq, active, turns, callOrder, calls, runOrder, runs, nodes, checkpoint, intent, blocked, planMode, approvalAlways)
    }

    ghost predicate Valid()
      reads this
    {
      ReducerInvariant.ListsExactly(callOrder, calls.Keys) && (active.Some? ==> active.value in turns)
    }

    constructor ()
      ensures Abs() == EMPTY
    {
      created, lastSeq, active, turns := false, 0, None, map[];
      callOrder, calls, runOrder, runs, nodes := [], map[], [], map[], map[];
      checkpoint, intent, blocked, planMode, approvalAlways := None, None, false, false, false;
    }

    /** The calls of the active turn with this provider id. */
    method FindById(id: string) returns (matches: seq<string>)
      requires Valid()
      ensures Distinct(matches) && forall k :: R.Named(Abs(), id, k) <==> k in matches
    {
      matches := [];
      for i := 0 to |callOrder|
        invariant forall j :: 0 <= j < |matches| ==> R.Named(Abs(), id, matches[j])
        invariant forall j :: 0 <= j < i && R.Named(Abs(), id, callOrder[j]) ==> callOrder[j] in matches
        invariant Distinct(matches) && forall j :: 0 <= j < |matches| ==> matches[j] in callOrder[..i]
      {
        if active == Some(calls[callOrder[i]].turn) && calls[callOrder[i]].providerId == id {
          matches := matches + [callOrder[i]];
        }
      }
    }

    method CallForActiveTurn(ref: CallRef) returns (r: Result<string, Refusal>)
      requires Valid()
      ensures r == R.Resolve(Abs(), ref)
    {
      if active.None? { return Err(NoActiveTurn); }
      if ref.key.Some? {
        var key := ref.key.value;
        if key == "" { return Err(EmptyCallId); }
        if key !in calls { return Err(UnknownCall); }
        if ref.id.Some? && ref.id.value != calls[key].providerId { return Err(CallMismatch); }
        if calls[key].turn != active.value { return Err(ForeignTurn); }
        return Ok(key);
      }
      if ref.id.None? || ref.id.value == "" { return Err(EmptyCallId); }
      var id := ref.id.value;
      hide R.Named;
      var matches := FindById(id);
      if |matches| == 0 { return Err(UnknownCall); }
      if |matches| != 1 {
        assert R.Named(Abs(), id, matches[0]) && R.Named(Abs(), id, matches[1]);
        return Err(AmbiguousCall);
      }
      assert R.OnlyNamed(Abs(), id, matches[0]);
      r := Ok(matches[0]);
    }

    method RefreshRecoveryBlock()
      requires Valid()
      modifies `blocked, `turns
      ensures Abs() == R.RefreshBlock(old(Abs())) && Valid()
    {
      var unknown := exists k :: k in calls && calls[k].status.OutcomeUnknown?;
      blocked := unknown;
      if active.Some? {
        turns := turns[active.value := if unknown then RecoveryBlocked else Active];
      }
    }

    /** Replace a call; a code call's node mirrors it. */
    method Store(key: string, call: ToolCall, causes: Option<R.Causes>)
      requires Valid() && key in calls
      modifies `calls, `nodes
      ensures Abs() == R.SetCall(old(Abs()), key, call, causes) && Valid()
    {
      ReducerInvariant.SetExactly(callOrder, calls, key, call);
      calls := calls[key := call];
      if call.origin.FromCode? && key in nodes {
        nodes := nodes[key := R.Mirror(nodes[key], call.status, causes)];
      }
    }

    method ApplyTurnStarted(turn: string) returns (refusal: Option<Refusal>)
      modifies `active, `turns
      ensures Follows(R.ApplyTurnStarted(old(Abs()), turn), old(Abs()), Abs(), refusal)
      ensures refusal != Some(DuplicateCallKey)
    {
      if active.Some? { return Some(TurnStillActive); }
      if turn in turns { return Some(TurnReused); }
      active, turns := Some(turn), turns[turn := Active];
      return None;
    }

    /** A key that is already taken is noticed only after earlier calls of the batch were recorded. */
    method RecordCalls(seqNo: nat, turn: string, docs: seq<CallDoc>) returns (refusal: Option<Refusal>)
      requires Valid()
      modifies `calls, `callOrder
      ensures refusal != Some(DuplicateCallKey) ==> Follows(R.AddCalls(old(Abs()), seqNo, turn, docs), old(Abs()), Abs(), refusal)
      ensures refusal == Some(DuplicateCallKey) ==>
                R.AddCalls(old(Abs()), seqNo, turn, docs) == Err(DuplicateCallKey)
                && StoppedAt(old(Abs()), Abs(), seqNo, turn, docs)
    {
      ghost var before := Abs();
      for i := 0 to |docs|
        invariant Valid()
        invariant R.AddCalls(before, seqNo, turn, docs[..i]) == Ok(Abs()) && |callOrder| == |before.callOrder| + i
      {
        assert docs[..i + 1][..i] == docs[..i];
        var call := R.ModelCall(seqNo, turn, docs[i]);
        if call.key in calls {
          TakenKeyRefuses(before, seqNo, turn, docs, i + 1);
          return Some(DuplicateCallKey);
        }
        ReducerInvariant.SetExactly(callOrder, calls, call.key, call);
        calls, callOrder := calls[call.key := call], callOrder + [call.key];
      }
      assert docs[..|docs|] == docs;
      return None;
    }

    method ApplyAssistant(seqNo: nat, claimed: Option<string>, docs: seq<CallDoc>) returns (refusal: Option<Refusal>)
      requires Valid()
      modifies `calls, `callOrder
      ensures refusal != Some(DuplicateCallKey) ==>
                Follows(R.ApplyAssistant(old(Abs()), seqNo, claimed, docs), old(Abs()), Abs(), refusal)
      ensures refusal == Some(DuplicateCallKey) ==>
                R.ApplyAssistant(old(Abs()), seqNo, claimed, docs) == Err(DuplicateCallKey)
                && old(active).Some?
                && StoppedAt(old(Abs()), Abs(), seqNo, old(active.value), docs)
    {
      if active.None? { return Some(NoActiveTurn); }
      if intent.Some? { return Some(IntentPending); }
      if blocked { return Some(RecoveryIsBlocked); }
      if exists k :: k in calls && calls[k].turn == active.value && calls[k].status.IsOpen() { return Some(UnresolvedCalls); }
      if claimed.Some? && claimed.value != active.value { return Some(ForeignTurn); }
      if exists i :: 0 <= i < |docs| && docs[i].id == "" { return Some(EmptyCallId); }
      if !Conversation.DistinctIds(docs) { return Some(DuplicateCallId); }
      if !Conversation.WellFormedCalls(docs) { return Some(EmptyName); }
      refusal := RecordCalls(seqNo, active.value, docs);
    }

    method ApplyApproval(ref: CallRef, approved: bool, scope: Scope) returns (refusal: Option<Refusal>)
      requires Valid()
      modifies `calls, `approvalAlways
      ensures Follows(R.ApplyApproval(old(Abs()), ref, approved, scope), old(Abs()), Abs(), refusal)
      ensures refusal != Some(DuplicateCallKey)
    {
      if intent.Some? { return Some(IntentPending); }
      var r := CallForActiveTurn(ref);
      if r.Err? { return Some(r.error); }
      var call := calls[r.value];
      if !call.status.Requested? { return Some(TooLate); }
      if call.approved.Some? { return Some(AlreadyDecided); }
      if scope.WholeSession? && !approved { return Some(ScopeWithoutApproval); }
      calls := calls[call.key := call.(approved := Some(approved))];
      if scope.WholeSession? { approvalAlways := true; }
      return None;
    }

    method ApplyToolStarted(ref: CallRef) returns (refusal: Option<Refusal>)
      requires Valid()
      modifies `calls, `nodes
      ensures Follows(R.ApplyToolStarted(old(Abs()), ref), old(Abs()), Abs(), refusal)
      ensures refusal != Some(DuplicateCallKey)
    {
      if intent.Some? { return Some(IntentPending); }
      var r := CallForActiveTurn(ref);
      if r.Err? { return Some(r.error); }
      var call := calls[r.value];
      if !call.status.Requested? { return Some(NotRequested); }
      if call.approved == Some(false) { return Some(CallDenied); }
      Store(r.value, call.(status := Started), None);
      return None;
    }

    method ApplyToolFinished(seqNo: nat, ref: CallRef, status: ToolStatus, result: Option<string>, isBlocked: bool,
                             blockedBy: seq<string>, roots: seq<string>)
      returns (refusal: Option<Refusal>)
      requires Valid()
      modifies `calls, `nodes, `blocked, `turns
      ensures Follows(R.ApplyToolFinished(old(Abs()), seqNo, ref, status, result, isBlocked, blockedBy, roots), old(Abs()), Abs(), refusal)
      ensures refusal != Some(DuplicateCallKey)
    {
      var r := CallForActiveTurn(ref);
      if r.Err? { return Some(r.error); }
      var call := calls[r.value];
      if call.status.IsTerminal() { return Some(AlreadyTerminal); }
      if intent.Some? && (!intent.value.action.RecoverInterrupted? || !status.NotExecuted?) { return Some(IntentMismatch); }
      if !call.status.MayFinishAs(status) { return Some(BadTransition); }
      if isBlocked != status.OutcomeUnknown? { return Some(BlockedFlagMismatch); }
      Store(r.value, call.(status := status, finishedSeq := Some(seqNo), result := result), Some(R.Causes(blockedBy, roots)));
      RefreshRecoveryBlock();
      return None;
    }

    method ApplyReconciled(seqNo: nat, ref: CallRef, outcome: Outcome, note: string) returns (refusal: Option<Refusal>)
      requires Valid()
      modifies `calls, `nodes, `blocked, `turns
      ensures Follows(R.ApplyReconciled(old(Abs()), seqNo, ref, outcome, note), old(Abs()), Abs(), refusal)
      ensures refusal != Some(DuplicateCallKey)
    {
      var r := CallForActiveTurn(ref);
      if r.Err? { return Some(r.error); }
      var call := calls[r.value];
      if !call.status.OutcomeUnknown? { return Some(NotUnknown); }
      if intent.Some? && (!intent.value.action.Abandon? || !outcome.GiveUp?) { return Some(IntentMismatch); }
      Store(r.value, call.(status := outcome.Status(), finishedSeq := Some(seqNo), note := Some(note)), None);
      RefreshRecoveryBlock();
      return None;
    }

    method ApplyCallFact(seqNo: nat, fact: Fact) returns (refusal: Option<Refusal>)
      requires Valid() && fact.ChangesCalls()
      modifies `calls, `callOrder, `nodes, `blocked, `turns, `approvalAlways
      ensures refusal != Some(DuplicateCallKey) ==> Follows(R.HandleCallFact(old(Abs()), seqNo, fact), old(Abs()), Abs(), refusal)
      ensures refusal == Some(DuplicateCallKey) ==> R.HandleCallFact(old(Abs()), seqNo, fact) == Err(DuplicateCallKey)
      ensures refusal == Some(DuplicateCallKey) ==> HalfRecorded(old(Abs()), Abs(), seqNo, fact)
    {
      hide R.ApplyAssistant, R.ApplyApproval, R.ApplyToolStarted, R.ApplyToolFinished, R.ApplyReconciled;
      match fact {
        case AssistantAccepted(claimed, _, docs) => refusal := ApplyAssistant(seqNo, claimed, docs);
        case ApprovalDecided(ref, approved, scope) => refusal := ApplyApproval(ref, approved, scope);
        case ToolStarted(ref) => refusal := ApplyToolStarted(ref);
        case ToolFinished(ref, status, result, isBlocked, _, blockedBy, roots) =>
          refusal := ApplyToolFinished(seqNo, ref, status, result, isBlocked, blockedBy, roots);
        case ToolReconciled(ref, outcome, note, _) => refusal := ApplyReconciled(seqNo, ref, outcome, note);
      }
    }

    method ApplyGraphFact(seqNo: nat, fact: Fact) returns (refusal: Option<Refusal>)
      requires fact.ChangesGraph()
      modifies `calls, `callOrder, `nodes, `runs, `runOrder
      ensures Follows(R.HandleGraphFact(old(Abs()), seqNo, fact), old(Abs()), Abs(), refusal)
      ensures refusal != Some(DuplicateCallKey)
    {
      match fact {
        case CodeRunStarted(run, turn, parent) =>
          if active.None? { return Some(NoActiveTurn); }
          if run in runs { return Some(RunExists); }
          if turn != active.value { return Some(ForeignTurn); }
          if parent !in calls || calls[parent].turn != turn || calls[parent].name != "run_code" { return Some(BadParent); }
          if !calls[parent].status.Started? { return Some(BadParent); }
          runs, runOrder := runs[run := CodeRun(turn, parent, RunActive, [])], runOrder + [run];
        case CodeNodePlanned(run, node, ordinal, name, deps) =>
          refusal := ApplyNodePlanned(seqNo, run, node, ordinal, name, deps);
          return;
        case CodeRunFinished(run, status) =>
          if run !in runs || !runs[run].status.RunActive? { return Some(RunNotActive); }
          if exists i :: 0 <= i < |runs[run].nodeIds| && runs[run].nodeIds[i] in nodes && nodes[runs[run].nodeIds[i]].status.IsOpen() {
            return Some(UnfinishedNodes);
          }
          if status.RunActive? { return Some(NotTerminalStatus); }
          runs := runs[run := runs[run].(status := status)];
      }
      return None;
    }

    method ApplyNodePlanned(seqNo: nat, run: string, node: string, ordinal: nat, name: string, deps: seq<string>)
      returns (refusal: Option<Refusal>)
      modifies `calls, `callOrder, `nodes, `runs
      ensures Follows(R.ApplyNodePlanned(old(Abs()), seqNo, run, node, ordinal, name, deps), old(Abs()), Abs(), refusal)
      ensures refusal != Some(DuplicateCallKey)
    {
      if active.None? { return Some(NoActiveTurn); }
      if run !in runs || !runs[run].status.RunActive? { return Some(RunNotActive); }
      if node == "" { return Some(EmptyCallId); }
      if node in nodes || node in calls { return Some(NodeIdUsed); }
      if ordinal < 1 { return Some(BadOrdinal); }
      var r := runs[run];
      if exists i :: 0 <= i < |r.nodeIds| && r.nodeIds[i] in nodes && nodes[r.nodeIds[i]].ordinal == ordinal { return Some(OrdinalUsed); }
      if !Distinct(deps) { return Some(DuplicateDependency); }
      if node in deps { return Some(SelfDependency); }
      if exists i :: 0 <= i < |deps| && (deps[i] !in nodes || nodes[deps[i]].run != run) { return Some(UnknownDependency); }
      if name == "" { return Some(EmptyName); }
      nodes := nodes[node := CodeNode(run, ordinal, deps, Requested, [], [])];
      runs := runs[run := r.(nodeIds := r.nodeIds + [node])];
      calls := calls[node := ToolCall(node, node, active.value, name, Requested, None, seqNo, None, FromCode(run, r.parent, ordinal), None, None)];
      callOrder := callOrder + [node];
      return None;
    }

    method ApplyIntent(turn: string, action: Action, reason: string) returns (refusal: Option<Refusal>)
      modifies `intent
      ensures Follows(R.ApplyIntent(old(Abs()), turn, action, reason), old(Abs()), Abs(), refusal)
      ensures refusal != Some(DuplicateCallKey)
    {
      if active.None? { return Some(NoActiveTurn); }
      if turn != active.value { return Some(ForeignTurn); }
      if intent.Some? { return Some(IntentPending); }
      if action.RecoverInterrupted? {
        if !exists k :: k in calls && calls[k].turn == turn && calls[k].status == Requested { return Some(NothingToRecover); }
        if exists k :: k in calls && calls[k].turn == turn && (calls[k].status == Started || calls[k].status == OutcomeUnknown) {
          return Some(UncertainCall);
        }
      } else if !exists k :: k in calls && calls[k].turn == turn && calls[k].status == OutcomeUnknown {
        return Some(NothingUnknown);
      }
      intent := Some(Intent(action, reason));
      return None;
    }

    /** Whether a call of the turn is open. */
    predicate OpenIn(turn: string)
      reads this
      ensures OpenIn(turn) <==> R.OpenCallIn(Abs(), turn)
    {
      exists k :: k in calls && calls[k].turn == turn && !calls[k].status.IsTerminal()
    }

    method ApplyTurnFinished(turn: string, status: TurnStatus) returns (refusal: Option<Refusal>)
      modifies `active, `turns, `blocked, `intent
      ensures Follows(R.ApplyTurnFinished(old(Abs()), turn, status), old(Abs()), Abs(), refusal)
      ensures refusal != Some(DuplicateCallKey)
    {
      hide OpenIn, R.OpenCallIn;
      if active.None? { return Some(NoActiveTurn); }
      if blocked { return Some(RecoveryIsBlocked); }
      if turn != active.value { return Some(ForeignTurn); }
      if !status.IsTerminal() { return Some(NotTerminalStatus); }
      if intent.Some? {
        var expected := if intent.value.action.RecoverInterrupted? then TurnInterrupted else TurnAbandoned;
        if status != expected { return Some(IntentMismatch); }
      }
      if OpenIn(turn) { return Some(UnresolvedCalls); }
      turns, active, blocked, intent := turns[turn := status], None, false, None;
      return None;
    }

    method ApplyTurnFact(fact: Fact) returns (refusal: Option<Refusal>)
      requires fact.ChangesTurns()
      modifies `active, `turns, `blocked, `intent
      ensures Follows(R.HandleTurnFact(old(Abs()), fact), old(Abs()), Abs(), refusal)
      ensures refusal != Some(DuplicateCallKey)
    {
      hide R.ApplyTurnStarted, R.ApplyIntent, R.ApplyTurnFinished;
      match fact {
        case TurnStarted(turn, _) => refusal := ApplyTurnStarted(turn);
        case TurnRecoveryIntent(turn, action, reason) => refusal := ApplyIntent(turn, action, reason);
        case TurnFinished(turn, status) => refusal := ApplyTurnFinished(turn, status);
      }
    }

    method ApplyOtherFact(seqNo: nat, fact: Fact) returns (refusal: Option<Refusal>)
      requires !fact.ChangesCalls() && !fact.ChangesGraph() && !fact.ChangesTurns()
      modifies `created, `checkpoint, `planMode, `approvalAlways
      ensures Follows(R.HandleOtherFact(old(Abs()), seqNo, fact), old(Abs()), Abs(), refusal)
      ensures refusal != Some(DuplicateCallKey)
    {
      match fact {
        case SessionCreated =>
          if created { return Some(AlreadyCreated); }
          created := true;
        case SessionApprovalReset =>
          if intent.Some? { return Some(IntentPending); }
          approvalAlways := false;
        case CompactionCheckpoint(through, summary, replacement) =>
          if exists k :: k in calls && calls[k].status.IsUnsettled() { return Some(UnresolvedCalls); }
          if !(0 <= through < seqNo) { return Some(BadBoundary); }
          if exists k :: k in calls && calls[k].finishedSeq.Some? && calls[k].requestedSeq <= through < calls[k].finishedSeq.value {
            return Some(BadBoundary);
          }
          if R.Blank(summary) { return Some(EmptySummary); }
          var fault := Conversation.Validate(replacement);
          if fault.Some? || !Conversation.NoSystem(replacement) { return Some(BadConversation); }
          checkpoint := Some(Checkpoint(seqNo, through, summary, replacement));
        case FileFact =>
          if intent.Some? { return Some(IntentPending); }
          if active.None? { return Some(NoActiveTurn); }
        case SamplingFailed =>
          if intent.Some? { return Some(IntentPending); }
          if active.None? { return Some(NoActiveTurn); }
        case UndoFinished(turn) =>
          if turn !in turns { return Some(UnknownTurn); }
        case PlanModeSet(on) =>
          if intent.Some? { return Some(IntentPending); }
          planMode := on;
      }
      return None;
    }

    /** Validate one event against the state and apply it in place. */
    method Apply(e: Event) returns (refusal: Option<Refusal>)
      requires ReducerInvariant.Inv(Abs())
      modifies this
      ensures refusal != Some(DuplicateCallKey) ==> Follows(R.Step(old(Abs()), e), old(Abs()), Abs(), refusal)
      ensures refusal == Some(DuplicateCallKey) ==> R.Step(old(Abs()), e) == Err(DuplicateCallKey)
      ensures refusal == Some(DuplicateCallKey) ==> HalfRecorded(old(Abs()), Abs(), e.seqNo, e.fact)
    {
      hide R.HandleCallFact, R.HandleGraphFact, R.HandleTurnFact, R.HandleOtherFact, HalfRecorded;
      if e.seqNo != lastSeq + 1 { return Some(WrongSequence); }
      if !created && !e.fact.SessionCreated? { return Some(NotCreated); }
      if e.fact.ChangesCalls() {
        refusal := ApplyCallFact(e.seqNo, e.fact);
      } else if e.fact.ChangesGraph() {
        refusal := ApplyGraphFact(e.seqNo, e.fact);
      } else if e.fact.ChangesTurns() {
        refusal := ApplyTurnFact(e.fact);
      } else {
        refusal := ApplyOtherFact(e.seqNo, e.fact);
      }
      if refusal.None? { lastSeq := e.seqNo; }
    }
  }

  lemma {:induction false} TakenKeyRefuses(s: State, seqNo: nat, turn: string, docs: seq<CallDoc>, n: nat)
    requires n <= |docs| && R.AddCalls(s, seqNo, turn, docs[..n]) == Err(DuplicateCallKey)
    ensures R.AddCalls(s, seqNo, turn, docs) == Err(DuplicateCallKey)
    decreases |docs| - n
  {
    if n == |docs| {
      assert docs[..n] == docs;
    } else {
      assert docs[..n + 1][..n] == docs[..n];
      TakenKeyRefuses(s, seqNo, turn, docs, n + 1);
    }
  }
}
