/**
 The session reducer as a function: `Step` gives the state after one accepted event, or the
 reason for refusing it.  One function per event handler.
 */
module Reducer {
  import opened Domain
  import Conversation

  type Applied = Result<State, Refusal>

  // ----- Questions that several handlers ask -----

  ghost predicate Unknowns(s: State) {
    exists k :: k in s.calls && s.calls[k].status.OutcomeUnknown?
  }

  ghost predicate OpenCallIn(s: State, turn: string) {
    exists k :: k in s.calls && s.calls[k].turn == turn && s.calls[k].status.IsOpen()
  }

  ghost predicate Unsettled(s: State) {
    exists k :: k in s.calls && s.calls[k].status.IsUnsettled()
  }

  predicate Named(s: State, id: string, k: string) {
    k in s.calls && s.active == Some(s.calls[k].turn) && s.calls[k].providerId == id
  }

  ghost predicate OnlyNamed(s: State, id: string, k: string) {
    Named(s, id, k) && forall j :: Named(s, id, j) ==> j == k
  }

  /** The call of the active turn that a tool fact speaks about. */
  ghost function Resolve(s: State, ref: CallRef): Result<string, Refusal> {
    if s.active.None? then Err(NoActiveTurn)
    else if ref.key.Some? then
      if ref.key.value == "" then Err(EmptyCallId)
      else if ref.key.value !in s.calls then Err(UnknownCall)
      else if ref.id.Some? && ref.id.value != s.calls[ref.key.value].providerId then Err(CallMismatch)
      else if s.calls[ref.key.value].turn != s.active.value then Err(ForeignTurn)
      else Ok(ref.key.value)
    else if ref.id.None? || ref.id.value == "" then Err(EmptyCallId)
    else if !exists k :: Named(s, ref.id.value, k) then Err(UnknownCall)
    else if !exists k :: OnlyNamed(s, ref.id.value, k) then Err(AmbiguousCall)
    else var k :| OnlyNamed(s, ref.id.value, k); Ok(k)
  }

  /** Recompute the block flag and the active turn's status from the call table. */
  ghost function RefreshBlock(s: State): State {
    s.(blocked := Unknowns(s),
       turns := if s.active.Some?
                then s.turns[s.active.value := if Unknowns(s) then RecoveryBlocked else Active]
                else s.turns)
  }

  // ----- Handlers -----

  function ApplyTurnStarted(s: State, turn: string): Applied {
    if s.active.Some? then Err(TurnStillActive)
    else if turn in s.turns then Err(TurnReused)
    else Ok(s.(active := Some(turn), turns := s.turns[turn := Active]))
  }

  function ModelCall(seqNo: nat, turn: string, doc: CallDoc): ToolCall {
    ToolCall(ModelKey(seqNo, doc.id), doc.id, turn, doc.name, Requested, None, seqNo, None, FromModel, None, None)
  }

  /** Record the requested calls one by one, refusing a key that is already taken. */
  function AddCalls(s: State, seqNo: nat, turn: string, docs: seq<CallDoc>): Applied {
    if docs == [] then Ok(s)
    else
      match AddCalls(s, seqNo, turn, docs[..|docs| - 1])
      case Err(e) => Err(e)
      case Ok(t) =>
        var call := ModelCall(seqNo, turn, docs[|docs| - 1]);
        if call.key in t.calls then Err(DuplicateCallKey)
        else Ok(t.(calls := t.calls[call.key := call], callOrder := t.callOrder + [call.key]))
  }

  ghost function AssistantRefusal(s: State, claimed: Option<string>, docs: seq<CallDoc>): Option<Refusal> {
    if s.active.None? then Some(NoActiveTurn)
    else if s.intent.Some? then Some(IntentPending)
    else if s.blocked then Some(RecoveryIsBlocked)
    else if OpenCallIn(s, s.active.value) then Some(UnresolvedCalls)
    else if claimed.Some? && claimed.value != s.active.value then Some(ForeignTurn)
    else if exists i :: 0 <= i < |docs| && docs[i].id == "" then Some(EmptyCallId)
    else if !Conversation.DistinctIds(docs) then Some(DuplicateCallId)
    else if !Conversation.WellFormedCalls(docs) then Some(EmptyName)
    else None
  }

  ghost function ApplyAssistant(s: State, seqNo: nat, claimed: Option<string>, docs: seq<CallDoc>): Applied {
    var refusal := AssistantRefusal(s, claimed, docs);
    if refusal.Some? then Err(refusal.value) else AddCalls(s, seqNo, s.active.value, docs)
  }

  ghost function ApplyApproval(s: State, ref: CallRef, approved: bool, scope: Scope): Applied {
    if s.intent.Some? then Err(IntentPending)
    else
      var r := Resolve(s, ref);
      if r.Err? then Err(r.error)
      else
        var call := s.calls[r.value];
        if !call.status.Requested? then Err(TooLate)
        else if call.approved.Some? then Err(AlreadyDecided)
        else if scope.WholeSession? && !approved then Err(ScopeWithoutApproval)
        else Ok(s.(calls := s.calls[call.key := call.(approved := Some(approved))],
                   approvalAlways := s.approvalAlways || scope.WholeSession?))
  }

  /** Replace a call and mirror its status, and the causes of a failure, in the code node behind it. */
  function SetCall(s: State, key: string, call: ToolCall, causes: Option<Causes>): State {
    s.(calls := s.calls[key := call],
       nodes := if call.origin.FromCode? && key in s.nodes
                then s.nodes[key := Mirror(s.nodes[key], call.status, causes)]
                else s.nodes)
  }

  datatype Causes = Causes(blockedBy: seq<string>, rootFailures: seq<string>)

  function Mirror(node: CodeNode, status: ToolStatus, causes: Option<Causes>): CodeNode {
    match causes
    case None => node.(status := status)
    case Some(c) => node.(status := status, blockedBy := c.blockedBy, rootFailures := c.rootFailures)
  }

  ghost function ApplyToolStarted(s: State, ref: CallRef): Applied {
    if s.intent.Some? then Err(IntentPending)
    else
      var r := Resolve(s, ref);
      if r.Err? then Err(r.error)
      else
        var call := s.calls[r.value];
        if !call.status.Requested? then Err(NotRequested)
        else if call.approved == Some(false) then Err(CallDenied)
        else Ok(SetCall(s, r.value, call.(status := Started), None))
  }

  ghost function ApplyToolFinished(s: State, seqNo: nat, ref: CallRef, status: ToolStatus, result: Option<string>, blocked: bool,
                                   blockedBy: seq<string>, roots: seq<string>): Applied {
    var r := Resolve(s, ref);
    if r.Err? then Err(r.error)
    else
      var call := s.calls[r.value];
      if call.status.IsTerminal() then Err(AlreadyTerminal)
      else if s.intent.Some? && !(s.intent.value.action.RecoverInterrupted? && status.NotExecuted?) then Err(IntentMismatch)
      else if !call.status.MayFinishAs(status) then Err(BadTransition)
      else if blocked != status.OutcomeUnknown? then Err(BlockedFlagMismatch)
      else Ok(RefreshBlock(SetCall(s, r.value, call.(status := status, finishedSeq := Some(seqNo), result := result), Some(Causes(blockedBy, roots)))))
  }

  function ApplyRunStarted(s: State, run: string, turn: string, parent: string): Applied {
    if s.active.None? then Err(NoActiveTurn)
    else if run in s.runs then Err(RunExists)
    else if turn != s.active.value then Err(ForeignTurn)
    else if parent !in s.calls || s.calls[parent].turn != turn || s.calls[parent].name != "run_code" then Err(BadParent)
    else if !s.calls[parent].status.Started? then Err(BadParent)
    else Ok(s.(runs := s.runs[run := CodeRun(turn, parent, RunActive, [])], runOrder := s.runOrder + [run]))
  }

  predicate OrdinalTaken(s: State, run: CodeRun, ordinal: nat) {
    exists i :: 0 <= i < |run.nodeIds| && run.nodeIds[i] in s.nodes && s.nodes[run.nodeIds[i]].ordinal == ordinal
  }

  predicate KnownDependencies(s: State, run: string, ids: seq<string>) {
    forall i :: 0 <= i < |ids| ==> ids[i] in s.nodes && s.nodes[ids[i]].run == run
  }

  function ApplyNodePlanned(s: State, seqNo: nat, run: string, node: string, ordinal: nat, name: string, deps: seq<string>): Applied {
    if s.active.None? then Err(NoActiveTurn)
    else if run !in s.runs || !s.runs[run].status.RunActive? then Err(RunNotActive)
    else if node == "" then Err(EmptyCallId)
    else if node in s.nodes || node in s.calls then Err(NodeIdUsed)
    else if ordinal < 1 then Err(BadOrdinal)
    else if OrdinalTaken(s, s.runs[run], ordinal) then Err(OrdinalUsed)
    else if !Distinct(deps) then Err(DuplicateDependency)
    else if node in deps then Err(SelfDependency)
    else if !KnownDependencies(s, run, deps) then Err(UnknownDependency)
    else if name == "" then Err(EmptyName)
    else
      var r := s.runs[run];
      Ok(s.(nodes := s.nodes[node := CodeNode(run, ordinal, deps, Requested, [], [])],
            runs := s.runs[run := r.(nodeIds := r.nodeIds + [node])],
            callOrder := s.callOrder + [node],
            calls := s.calls[node := ToolCall(node, node, s.active.value, name, Requested, None, seqNo, None,
                                              FromCode(run, r.parent, ordinal), None, None)]))
  }

  predicate NodesTerminal(s: State, run: CodeRun) {
    forall i :: 0 <= i < |run.nodeIds| && run.nodeIds[i] in s.nodes ==> s.nodes[run.nodeIds[i]].status.IsTerminal()
  }

  function ApplyRunFinished(s: State, run: string, status: RunStatus): Applied {
    if run !in s.runs || !s.runs[run].status.RunActive? then Err(RunNotActive)
    else if !NodesTerminal(s, s.runs[run]) then Err(UnfinishedNodes)
    else if status.RunActive? then Err(NotTerminalStatus)
    else Ok(s.(runs := s.runs[run := s.runs[run].(status := status)]))
  }

  ghost predicate CallWith(s: State, turn: string, status: ToolStatus) {
    exists k :: k in s.calls && s.calls[k].turn == turn && s.calls[k].status == status
  }

  ghost function ApplyIntent(s: State, turn: string, action: Action, reason: string): Applied {
    if s.active.None? then Err(NoActiveTurn)
    else if turn != s.active.value then Err(ForeignTurn)
    else if s.intent.Some? then Err(IntentPending)
    else if action.RecoverInterrupted? && !CallWith(s, turn, Requested) then Err(NothingToRecover)
    else if action.RecoverInterrupted? && (CallWith(s, turn, Started) || CallWith(s, turn, OutcomeUnknown)) then Err(UncertainCall)
    else if action.Abandon? && !CallWith(s, turn, OutcomeUnknown) then Err(NothingUnknown)
    else Ok(s.(intent := Some(Intent(action, reason))))
  }

  ghost function ApplyReconciled(s: State, seqNo: nat, ref: CallRef, outcome: Outcome, note: string): Applied {
    var r := Resolve(s, ref);
    if r.Err? then Err(r.error)
    else
      var call := s.calls[r.value];
      if !call.status.OutcomeUnknown? then Err(NotUnknown)
      else if s.intent.Some? && !(s.intent.value.action.Abandon? && outcome.GiveUp?) then Err(IntentMismatch)
      else Ok(RefreshBlock(SetCall(s, r.value, call.(status := outcome.Status(), finishedSeq := Some(seqNo), note := Some(note)), None)))
  }

  ghost function ApplyTurnFinished(s: State, turn: string, status: TurnStatus): Applied {
    if s.active.None? then Err(NoActiveTurn)
    else if s.blocked then Err(RecoveryIsBlocked)
    else if turn != s.active.value then Err(ForeignTurn)
    else if !status.IsTerminal() then Err(NotTerminalStatus)
    else if s.intent.Some?
         && status != (if s.intent.value.action.RecoverInterrupted? then TurnInterrupted else TurnAbandoned) then Err(IntentMismatch)
    else if OpenCallIn(s, turn) then Err(UnresolvedCalls)
    else Ok(s.(turns := s.turns[turn := status], active := None, blocked := false, intent := None))
  }

  /** A call requested at or before the cut but finished after it. */
  ghost predicate Straddles(s: State, throughSeq: int) {
    exists k :: k in s.calls && s.calls[k].finishedSeq.Some?
                && s.calls[k].requestedSeq <= throughSeq < s.calls[k].finishedSeq.value
  }

  /** Nothing is left of the text when surrounding white space is removed. */
  predicate Blank(text: string) {
    forall i :: 0 <= i < |text| ==> text[i] in " \t\r\n"
  }

  ghost function ApplyCheckpoint(s: State, seqNo: nat, throughSeq: int, summary: string, replacement: seq<Message>): Applied {
    if Unsettled(s) then Err(UnresolvedCalls)
    else if !(0 <= throughSeq < seqNo) then Err(BadBoundary)
    else if Straddles(s, throughSeq) then Err(BadBoundary)
    else if Blank(summary) then Err(EmptySummary)
    else if !Conversation.Valid(replacement) then Err(BadConversation)
    else if !Conversation.NoSystem(replacement) then Err(BadConversation)
    else Ok(s.(checkpoint := Some(Checkpoint(seqNo, throughSeq, summary, replacement))))
  }

  ghost function HandleCallFact(s: State, seqNo: nat, fact: Fact): Applied
    requires fact.ChangesCalls()
  {
    match fact
    case AssistantAccepted(claimed, _, docs) => ApplyAssistant(s, seqNo, claimed, docs)
    case ApprovalDecided(ref, approved, scope) => ApplyApproval(s, ref, approved, scope)
    case ToolStarted(ref) => ApplyToolStarted(s, ref)
    case ToolFinished(ref, status, result, blocked, _, blockedBy, roots) =>
      ApplyToolFinished(s, seqNo, ref, status, result, blocked, blockedBy, roots)
    case ToolReconciled(ref, outcome, note, _) => ApplyReconciled(s, seqNo, ref, outcome, note)
  }

  function HandleGraphFact(s: State, seqNo: nat, fact: Fact): Applied
    requires fact.ChangesGraph()
  {
    match fact
    case CodeRunStarted(run, turn, parent) => ApplyRunStarted(s, run, turn, parent)
    case CodeNodePlanned(run, node, ordinal, name, deps) => ApplyNodePlanned(s, seqNo, run, node, ordinal, name, deps)
    case CodeRunFinished(run, status) => ApplyRunFinished(s, run, status)
  }

  ghost function HandleTurnFact(s: State, fact: Fact): Applied
    requires fact.ChangesTurns()
  {
    match fact
    case TurnStarted(turn, _) => ApplyTurnStarted(s, turn)
    case TurnRecoveryIntent(turn, action, reason) => ApplyIntent(s, turn, action, reason)
    case TurnFinished(turn, status) => ApplyTurnFinished(s, turn, status)
  }

  ghost function HandleOtherFact(s: State, seqNo: nat, fact: Fact): Applied
    requires !fact.ChangesCalls() && !fact.ChangesGraph() && !fact.ChangesTurns()
  {
    match fact
    case SessionCreated => if s.created then Err(AlreadyCreated) else Ok(s.(created := true))
    case SessionApprovalReset => if s.intent.Some? then Err(IntentPending) else Ok(s.(approvalAlways := false))
    case CompactionCheckpoint(through, summary, replacement) => ApplyCheckpoint(s, seqNo, through, summary, replacement)
    case FileFact => if s.intent.Some? then Err(IntentPending) else if s.active.None? then Err(NoActiveTurn) else Ok(s)
    case SamplingFailed => if s.intent.Some? then Err(IntentPending) else if s.active.None? then Err(NoActiveTurn) else Ok(s)
    case UndoFinished(turn) => if turn in s.turns then Ok(s) else Err(UnknownTurn)
    case PlanModeSet(active) => if s.intent.Some? then Err(IntentPending) else Ok(s.(planMode := active))
  }

  ghost function Handle(s: State, seqNo: nat, fact: Fact): Applied {
    if fact.ChangesCalls() then HandleCallFact(s, seqNo, fact)
    else if fact.ChangesGraph() then HandleGraphFact(s, seqNo, fact)
    else if fact.ChangesTurns() then HandleTurnFact(s, fact)
    else HandleOtherFact(s, seqNo, fact)
  }

  ghost function Step(s: State, e: Event): Applied {
    if e.seqNo != s.lastSeq + 1 then Err(WrongSequence)
    else if !s.created && !e.fact.SessionCreated? then Err(NotCreated)
    else
      match Handle(s, e.seqNo, e.fact)
      case Err(x) => Err(x)
      case Ok(t) => Ok(t.(lastSeq := e.seqNo))
  }

  ghost function Replay(s: State, events: seq<Event>): Applied {
    if events == [] then Ok(s)
    else
      match Replay(s, events[..|events| - 1])
      case Err(x) => Err(x)
      case Ok(t) => Step(t, events[|events| - 1])
  }

  lemma {:induction false} ReplayConcat(s: State, a: seq<Event>, b: seq<Event>)
    ensures Replay(s, a).Err? ==> Replay(s, a + b) == Replay(s, a)
    ensures Replay(s, a).Ok? ==> Replay(s, a + b) == Replay(Replay(s, a).value, b)
  {
    if b == [] {
      assert a + b == a;
    } else {
      ReplayConcat(s, a, b[..|b| - 1]);
      assert (a + b)[..|a + b| - 1] == a + b[..|b| - 1];
    }
  }
}
