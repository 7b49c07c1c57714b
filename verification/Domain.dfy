/**
 Values of the event log: statuses, tool calls, code graph entries, the derived session
 state, and the facts that a rollout may hold.
 */
module Domain {

  datatype Option<+T> = None | Some(value: T)

  datatype Result<+T, +E> = Ok(value: T) | Err(error: E)

  predicate Distinct(ids: seq<string>) {
    forall i, j :: 0 <= i < j < |ids| ==> ids[i] != ids[j]
  }

  /** Lifecycle state of one accepted tool call; a code node carries the same values. */
  datatype ToolStatus =
    | Requested | Started | Succeeded | Failed | Denied | InvalidArguments | UnknownTool
    | TimedOut | Interrupted | Cancelled | NotExecuted | BatchLimitExceeded | Conflict
    | OutcomeUnknown | UserConfirmedSuccess | UserConfirmedFailure | Abandoned | UpstreamFailed
  {
    predicate IsOpen() { Requested? || Started? }

    predicate IsTerminal() { !IsOpen() }

    /** Open, or finished with an outcome that only the user can settle. */
    predicate IsUnsettled() { IsOpen() || OutcomeUnknown? }

    predicate IsSuccess() { Succeeded? || UserConfirmedSuccess? }

    /** The terminal statuses that `tool_finished` may give to a call in this status. */
    predicate MayFinishAs(next: ToolStatus) {
      match this
      case Requested =>
        next in {Denied, InvalidArguments, UnknownTool, NotExecuted, BatchLimitExceeded, Cancelled, Failed, UpstreamFailed}
      case Started =>
        next in {Succeeded, Failed, TimedOut, Interrupted, Conflict, Cancelled, OutcomeUnknown}
      case _ => false
    }
  }

  datatype TurnStatus = Active | RecoveryBlocked | Completed | TurnFailed | TurnInterrupted | MaxStepsReached | TurnAbandoned
  {
    predicate IsTerminal() { !Active? && !RecoveryBlocked? }
  }

  datatype RunStatus = RunActive | RunSucceeded | RunFailed | RunInterrupted

  datatype Action = RecoverInterrupted | Abandon

  datatype Outcome = ConfirmSuccess | ConfirmFailure | GiveUp
  {
    function Status(): ToolStatus {
      match this
      case ConfirmSuccess => UserConfirmedSuccess
      case ConfirmFailure => UserConfirmedFailure
      case GiveUp => Abandoned
    }
  }

  datatype Scope = NoScope | Once | WholeSession

  datatype Origin = FromModel | FromCode(run: string, parent: string, ordinal: nat)

  datatype ToolCall = ToolCall(
    key: string, providerId: string, turn: string, name: string, status: ToolStatus,
    approved: Option<bool>, requestedSeq: nat, finishedSeq: Option<nat>, origin: Origin,
    result: Option<string>, note: Option<string>)

  datatype CodeNode = CodeNode(
    run: string, ordinal: nat, dependencies: seq<string>, status: ToolStatus,
    blockedBy: seq<string>, rootFailures: seq<string>)

  datatype CodeRun = CodeRun(turn: string, parent: string, status: RunStatus, nodeIds: seq<string>)

  datatype Intent = Intent(action: Action, reason: string)

  datatype CallDoc = CallDoc(id: string, name: string, arguments: string)

  datatype Message =
    | System(content: string)
    | User(content: string)
    | Assistant(text: Option<string>, calls: seq<CallDoc>)
    | Tool(callId: string, content: string)

  /** How a tool fact names its call: by internal key, by provider id, or by both. */
  datatype CallRef = CallRef(key: Option<string>, id: Option<string>)

  datatype Checkpoint = Checkpoint(seqNo: nat, throughSeq: int, summary: string, replacement: seq<Message>)

  datatype Fact =
    | SessionCreated
    | TurnStarted(turn: string, input: string)
    | AssistantAccepted(claimedTurn: Option<string>, content: Option<string>, calls: seq<CallDoc>)
    | ApprovalDecided(call: CallRef, approved: bool, scope: Scope)
    | SessionApprovalReset
    | ToolStarted(call: CallRef)
    | ToolFinished(call: CallRef, status: ToolStatus, result: Option<string>, blocked: bool, tagged: bool,
                   blockedBy: seq<string>, rootFailures: seq<string>)
    | CodeRunStarted(run: string, turn: string, parent: string)
    | CodeNodePlanned(run: string, node: string, ordinal: nat, name: string, dependencies: seq<string>)
    | CodeRunFinished(run: string, runStatus: RunStatus)
    | TurnRecoveryIntent(turn: string, action: Action, reason: string)
    | ToolReconciled(call: CallRef, outcome: Outcome, note: string, tagged: bool)
    | TurnFinished(turn: string, turnStatus: TurnStatus)
    | CompactionCheckpoint(throughSeq: int, summary: string, replacement: seq<Message>)
    | FileFact
    | SamplingFailed
    | UndoFinished(turn: string)
    | PlanModeSet(active: bool)
  {
    predicate ChangesCalls() { AssistantAccepted? || ApprovalDecided? || ToolStarted? || ToolFinished? || ToolReconciled? }

    predicate ChangesGraph() { CodeRunStarted? || CodeNodePlanned? || CodeRunFinished? }

    predicate ChangesTurns() { TurnStarted? || TurnRecoveryIntent? || TurnFinished? }
  }

  datatype Event = Event(seqNo: nat, fact: Fact)

  /** The mutable session state as one value; the two `Order` fields are dictionary insertion order. */
  datatype State = State(
    created: bool, lastSeq: nat, active: Option<string>, turns: map<string, TurnStatus>,
    callOrder: seq<string>, calls: map<string, ToolCall>,
    runOrder: seq<string>, runs: map<string, CodeRun>, nodes: map<string, CodeNode>,
    checkpoint: Option<Checkpoint>, intent: Option<Intent>, blocked: bool,
    planMode: bool, approvalAlways: bool)

  const EMPTY := State(false, 0, None, map[], [], map[], [], map[], map[], None, None, false, false, false)

  datatype Refusal =
    | WrongSequence | NotCreated | AlreadyCreated | NoActiveTurn | TurnStillActive | TurnReused
    | IntentPending | RecoveryIsBlocked | UnresolvedCalls | ForeignTurn | EmptyCallId | DuplicateCallId
    | EmptyName | DuplicateCallKey | UnknownCall | AmbiguousCall | CallMismatch | TooLate | AlreadyDecided
    | ScopeWithoutApproval | NotRequested | CallDenied | AlreadyTerminal | IntentMismatch | BadTransition
    | BlockedFlagMismatch | RunExists | BadParent | RunNotActive | NodeIdUsed | BadOrdinal | OrdinalUsed
    | DuplicateDependency | SelfDependency | UnknownDependency | UnfinishedNodes | NotTerminalStatus
    | NothingToRecover | UncertainCall | NothingUnknown | NotUnknown | BadBoundary | EmptySummary
    | BadConversation | UnknownTurn

  function Decimal(n: nat): string
  {
    if n < 10 then ["0123456789"[n]] else Decimal(n / 10) + ["0123456789"[n % 10]]
  }

  /** The internal key of a call that the model requested in event `seqNo`. */
  function ModelKey(seqNo: nat, id: string): string
  {
    Decimal(seqNo) + ":" + id
  }

  lemma DigitsDiffer(a: nat, b: nat)
    requires a < 10 && b < 10 && "0123456789"[a] == "0123456789"[b]
    ensures a == b
  {
  }

  lemma {:induction false} DecimalInjective(a: nat, b: nat)
    requires Decimal(a) == Decimal(b)
    ensures a == b
  {
    var x, y := Decimal(a), Decimal(b);
    assert x[|x| - 1] == "0123456789"[a % 10] && y[|y| - 1] == "0123456789"[b % 10];
    DigitsDiffer(a % 10, b % 10);
    if a >= 10 && b >= 10 {
      assert x[..|x| - 1] == Decimal(a / 10) && y[..|y| - 1] == Decimal(b / 10);
      DecimalInjective(a / 10, b / 10);
    } else {
      LongDecimal(a);
      LongDecimal(b);
    }
  }

  lemma LongDecimal(n: nat)
    ensures |Decimal(n)| >= 1 && (|Decimal(n)| == 1 <==> n < 10)
  {
  }
}
