/**
 The prompt projector: a second fold over the same log, with its own table of unanswered calls.
 */
module Projection {
  import opened Domain
  import R = Reducer
  import Conversation

  datatype ProjectionFault =
    | CallStillTracked | NoActiveCall | Mismatch | NoCallNamed | EmptyFact
    | BadRollout | Blocked | UnresolvedCall | BadCheckpoint | BadMessages(fault: Conversation.Fault)

  /** The unanswered model calls, found by internal key and by provider id. */
  datatype Tracker = Tracker(byKey: map<string, string>, byId: map<string, string>)

  datatype Occurrence = Occurrence(key: string, id: string)

  const NOTHING := Tracker(map[], map[])

  function AddCalls(t: Tracker, seqNo: nat, docs: seq<CallDoc>): Result<Tracker, ProjectionFault> {
    if docs == [] then Ok(t)
    else
      match AddCalls(t, seqNo, docs[..|docs| - 1])
      case Err(f) => Err(f)
      case Ok(u) =>
        var id := docs[|docs| - 1].id;
        if id in u.byId then Err(CallStillTracked)
        else Ok(Tracker(u.byKey[ModelKey(seqNo, id) := id], u.byId[id := ModelKey(seqNo, id)]))
  }

  function Lookup(t: Tracker, ref: CallRef): Result<Occurrence, ProjectionFault> {
    if ref.key.Some? then
      if ref.key.value == "" then Err(NoCallNamed)
      else if ref.key.value !in t.byKey then Err(NoActiveCall)
      else if ref.id.Some? && ref.id.value != t.byKey[ref.key.value] then Err(Mismatch)
      else Ok(Occurrence(ref.key.value, t.byKey[ref.key.value]))
    else if ref.id.None? || ref.id.value == "" then Err(NoCallNamed)
    else if ref.id.value !in t.byId then Err(NoActiveCall)
    else Ok(Occurrence(t.byId[ref.id.value], ref.id.value))
  }

  function Close(t: Tracker, o: Occurrence): Tracker {
    Tracker(t.byKey - {o.key}, t.byId - {o.id})
  }

  function VerdictText(outcome: Outcome, note: string): string {
    (match outcome
     case ConfirmSuccess => "User confirmed after recovery that the tool succeeded."
     case ConfirmFailure => "User confirmed after recovery that the tool failed."
     case GiveUp => "User abandoned the uncertain tool call after recovery.")
    + if note != "" then " Note: " + note else ""
  }

  type Projected = Result<(Tracker, Option<Message>), ProjectionFault>

  function ProjectFact(t: Tracker, seqNo: nat, fact: Fact): Projected {
    match fact
    case TurnStarted(_, input) => Ok((t, Some(User(input))))
    case AssistantAccepted(_, content, docs) =>
      if content.None? && docs == [] then Err(EmptyFact)
      else
        (match AddCalls(t, seqNo, docs)
         case Err(f) => Err(f)
         case Ok(u) => Ok((u, Some(Assistant(content, docs)))))
    case ToolFinished(ref, status, result, _, tagged, _, _) =>
      if tagged then Ok((t, None))
      else
        (match Lookup(t, ref)
         case Err(f) => Err(f)
         case Ok(o) =>
           if status.OutcomeUnknown? then Ok((t, None))
           else Ok((Close(t, o), Some(Tool(o.id, if result.Some? then result.value else "")))))
    case ToolReconciled(ref, outcome, note, tagged) =>
      if tagged then Ok((t, None))
      else
        (match Lookup(t, ref)
         case Err(f) => Err(f)
         case Ok(o) => Ok((Close(t, o), Some(Tool(o.id, VerdictText(outcome, note))))))
    case _ => Ok((t, None))
  }

  datatype Fold = Fold(tracker: Tracker, messages: seq<Message>)

  /** Track every event, and keep the messages of those after the cut. */
  function FoldEvents(events: seq<Event>, throughSeq: int): Result<Fold, ProjectionFault> {
    if events == [] then Ok(Fold(NOTHING, []))
    else
      match FoldEvents(events[..|events| - 1], throughSeq)
      case Err(f) => Err(f)
      case Ok(fold) =>
        var e := events[|events| - 1];
        match ProjectFact(fold.tracker, e.seqNo, e.fact)
        case Err(f) => Err(f)
        case Ok((tracker, message)) =>
          Ok(Fold(tracker, if e.seqNo > throughSeq && message.Some? then fold.messages + [message.value] else fold.messages))
  }

  function LatestCheckpoint(events: seq<Event>): Option<Checkpoint> {
    if events == [] then None
    else
      var e := events[|events| - 1];
      if e.fact.CompactionCheckpoint?
      then Some(Checkpoint(e.seqNo, e.fact.throughSeq, e.fact.summary, e.fact.replacement))
      else LatestCheckpoint(events[..|events| - 1])
  }

  /** What the projector demands of the state before it looks at the events. */
  ghost predicate Settled(s: State) {
    s.intent.None? && !s.blocked && !R.Unsettled(s)
  }

  /** `system` stands for the live environment text with the checkpoint summary. */
  ghost function Project(events: seq<Event>, s: State, system: string): Result<seq<Message>, ProjectionFault> {
    if R.Replay(EMPTY, events) != Ok(s) then Err(BadRollout)
    else if s.intent.Some? || s.blocked || R.Unknowns(s) then Err(Blocked)
    else if R.Unsettled(s) then Err(UnresolvedCall)
    else
      var cut := LatestCheckpoint(events);
      if cut.Some? && !(0 <= cut.value.throughSeq < cut.value.seqNo) then Err(BadCheckpoint)
      else
        var through := if cut.Some? then cut.value.throughSeq else 0;
        var baseline := if cut.Some? then cut.value.replacement else [];
        match FoldEvents(events, through)
        case Err(f) => Err(f)
        case Ok(fold) =>
          var messages := [System(system)] + baseline + fold.messages;
          if Conversation.Valid(messages) then Ok(messages)
          else
            (match Conversation.Scan(Conversation.START, messages)
             case Err(f) => Err(BadMessages(f))
             case Ok(_) => Err(BadMessages(Conversation.MissingResults)))
  }

  class EventCallTracker {
    var byKey: map<string, string>
    var byId: map<string, string>

    ghost function Abs(): Tracker
      reads this
    {
      Tracker(byKey, byId)
    }

    constructor ()
      ensures Abs() == NOTHING
    {
      byKey, byId := map[], map[];
    }

    method AddAssistantCalls(seqNo: nat, docs: seq<CallDoc>) returns (fault: Option<ProjectionFault>)
      modifies this
      ensures fault.None? ==> AddCalls(old(Abs()), seqNo, docs) == Ok(Abs())
      ensures fault.Some? ==> AddCalls(old(Abs()), seqNo, docs) == Err(fault.value)
    {
      ghost var before := Abs();
      for i := 0 to |docs|
        invariant AddCalls(before, seqNo, docs[..i]) == Ok(Abs())
      {
        assert docs[..i + 1][..i] == docs[..i];
        var id := docs[i].id;
        if id in byId {
          AddCallsErr(before, seqNo, docs, i + 1);
          return Some(CallStillTracked);
        }
        byKey, byId := byKey[ModelKey(seqNo, id) := id], byId[id := ModelKey(seqNo, id)];
      }
      assert docs[..|docs|] == docs;
      return None;
    }

    method CloseOccurrence(o: Occurrence)
      modifies this
      ensures Abs() == Close(old(Abs()), o)
    {
      byKey, byId := byKey - {o.key}, byId - {o.id};
    }

    method ProjectEvent(e: Event) returns (r: Result<Option<Message>, ProjectionFault>)
      modifies this
      ensures r.Ok? ==> ProjectFact(old(Abs()), e.seqNo, e.fact) == Ok((Abs(), r.value))
      ensures r.Err? ==> ProjectFact(old(Abs()), e.seqNo, e.fact) == Err(r.error)
    {
      match e.fact {
        case TurnStarted(_, input) =>
          return Ok(Some(User(input)));
        case AssistantAccepted(_, content, docs) =>
          if content.None? && docs == [] { return Err(EmptyFact); }
          var fault := AddAssistantCalls(e.seqNo, docs);
          if fault.Some? { return Err(fault.value); }
          return Ok(Some(Assistant(content, docs)));
        case ToolFinished(ref, status, result, _, tagged, _, _) =>
          if tagged { return Ok(None); }
          var found := Lookup(Tracker(byKey, byId), ref);
          if found.Err? { return Err(found.error); }
          if status.OutcomeUnknown? { return Ok(None); }
          CloseOccurrence(found.value);
          return Ok(Some(Tool(found.value.id, if result.Some? then result.value else "")));
        case ToolReconciled(ref, outcome, note, tagged) =>
          if tagged { return Ok(None); }
          var found := Lookup(Tracker(byKey, byId), ref);
          if found.Err? { return Err(found.error); }
          CloseOccurrence(found.value);
          return Ok(Some(Tool(found.value.id, VerdictText(outcome, note))));
        case _ =>
          return Ok(None);
      }
    }
  }

  lemma {:induction false} AddCallsErr(t: Tracker, seqNo: nat, docs: seq<CallDoc>, n: nat)
    requires n <= |docs| && AddCalls(t, seqNo, docs[..n]).Err?
    ensures AddCalls(t, seqNo, docs) == AddCalls(t, seqNo, docs[..n])
    decreases |docs| - n
  {
    if n == |docs| {
      assert docs[..n] == docs;
    } else {
      assert docs[..n + 1][..n] == docs[..n];
      AddCallsErr(t, seqNo, docs, n + 1);
    }
  }

  lemma {:induction false} FoldErr(events: seq<Event>, throughSeq: int, n: nat)
    requires n <= |events| && FoldEvents(events[..n], throughSeq).Err?
    ensures FoldEvents(events, throughSeq) == FoldEvents(events[..n], throughSeq)
    decreases |events| - n
  {
    if n == |events| {
      assert events[..n] == events;
    } else {
      assert events[..n + 1][..n] == events[..n];
      FoldErr(events, throughSeq, n + 1);
    }
  }

  method FindCheckpoint(events: seq<Event>) returns (cut: Option<Checkpoint>)
    ensures cut == LatestCheckpoint(events)
  {
    cut := None;
    for i := 0 to |events|
      invariant cut == LatestCheckpoint(events[..i])
    {
      assert events[..i + 1][..i] == events[..i];
      var e := events[i];
      if e.fact.CompactionCheckpoint? {
        cut := Some(Checkpoint(e.seqNo, e.fact.throughSeq, e.fact.summary, e.fact.replacement));
      }
    }
    assert events[..|events|] == events;
  }

  method CollectMessages(events: seq<Event>, through: int) returns (r: Result<seq<Message>, ProjectionFault>)
    ensures match FoldEvents(events, through)
            case Ok(fold) => r == Ok(fold.messages)
            case Err(f) => r == Err(f)
  {
    var kept: seq<Message> := [];
    var tracker := new EventCallTracker();
    for i := 0 to |events|
      invariant fresh(tracker)
      invariant FoldEvents(events[..i], through) == Ok(Fold(tracker.Abs(), kept))
    {
      assert events[..i + 1][..i] == events[..i];
      var projected := tracker.ProjectEvent(events[i]);
      if projected.Err? {
        FoldErr(events, through, i + 1);
        return Err(projected.error);
      }
      if events[i].seqNo > through && projected.value.Some? {
        kept := kept + [projected.value.value];
      }
    }
    assert events[..|events|] == events;
    r := Ok(kept);
  }

  /** The projector; the caller has replayed the events to `s` and reports the two questions asked of it. */
  method RunProjection(events: seq<Event>, ghost s: State, unknown: bool, unresolved: bool, system: string)
    returns (r: Result<seq<Message>, ProjectionFault>)
    requires R.Replay(EMPTY, events) == Ok(s)
    requires unknown <==> (s.intent.Some? || s.blocked || R.Unknowns(s))
    requires unresolved <==> R.Unsettled(s)
    ensures r == Project(events, s, system)
  {
    if unknown { return Err(Blocked); }
    if unresolved { return Err(UnresolvedCall); }
    var cut := FindCheckpoint(events);
    var through, baseline := 0, [];
    if cut.Some? {
      if cut.value.throughSeq < 0 || cut.value.throughSeq >= cut.value.seqNo { return Err(BadCheckpoint); }
      through, baseline := cut.value.throughSeq, cut.value.replacement;
    }
    var collected := CollectMessages(events, through);
    if collected.Err? { return Err(collected.error); }
    var messages := [System(system)] + baseline + collected.value;
    var fault := Conversation.Validate(messages);
    r := if fault.Some? then Err(BadMessages(fault.value)) else Ok(messages);
  }
}
