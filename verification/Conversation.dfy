/**
 The strict provider conversation: after an assistant message requests calls, exactly one
 result for every call id must follow before any other message.
 */
module Conversation {
  import opened Domain

  datatype Fault =
    | BatchStillOpen | LateSystem | BadCallDoc | RepeatedCallId | EmptyAssistant
    | EmptyResultId | DuplicateResult | OrphanResult | MissingResults

  datatype Scanner = Scanner(pending: set<string>, completed: set<string>, started: bool, systemSeen: bool)

  const START := Scanner({}, {}, false, false)

  predicate WellFormedCalls(calls: seq<CallDoc>) {
    forall i :: 0 <= i < |calls| ==> calls[i].id != "" && calls[i].name != ""
  }

  predicate DistinctIds(calls: seq<CallDoc>) {
    forall i, j :: 0 <= i < j < |calls| ==> calls[i].id != calls[j].id
  }

  function Ids(calls: seq<CallDoc>): set<string> {
    set i | 0 <= i < |calls| :: calls[i].id
  }

  function ScanMessage(v: Scanner, m: Message): Result<Scanner, Fault> {
    if v.pending != {} && !m.Tool? then Err(BatchStillOpen)
    else
      match m
      case System(_) =>
        if v.systemSeen || v.started then Err(LateSystem) else Ok(v.(systemSeen := true))
      case User(_) => Ok(v.(started := true))
      case Assistant(text, calls) =>
        if !WellFormedCalls(calls) then Err(BadCallDoc)
        else if !DistinctIds(calls) then Err(RepeatedCallId)
        else if text.None? && calls == [] then Err(EmptyAssistant)
        else Ok(Scanner(Ids(calls), {}, true, v.systemSeen))
      case Tool(id, _) =>
        if id == "" then Err(EmptyResultId)
        else if id in v.completed then Err(DuplicateResult)
        else if id !in v.pending then Err(OrphanResult)
        else Ok(Scanner(v.pending - {id}, v.completed + {id}, true, v.systemSeen))
  }

  function Scan(v: Scanner, ms: seq<Message>): Result<Scanner, Fault> {
    if ms == [] then Ok(v)
    else
      match Scan(v, ms[..|ms| - 1])
      case Err(e) => Err(e)
      case Ok(w) => ScanMessage(w, ms[|ms| - 1])
  }

  predicate Closes(v: Scanner, ms: seq<Message>) {
    var r := Scan(v, ms);
    r.Ok? && r.value.pending == {}
  }

  /** What `validate_conversation` accepts. */
  predicate Valid(ms: seq<Message>) { Closes(START, ms) }

  lemma {:induction false} ScanConcat(v: Scanner, a: seq<Message>, b: seq<Message>)
    ensures Scan(v, a).Err? ==> Scan(v, a + b) == Scan(v, a)
    ensures Scan(v, a).Ok? ==> Scan(v, a + b) == Scan(Scan(v, a).value, b)
  {
    if b == [] {
      assert a + b == a;
    } else {
      var front := b[..|b| - 1];
      ScanConcat(v, a, front);
      assert (a + b)[..|a + b| - 1] == a + front;
    }
  }

  lemma ScanOne(v: Scanner, m: Message)
    ensures Scan(v, [m]) == ScanMessage(v, m)
  {
    assert [m][..0] == [];
  }

  /** After an error in a prefix nothing makes the conversation valid again. */
  lemma ScanExtend(v: Scanner, ms: seq<Message>, m: Message)
    ensures Scan(v, ms).Ok? ==> Scan(v, ms + [m]) == ScanMessage(Scan(v, ms).value, m)
    ensures Scan(v, ms).Err? ==> Scan(v, ms + [m]).Err?
  {
    ScanConcat(v, ms, [m]);
    if Scan(v, ms).Ok? { ScanOne(Scan(v, ms).value, m); }
  }

  predicate NoSystem(ms: seq<Message>) {
    forall i :: 0 <= i < |ms| ==> !ms[i].System?
  }

  /** With no open batch, what was scanned before decides nothing about messages without a system one. */
  lemma {:induction false} ScanAfterClosed(v: Scanner, w: Scanner, ms: seq<Message>)
    requires NoSystem(ms)
    requires v.pending == {} && w.pending == {}
    ensures Scan(v, ms).Ok? == Scan(w, ms).Ok?
    ensures Scan(v, ms).Ok? ==> Scan(v, ms).value.pending == Scan(w, ms).value.pending
    ensures Scan(v, ms).Ok? && Scan(v, ms).value.pending != {} ==>
              Scan(v, ms).value.completed == Scan(w, ms).value.completed
  {
    if ms != [] {
      ScanAfterClosed(v, w, ms[..|ms| - 1]);
    }
  }

  method Validate(ms: seq<Message>) returns (fault: Option<Fault>)
    ensures fault.None? <==> Valid(ms)
    ensures fault.Some? && Scan(START, ms).Err? ==> Scan(START, ms).error == fault.value
    ensures fault.Some? && Scan(START, ms).Ok? ==> fault.value == MissingResults
  {
    var pending: set<string> := {};
    var completed: set<string> := {};
    var started, systemSeen := false, false;
    var index := 0;
    while index < |ms|
      invariant 0 <= index <= |ms|
      invariant Scan(START, ms[..index]) == Ok(Scanner(pending, completed, started, systemSeen))
    {
      ghost var before := Scanner(pending, completed, started, systemSeen);
      var message := ms[index];
      assert ms[..index + 1] == ms[..index] + [message];
      assert ms == ms[..index + 1] + ms[index + 1..];
      ScanExtend(START, ms[..index], message);
      ScanConcat(START, ms[..index + 1], ms[index + 1..]);
      if pending != {} && !message.Tool? {
        return Some(BatchStillOpen);
      }
      match message {
        case System(_) =>
          if systemSeen || started { return Some(LateSystem); }
          systemSeen := true;
        case User(_) =>
          started := true;
        case Assistant(text, calls) =>
          started := true;
          if !WellFormedCalls(calls) { return Some(BadCallDoc); }
          if !DistinctIds(calls) { return Some(RepeatedCallId); }
          if text.None? && calls == [] { return Some(EmptyAssistant); }
          pending, completed := Ids(calls), {};
        case Tool(id, _) =>
          started := true;
          if id == "" { return Some(EmptyResultId); }
          if id in completed { return Some(DuplicateResult); }
          if id !in pending { return Some(OrphanResult); }
          pending, completed := pending - {id}, completed + {id};
      }
      assert ScanMessage(before, message) == Ok(Scanner(pending, completed, started, systemSeen));
      index := index + 1;
    }
    assert ms[..|ms|] == ms;
    fault := if pending == {} then None else Some(MissingResults);
  }
}
