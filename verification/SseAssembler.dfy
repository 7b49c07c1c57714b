/**
 Assembling one model response from streamed deltas.  JSON parsing is an oracle: a payload gives a
 document whose fields are present, null, well typed or not.
 */
module SseAssembler {
  import opened Domain
  import opened Utf8
  import opened Sse

  // ----- What a payload may say -----

  /** A text field: missing or null counts as absent. */
  datatype Field = Absent | Null | Text(text: string) | WrongType

  datatype TokenUsage = TokenUsage(prompt: nat, completion: nat, total: nat)

  datatype UsageField = NoUsage | NullUsage | BadUsage | Usage(usage: TokenUsage)

  datatype FunctionField = NoFunction | NotAFunction | Function(name: Field, arguments: Field)

  datatype CallDelta = NotACall | CallDelta(index: Option<int>, id: Field, kind: Field, function_: FunctionField)

  datatype CallsField = NoCalls | NotCalls | Calls(deltas: seq<CallDelta>)

  datatype Delta = NotADelta | Delta(reasoning: Field, content: Field, calls: CallsField)

  datatype Choice = NotAChoice | Choice(index: Option<int>, finish: Field, delta: Delta)

  datatype Document = NotJson | NotAnObject | Document(usage: UsageField, choices: Option<seq<Choice>>)

  type Parser = string -> Document

  // ----- What has been assembled -----

  datatype Parts = Parts(id: Option<string>, kind: Option<string>, name: Option<string>, arguments: string, sawArguments: bool)

  const NO_PARTS := Parts(None, None, None, [], false)

  datatype Assembled = Assembled(content: string, reasoning: string, calls: map<nat, Parts>,
                                 finish: Option<string>, usage: Option<TokenUsage>, done: bool)

  const NOTHING := Assembled([], [], map[], None, None, false)

  datatype ProtocolError =
    | DuplicateDone | DataAfterDone | InvalidJson | InvalidDocument | InvalidUsage | NoChoice | DataAfterFinish
    | InvalidChoice | InvalidFinish | InvalidDelta | InvalidCall | ConflictingCall | StreamInterrupted | NoFinish
    | IncompleteCall | EmptyResponse | Undecodable(cause: SseError) | AlreadyFinished

  type Taken = Result<Assembled, ProtocolError>

  const DONE := "[DONE]"

  predicate KnownReason(reason: string) {
    reason in {"stop", "tool_calls", "length", "content_filter", "insufficient_system_resource"}
  }

  /** A part that comes again must be the same. */
  function Merge(current: Option<string>, field: Field): Result<Option<string>, ProtocolError> {
    match field
    case Absent => Ok(current)
    case Text(t) => if current.Some? && current.value != t then Err(ConflictingCall) else Ok(Some(t))
    case _ => Err(InvalidCall)
  }

  function TakeFunction(parts: Parts, f: FunctionField): Result<Parts, ProtocolError> {
    match f
    case NoFunction => Ok(parts)
    case NotAFunction => Err(InvalidCall)
    case Function(name, arguments) =>
      match Merge(parts.name, name)
      case Err(e) => Err(e)
      case Ok(n) =>
        match arguments
        case Absent => Ok(parts.(name := n))
        case Text(t) => Ok(parts.(name := n, arguments := parts.arguments + t, sawArguments := true))
        case _ => Err(InvalidCall)
  }

  /** `_consume_tool_delta`. */
  function TakeCall(a: Assembled, d: CallDelta): Taken {
    if d.NotACall? || d.index.None? || d.index.value < 0 then Err(InvalidCall)
    else
      var parts := if d.index.value in a.calls then a.calls[d.index.value] else NO_PARTS;
      match Merge(parts.id, d.id)
      case Err(e) => Err(e)
      case Ok(id) =>
        match Merge(parts.kind, d.kind)
        case Err(e) => Err(e)
        case Ok(kind) =>
          match TakeFunction(parts.(id := id, kind := kind), d.function_)
          case Err(e) => Err(e)
          case Ok(p) => Ok(a.(calls := a.calls[d.index.value := p]))
  }

  function TakeCalls(a: Assembled, deltas: seq<CallDelta>): Taken {
    if deltas == [] then Ok(a)
    else
      match TakeCalls(a, deltas[..|deltas| - 1])
      case Err(e) => Err(e)
      case Ok(b) => TakeCall(b, deltas[|deltas| - 1])
  }

  /** `_consume_delta`. */
  function TakeDelta(a: Assembled, d: Delta): Taken {
    if d.NotADelta? || d.reasoning.WrongType? || d.content.WrongType? then Err(InvalidDelta)
    else
      var b := if d.reasoning.Text? then a.(reasoning := a.reasoning + d.reasoning.text) else a;
      var c := if d.content.Text? then b.(content := b.content + d.content.text) else b;
      match d.calls
      case NoCalls => Ok(c)
      case NotCalls => Err(InvalidDelta)
      case Calls(deltas) => TakeCalls(c, deltas)
  }

  function TakeChoice(a: Assembled, c: Choice): Taken {
    if a.finish.Some? then Err(DataAfterFinish)
    else if c.NotAChoice? || c.index != Some(0) then Err(InvalidChoice)
    else if c.finish.Absent? || c.finish.WrongType? || (c.finish.Text? && !KnownReason(c.finish.text)) then Err(InvalidFinish)
    else
      match TakeDelta(a, c.delta)
      case Err(e) => Err(e)
      case Ok(b) => Ok(if c.finish.Text? then b.(finish := Some(c.finish.text)) else b)
  }

  /** `_consume_payload`. */
  function Take(parse: Parser, a: Assembled, payload: string): Taken {
    if payload == DONE then (if a.done then Err(DuplicateDone) else Ok(a.(done := true)))
    else if a.done then Err(DataAfterDone)
    else
      match parse(payload)
      case NotJson => Err(InvalidJson)
      case NotAnObject => Err(InvalidDocument)
      case Document(usage, choices) =>
        if usage.BadUsage? then Err(InvalidUsage)
        else
          var b := if usage.Usage? then a.(usage := Some(usage.usage)) else a;
          if choices.None? then Err(InvalidDocument)
          else if choices.value != [] then TakeChoice(b, choices.value[0])
          else if b.usage.Some? || !usage.NoUsage? then Ok(b)
          else Err(NoChoice)
  }

  function TakeAll(parse: Parser, payloads: seq<string>): Taken {
    if payloads == [] then Ok(NOTHING)
    else
      match TakeAll(parse, payloads[..|payloads| - 1])
      case Err(e) => Err(e)
      case Ok(a) => Take(parse, a, payloads[|payloads| - 1])
  }

  // ----- The response -----

  datatype SampledCall = SampledCall(index: nat, id: string, kind: string, name: string, arguments: string)

  datatype StreamResponse = StreamResponse(content: string, reasoning: string, calls: seq<SampledCall>, finish: string, usage: Option<TokenUsage>)

  predicate CompleteParts(p: Parts) {
    p.id.Some? && p.id.value != [] && p.kind == Some("function") && p.name.Some? && p.name.value != [] && p.sawArguments
  }

  function SampledOf(index: nat, p: Parts): SampledCall
    requires CompleteParts(p)
  {
    SampledCall(index, p.id.value, p.kind.value, p.name.value, p.arguments)
  }

  predicate IsLeast(m: nat, keys: set<nat>) { m in keys && forall k :: k in keys ==> m <= k }

  lemma {:induction false} HasLeast(keys: set<nat>)
    requires keys != {}
    ensures exists m :: IsLeast(m, keys)
  {
    var n :| n in keys;
    var others := keys - {n};
    assert keys == others + {n};
    if others == {} {
      assert IsLeast(n, keys);
    } else {
      HasLeast(others);
      var m :| IsLeast(m, others);
      assert IsLeast(if n <= m then n else m, keys);
    }
  }

  /** The calls by index; `None` when one is incomplete. */
  function Sampled(calls: map<nat, Parts>): Option<seq<SampledCall>>
    decreases calls.Keys
  {
    if calls.Keys == {} then Some([])
    else
      var m := Least(calls.Keys);
      if !CompleteParts(calls[m]) then None
      else
        match Sampled(calls - {m})
        case None => None
        case Some(rest) => Some([SampledOf(m, calls[m])] + rest)
  }

  function Least(keys: set<nat>): (m: nat)
    requires keys != {}
    ensures IsLeast(m, keys)
  {
    HasLeast(keys);
    var m :| IsLeast(m, keys);
    m
  }

  predicate CutShort(reason: string) { reason in {"length", "content_filter", "insufficient_system_resource"} }

  /** `finish`, after the last payload. */
  function Response(a: Assembled): Result<StreamResponse, ProtocolError> {
    if !a.done then Err(StreamInterrupted)
    else if a.finish.None? then Err(NoFinish)
    else if CutShort(a.finish.value) then Ok(StreamResponse(a.content, a.reasoning, [], a.finish.value, a.usage))
    else if Sampled(a.calls).None? then Err(IncompleteCall)
    else
      var calls := Sampled(a.calls).value;
      if a.finish.value in {"stop", "tool_calls"} && a.content == [] && calls == [] then Err(EmptyResponse)
      else if a.finish.value == "tool_calls" && calls == [] then Err(EmptyResponse)
      else Ok(StreamResponse(a.content, a.reasoning, calls, a.finish.value, a.usage))
  }

  // ----- The streaming assembler -----

  lemma {:induction false} TakeAllConcat(parse: Parser, a: seq<string>, b: seq<string>)
    ensures TakeAll(parse, a).Err? ==> TakeAll(parse, a + b).Err?
  {
    if b == [] {
      assert a + b == a;
    } else {
      TakeAllConcat(parse, a, b[..|b| - 1]);
      assert (a + b)[..|a + b| - 1] == a + b[..|b| - 1];
    }
  }

  class StreamAssembler {
    const parse: Parser
    var decoder: SSEDecoder
    var content: string
    var reasoning: string
    var toolCalls: map<nat, Parts>
    var finishReason: Option<string>
    var usage: Option<TokenUsage>
    var done: bool
    var finished: bool

    function View(): Assembled
      reads this
    {
      Assembled(content, reasoning, toolCalls, finishReason, usage, done)
    }

    /** What was assembled is what all events given by the decoder say. */
    ghost predicate Valid()
      reads this, decoder
    {
      decoder.Valid() && (!finished ==> !decoder.closed && TakeAll(parse, decoder.given) == Ok(View()))
    }

    constructor (parse: Parser)
      ensures Valid() && fresh(decoder) && !finished && decoder.taken == [] && this.parse == parse
    {
      this.parse := parse;
      decoder := new SSEDecoder();
      content, reasoning, toolCalls, finishReason, usage, done, finished := [], [], map[], None, None, false, false;
    }

    method ConsumeToolDelta(d: CallDelta) returns (error: Option<ProtocolError>)
      modifies `toolCalls
      ensures match TakeCall(old(View()), d) case Ok(a) => error.None? && View() == a case Err(e) => error == Some(e)
    {
      if d.NotACall? || d.index.None? || d.index.value < 0 { return Some(InvalidCall); }
      var index: nat := d.index.value;
      var parts := if index in toolCalls then toolCalls[index] else NO_PARTS;
      toolCalls := toolCalls[index := parts];
      var id := Merge(parts.id, d.id);
      if id.Err? { return Some(id.error); }
      parts := parts.(id := id.value);
      toolCalls := toolCalls[index := parts];
      var kind := Merge(parts.kind, d.kind);
      if kind.Err? { return Some(kind.error); }
      parts := parts.(kind := kind.value);
      toolCalls := toolCalls[index := parts];
      var merged := TakeFunction(parts, d.function_);
      if merged.Err? { return Some(merged.error); }
      toolCalls := toolCalls[index := merged.value];
      assert toolCalls == old(toolCalls)[index := merged.value];
      return None;
    }

    method ConsumeDelta(d: Delta) returns (error: Option<ProtocolError>)
      modifies `content, `reasoning, `toolCalls
      ensures match TakeDelta(old(View()), d) case Ok(a) => error.None? && View() == a case Err(e) => error == Some(e)
    {
      if d.NotADelta? || d.reasoning.WrongType? { return Some(InvalidDelta); }
      if d.reasoning.Text? { reasoning := reasoning + d.reasoning.text; }
      if d.content.WrongType? { return Some(InvalidDelta); }
      if d.content.Text? { content := content + d.content.text; }
      if d.calls.NoCalls? { return None; }
      if d.calls.NotCalls? { return Some(InvalidDelta); }
      var deltas := d.calls.deltas;
      ghost var before := View();
      for i := 0 to |deltas|
        invariant TakeCalls(before, deltas[..i]) == Ok(View())
      {
        hide TakeCall;
        assert deltas[..i + 1][..i] == deltas[..i];
        error := ConsumeToolDelta(deltas[i]);
        if error.Some? {
          CallErrorStays(before, deltas, i);
          return;
        }
      }
      assert deltas[..|deltas|] == deltas;
      return None;
    }

    method ConsumePayload(payload: string) returns (error: Option<ProtocolError>)
      modifies `content, `reasoning, `toolCalls, `finishReason, `usage, `done
      ensures match Take(parse, old(View()), payload) case Ok(a) => error.None? && View() == a case Err(e) => error == Some(e)
    {
      hide TakeDelta, KnownReason;
      if payload == DONE {
        if done { return Some(DuplicateDone); }
        done := true;
        return None;
      }
      if done { return Some(DataAfterDone); }
      var document := parse(payload);
      if document.NotJson? { return Some(InvalidJson); }
      if document.NotAnObject? { return Some(InvalidDocument); }
      if document.usage.BadUsage? { return Some(InvalidUsage); }
      if document.usage.Usage? { usage := Some(document.usage.usage); }
      if document.choices.None? { return Some(InvalidDocument); }
      if document.choices.value == [] {
        return if usage.Some? || !document.usage.NoUsage? then None else Some(NoChoice);
      }
      if finishReason.Some? { return Some(DataAfterFinish); }
      var choice := document.choices.value[0];
      if choice.NotAChoice? || choice.index != Some(0) { return Some(InvalidChoice); }
      if choice.finish.Absent? || choice.finish.WrongType? || (choice.finish.Text? && !KnownReason(choice.finish.text)) {
        return Some(InvalidFinish);
      }
      error := ConsumeDelta(choice.delta);
      if error.None? && choice.finish.Text? { finishReason := Some(choice.finish.text); }
    }

    /** Consume the events of one feed, until one is refused. */
    method ConsumeAll(payloads: seq<string>, ghost before: seq<string>) returns (error: Option<ProtocolError>)
      requires TakeAll(parse, before) == Ok(View())
      modifies `content, `reasoning, `toolCalls, `finishReason, `usage, `done
      ensures error.None? ==> TakeAll(parse, before + payloads) == Ok(View())
      ensures error.Some? ==> TakeAll(parse, before + payloads).Err?
    {
      hide Take;
      assert before + payloads[..0] == before;
      for i := 0 to |payloads|
        invariant TakeAll(parse, before + payloads[..i]) == Ok(View())
      {
        var all := before + payloads[..i + 1];
        assert all[..|all| - 1] == before + payloads[..i] && all[|all| - 1] == payloads[i];
        error := ConsumePayload(payloads[i]);
        if error.Some? {
          TakeAllConcat(parse, all, payloads[i + 1..]);
          assert all + payloads[i + 1..] == before + payloads;
          return;
        }
      }
      assert payloads[..|payloads|] == payloads;
      error := None;
    }

    method Feed(chunk: seq<Byte>) returns (error: Option<ProtocolError>)
      requires Valid()
      modifies this, decoder
      ensures decoder == old(decoder) && finished == old(finished) && decoder.Valid() && (finished ==> error == Some(AlreadyFinished))
      ensures error.None? ==> Valid() && decoder.taken == old(decoder.taken) + chunk
      ensures error.Some? && !finished ==>
        Decode([], old(decoder.taken) + chunk).None? ||
        (decoder.taken == old(decoder.taken) + chunk && !decoder.closed && TakeAll(parse, decoder.given).Err?)
    {
      if finished { return Some(AlreadyFinished); }
      hide TakeAll;
      var events := decoder.Feed(chunk);
      if events.Err? { return Some(Undecodable(events.error)); }
      error := ConsumeAll(events.value, old(decoder.given));
    }

    /** The end of the stream: the response, if everything up to here was in order. */
    method Finish() returns (r: Result<StreamResponse, ProtocolError>)
      requires Valid()
      modifies this, decoder
      ensures finished && (old(finished) ==> r == Err(AlreadyFinished))
      ensures !old(finished) ==> (r.Ok? <==> ResponseTo(parse, old(decoder.taken)).Some?)
      ensures !old(finished) && r.Ok? ==> ResponseTo(parse, old(decoder.taken)) == Some(r.value)
    {
      if finished { return Err(AlreadyFinished); }
      finished := true;
      hide TakeAll, Decode, Response;
      var events := decoder.Close();
      if events.Err? { return Err(Undecodable(events.error)); }
      var error := ConsumeAll(events.value, old(decoder.given));
      if error.Some? { return Err(error.value); }
      r := Response(View());
    }
  }

  /** The response that a complete stream of bytes has, if it has one. */
  ghost function ResponseTo(parse: Parser, bytes: seq<Byte>): Option<StreamResponse> {
    var d := Decode([], bytes);
    if d.None? || d.value.pending != [] then None
    else
      var taken := TakeAll(parse, StreamEvents(d.value.text));
      if taken.Err? || Response(taken.value).Err? then None else Some(Response(taken.value).value)
  }

  lemma StreamIsConsumed(text: string)
    ensures StreamEvents(text) == Consume(text, true, []).events
  {
    ConsumeIsReference(text, []);
  }

  /** Events that have been given stay the first events, so a refused event cannot be made good. */
  lemma RefusedStays(parse: Parser, decoder: SSEDecoder, rest: seq<Byte>)
    requires decoder.Valid() && !decoder.closed && TakeAll(parse, decoder.given).Err?
    ensures ResponseTo(parse, decoder.taken + rest).None?
  {
    var all :| Decode([], decoder.taken) == Some(Decoded(all, decoder.pending))
            && Consume(all, false, []) == Consumed(decoder.given, decoder.text, decoder.dataLines);
    DecodeConcat([], decoder.taken, rest);
    hide Decode, Consume, TakeAll, Response, StreamEvents;
    var d := Decode([], decoder.taken + rest);
    if d.Some? && d.value.pending == [] {
      var more := Decode(decoder.pending, rest).value;
      ConsumeConcat(all, more.text, true, []);
      StreamIsConsumed(all + more.text);
      TakeAllConcat(parse, decoder.given, Consume(decoder.text + more.text, true, decoder.dataLines).events);
    }
  }

  /** The rest of the chunks, after the first `i`. */
  lemma {:induction false} ConcatSplits(chunks: seq<seq<Byte>>, i: nat) returns (rest: seq<Byte>)
    requires i <= |chunks|
    ensures Concat(chunks) == Concat(chunks[..i]) + rest
    decreases |chunks|
  {
    if i == |chunks| {
      assert chunks[..i] == chunks;
      rest := [];
    } else {
      var front := chunks[..|chunks| - 1];
      assert front[..i] == chunks[..i];
      var part := ConcatSplits(front, i);
      rest := part + chunks[|chunks| - 1];
    }
  }

  /**
   Feeding a stream chunk by chunk and finishing gives a response exactly when the stream as a whole has one,
   and then that response: it does not depend on where the stream was cut.
   */
  method AssembleStream(parse: Parser, chunks: seq<seq<Byte>>) returns (r: Result<StreamResponse, ProtocolError>)
    ensures r.Ok? <==> ResponseTo(parse, Concat(chunks)).Some?
    ensures r.Ok? ==> ResponseTo(parse, Concat(chunks)) == Some(r.value)
  {
    var assembler := new StreamAssembler(parse);
    hide Decode, TakeAll, Response, StreamEvents, Consume;
    for i := 0 to |chunks|
      invariant assembler.Valid() && fresh(assembler) && fresh(assembler.decoder) && !assembler.finished && assembler.parse == parse
      invariant assembler.decoder.taken == Concat(chunks[..i])
    {
      assert chunks[..i + 1][..i] == chunks[..i];
      var error := assembler.Feed(chunks[i]);
      if error.Some? {
        ghost var rest := ConcatSplits(chunks, i + 1);
        if Decode([], Concat(chunks[..i + 1])).None? {
          BadPrefix(chunks, i + 1);
        } else {
          RefusedStays(parse, assembler.decoder, rest);
        }
        return Err(error.value);
      }
    }
    assert chunks[..|chunks|] == chunks;
    r := assembler.Finish();
  }

  lemma {:induction false} CallErrorStays(a: Assembled, deltas: seq<CallDelta>, i: nat)
    requires i < |deltas| && TakeCalls(a, deltas[..i]).Ok? && TakeCall(TakeCalls(a, deltas[..i]).value, deltas[i]).Err?
    ensures TakeCalls(a, deltas) == Err(TakeCall(TakeCalls(a, deltas[..i]).value, deltas[i]).error)
    decreases |deltas|
  {
    var front := deltas[..|deltas| - 1];
    if i < |front| {
      assert front[..i] == deltas[..i] && front[i] == deltas[i];
      CallErrorStays(a, front, i);
    }
  }

  // ----- What a response says about the stream -----

  /** A stream with a response has the completion marker once, as its last event. */
  lemma {:induction false} DoneIsLast(parse: Parser, payloads: seq<string>)
    requires TakeAll(parse, payloads).Ok?
    ensures TakeAll(parse, payloads).value.done <==> payloads != [] && payloads[|payloads| - 1] == DONE
    ensures forall i :: 0 <= i < |payloads| - 1 ==> payloads[i] != DONE
  {
    if payloads != [] {
      var front := payloads[..|payloads| - 1];
      DoneIsLast(parse, front);
      TakeKeepsDone(parse, TakeAll(parse, front).value, payloads[|payloads| - 1]);
      hide Take;
      assert forall i :: 0 <= i < |front| ==> payloads[i] == front[i];
    }
  }

  lemma TakeKeepsDone(parse: Parser, a: Assembled, payload: string)
    ensures Take(parse, a, payload).Ok? ==> !a.done && (Take(parse, a, payload).value.done <==> payload == DONE)
  {
    hide KnownReason;
    if payload != DONE && !a.done && parse(payload).Document? {
      var usage := parse(payload).usage;
      var b := if usage.Usage? then a.(usage := Some(usage.usage)) else a;
      var choices := parse(payload).choices;
      if choices.Some? && choices.value != [] && choices.value[0].Choice? && choices.value[0].delta.Delta? {
        var d := choices.value[0].delta;
        hide TakeCalls;
        forall c: Assembled | d.calls.Calls? ensures TakeCalls(c, d.calls.deltas).Ok? ==> SameButCalls(c, TakeCalls(c, d.calls.deltas).value) {
          CallsOnly(c, d.calls.deltas);
        }
      }
    }
  }

  predicate SameButCalls(a: Assembled, b: Assembled) { b == a.(calls := b.calls) }

  lemma {:induction false} CallsOnly(a: Assembled, deltas: seq<CallDelta>)
    ensures TakeCalls(a, deltas).Ok? ==> SameButCalls(a, TakeCalls(a, deltas).value)
  {
    if deltas != [] { CallsOnly(a, deltas[..|deltas| - 1]); }
  }

  /** The calls of a response come by index, each one complete, and none is left out. */
  lemma {:induction false} SampledInOrder(calls: map<nat, Parts>)
    requires Sampled(calls).Some?
    ensures var s := Sampled(calls).value;
            && (forall i, j :: 0 <= i < j < |s| ==> s[i].index < s[j].index)
            && (forall i :: 0 <= i < |s| ==> s[i].index in calls && CompleteParts(calls[s[i].index]) && s[i] == SampledOf(s[i].index, calls[s[i].index]))
            && |s| == |calls|
    decreases calls.Keys
  {
    if calls.Keys != {} {
      var m := Least(calls.Keys);
      hide CompleteParts;
      var fewer := calls - {m};
      assert fewer.Keys == calls.Keys - {m} && |fewer.Keys| == |calls.Keys| - 1;
      SampledInOrder(fewer);
    }
    assert |calls.Keys| == |calls|;
  }

  /** The text that the fields named `content` carry, in order. */
  function ContentOf(parse: Parser, payloads: seq<string>): string {
    if payloads == [] then []
    else ContentOf(parse, payloads[..|payloads| - 1]) + ContentIn(parse, payloads[|payloads| - 1])
  }

  /** The first choice of a payload that is not the completion marker. */
  function DeltaIn(parse: Parser, payload: string): Delta {
    if payload != DONE && parse(payload).Document? && parse(payload).choices.Some? && parse(payload).choices.value != []
       && parse(payload).choices.value[0].Choice?
    then parse(payload).choices.value[0].delta else NotADelta
  }

  function ContentIn(parse: Parser, payload: string): string {
    var d := DeltaIn(parse, payload);
    if d.Delta? && d.content.Text? then d.content.text else []
  }

  function CallsIn(parse: Parser, payload: string): seq<CallDelta> {
    var d := DeltaIn(parse, payload);
    if d.Delta? && d.calls.Calls? then d.calls.deltas else []
  }

  /** The pieces of arguments for one call, in order. */
  function ArgumentsOf(deltas: seq<CallDelta>, index: nat): string {
    if deltas == [] then []
    else
      var d := deltas[|deltas| - 1];
      ArgumentsOf(deltas[..|deltas| - 1], index)
      + if d.CallDelta? && d.index == Some(index) && d.function_.Function? && d.function_.arguments.Text? then d.function_.arguments.text else []
  }

  function AllCalls(parse: Parser, payloads: seq<string>): seq<CallDelta> {
    if payloads == [] then [] else AllCalls(parse, payloads[..|payloads| - 1]) + CallsIn(parse, payloads[|payloads| - 1])
  }

  function ArgumentsIn(a: Assembled, index: nat): string {
    if index in a.calls then a.calls[index].arguments else []
  }

  lemma {:induction false} ArgumentsConcat(a: seq<CallDelta>, b: seq<CallDelta>, index: nat)
    ensures ArgumentsOf(a + b, index) == ArgumentsOf(a, index) + ArgumentsOf(b, index)
  {
    if b == [] {
      assert a + b == a;
    } else {
      ArgumentsConcat(a, b[..|b| - 1], index);
      assert (a + b)[..|a + b| - 1] == a + b[..|b| - 1] && (a + b)[|a + b| - 1] == b[|b| - 1];
      var d := b[|b| - 1];
      var piece := if d.CallDelta? && d.index == Some(index) && d.function_.Function? && d.function_.arguments.Text? then d.function_.arguments.text else [];
      assert ArgumentsOf(b, index) == ArgumentsOf(b[..|b| - 1], index) + piece;
      assert ArgumentsOf(a + b, index) == ArgumentsOf(a + b[..|b| - 1], index) + piece;
      hide ArgumentsOf;
      assert (ArgumentsOf(a, index) + ArgumentsOf(b[..|b| - 1], index)) + piece == ArgumentsOf(a, index) + (ArgumentsOf(b[..|b| - 1], index) + piece);
    }
  }

  lemma {:induction false} CallsAddArguments(a: Assembled, deltas: seq<CallDelta>, index: nat)
    requires TakeCalls(a, deltas).Ok?
    ensures ArgumentsIn(TakeCalls(a, deltas).value, index) == ArgumentsIn(a, index) + ArgumentsOf(deltas, index)
  {
    if deltas != [] {
      var front, d := deltas[..|deltas| - 1], deltas[|deltas| - 1];
      CallsAddArguments(a, front, index);
      var b := TakeCalls(a, front).value;
      hide TakeCalls;
      assert ArgumentsIn(TakeCall(b, d).value, index) ==
             ArgumentsIn(b, index) + if d.index == Some(index) && d.function_.Function? && d.function_.arguments.Text? then d.function_.arguments.text else [];
    }
  }

  lemma TakeAdds(parse: Parser, a: Assembled, payload: string, index: nat)
    requires Take(parse, a, payload).Ok?
    ensures Take(parse, a, payload).value.content == a.content + ContentIn(parse, payload)
    ensures ArgumentsIn(Take(parse, a, payload).value, index) == ArgumentsIn(a, index) + ArgumentsOf(CallsIn(parse, payload), index)
  {
    hide KnownReason, TakeCalls;
    if payload != DONE && parse(payload).choices.value != [] {
      var d := parse(payload).choices.value[0].delta;
      var usage := parse(payload).usage;
      var b := if usage.Usage? then a.(usage := Some(usage.usage)) else a;
      var c := b.(reasoning := if d.reasoning.Text? then b.reasoning + d.reasoning.text else b.reasoning,
                  content := if d.content.Text? then b.content + d.content.text else b.content);
      if d.calls.Calls? {
        CallsOnly(c, d.calls.deltas);
        CallsAddArguments(c, d.calls.deltas, index);
      }
    }
  }

  /** What a response says is the streamed text in stream order, for the answer and for each call's arguments. */
  lemma {:induction false} AssembledInOrder(parse: Parser, payloads: seq<string>, index: nat)
    requires TakeAll(parse, payloads).Ok?
    ensures TakeAll(parse, payloads).value.content == ContentOf(parse, payloads)
    ensures ArgumentsIn(TakeAll(parse, payloads).value, index) == ArgumentsOf(AllCalls(parse, payloads), index)
  {
    if payloads != [] {
      var front, last := payloads[..|payloads| - 1], payloads[|payloads| - 1];
      AssembledInOrder(parse, front, index);
      TakeAdds(parse, TakeAll(parse, front).value, last, index);
      ArgumentsConcat(AllCalls(parse, front), CallsIn(parse, last), index);
    }
  }
}
