/**
 What an assembled response says of the stream it comes from, told by the payloads alone: its texts, why it ended, what
 it cost, and for each call the id, kind, name and arguments that were streamed for it.
 */
module ResponseMeaning {
  import opened Domain
  import opened Utf8
  import opened Sse
  import opened SseAssembler

  function ReasoningIn(parse: Parser, payload: string): string {
    var d := DeltaIn(parse, payload);
    if d.Delta? && d.reasoning.Text? then d.reasoning.text else []
  }

  /** The text that the fields named `reasoning_content` carry, in order. */
  function ReasoningOf(parse: Parser, payloads: seq<string>): string {
    if payloads == [] then []
    else ReasoningOf(parse, payloads[..|payloads| - 1]) + ReasoningIn(parse, payloads[|payloads| - 1])
  }

  /** The reason that the first choice of this payload gives for the end. */
  predicate EndsFor(parse: Parser, payload: string, reason: string) {
    && payload != DONE && parse(payload).Document? && parse(payload).choices.Some? && parse(payload).choices.value != []
    && parse(payload).choices.value[0].Choice? && parse(payload).choices.value[0].finish == Text(reason)
  }

  predicate Costs(parse: Parser, payload: string, usage: TokenUsage) {
    payload != DONE && parse(payload).Document? && parse(payload).usage == Usage(usage)
  }

  /** The last payload that says what the response cost. */
  ghost predicate LastCost(parse: Parser, payloads: seq<string>, i: nat, usage: TokenUsage) {
    && i < |payloads| && Costs(parse, payloads[i], usage)
    && forall j, other :: i < j < |payloads| ==> !Costs(parse, payloads[j], other)
  }

  // ----- The pieces of a call -----

  datatype Which = Id | Kind | Called

  predicate Piece(d: CallDelta, index: nat) { d.CallDelta? && d.index == Some(index) }

  function FieldOf(d: CallDelta, which: Which): Field {
    if d.NotACall? then Absent
    else
      match which
      case Id => d.id
      case Kind => d.kind
      case Called => if d.function_.Function? then d.function_.name else Absent
  }

  /** This piece of the call gives the field. */
  predicate Gives(d: CallDelta, index: nat, which: Which, text: string) { Piece(d, index) && FieldOf(d, which) == Text(text) }

  /** Some piece gives the field, and all that do give this. */
  ghost predicate Given(deltas: seq<CallDelta>, index: nat, which: Which, text: string) {
    && (exists i :: 0 <= i < |deltas| && Gives(deltas[i], index, which, text))
    && forall i, other :: 0 <= i < |deltas| && Gives(deltas[i], index, which, other) ==> other == text
  }

  ghost predicate NotGiven(deltas: seq<CallDelta>, index: nat, which: Which) {
    forall i, text :: 0 <= i < |deltas| ==> !Gives(deltas[i], index, which, text)
  }

  ghost predicate Tells(value: Option<string>, deltas: seq<CallDelta>, index: nat, which: Which) {
    if value.Some? then Given(deltas, index, which, value.value) else NotGiven(deltas, index, which)
  }

  ghost predicate Occurs(deltas: seq<CallDelta>, index: nat) { exists i :: 0 <= i < |deltas| && Piece(deltas[i], index) }

  /** Some piece of the call carries arguments, if only an empty text. */
  ghost predicate Argued(deltas: seq<CallDelta>, index: nat) { exists i :: 0 <= i < |deltas| && Argues(deltas[i], index) }

  predicate Argues(d: CallDelta, index: nat) { Piece(d, index) && d.function_.Function? && d.function_.arguments.Text? }

  /** The parts assembled under an index are what its pieces give. */
  ghost predicate Described(calls: map<nat, Parts>, deltas: seq<CallDelta>, index: nat) {
    && (index in calls <==> Occurs(deltas, index))
    && var p := if index in calls then calls[index] else NO_PARTS;
       && Tells(p.id, deltas, index, Id) && Tells(p.kind, deltas, index, Kind) && Tells(p.name, deltas, index, Called)
       && (p.sawArguments <==> Argued(deltas, index))
  }

  lemma MergeTells(current: Option<string>, field: Field, deltas: seq<CallDelta>, d: CallDelta, index: nat, which: Which)
    requires Tells(current, deltas, index, which) && Merge(current, field).Ok?
    requires if Piece(d, index) then FieldOf(d, which) == field else field == Absent
    ensures Tells(Merge(current, field).value, deltas + [d], index, which)
  {
    var more := deltas + [d];
    assert more[|deltas|] == d && forall i :: 0 <= i < |deltas| ==> more[i] == deltas[i];
    if current.Some? {
      var i :| 0 <= i < |deltas| && Gives(deltas[i], index, which, current.value);
      assert Gives(more[i], index, which, current.value);
    }
    if field.Text? { assert Gives(more[|deltas|], index, which, field.text); }
  }

  /** A piece of another call says nothing of this one. */
  lemma StillDescribed(calls: map<nat, Parts>, deltas: seq<CallDelta>, d: CallDelta, index: nat)
    requires Described(calls, deltas, index) && !Piece(d, index)
    ensures Described(calls, deltas + [d], index)
  {
    hide Tells, Piece;
    var p := if index in calls then calls[index] else NO_PARTS;
    MergeTells(p.id, Absent, deltas, d, index, Id);
    MergeTells(p.kind, Absent, deltas, d, index, Kind);
    MergeTells(p.name, Absent, deltas, d, index, Called);
    OccursMore(deltas, d, index);
    OtherArgues(d, index);
    ArguedMore(deltas, d, index);
    hide Argued;
  }

  lemma OtherArgues(d: CallDelta, index: nat)
    requires !Piece(d, index)
    ensures !Argues(d, index)
  {
  }

  lemma OccursMore(deltas: seq<CallDelta>, d: CallDelta, index: nat)
    ensures Occurs(deltas + [d], index) <==> Occurs(deltas, index) || Piece(d, index)
  {
    hide Piece;
    var more := deltas + [d];
    assert more[|deltas|] == d && forall i :: 0 <= i < |deltas| ==> more[i] == deltas[i];
    if Occurs(deltas, index) {
      var i :| 0 <= i < |deltas| && Piece(deltas[i], index);
      assert Piece(more[i], index);
    }
    if Piece(d, index) { assert Piece(more[|deltas|], index); }
  }

  lemma ArguedMore(deltas: seq<CallDelta>, d: CallDelta, index: nat)
    ensures Argued(deltas + [d], index) <==> Argued(deltas, index) || Argues(d, index)
  {
    hide Argues;
    var more := deltas + [d];
    assert more[|deltas|] == d && forall i :: 0 <= i < |deltas| ==> more[i] == deltas[i];
    if Argued(deltas, index) {
      var i :| 0 <= i < |deltas| && Argues(deltas[i], index);
      assert Argues(more[i], index);
    }
    if Argues(d, index) { assert Argues(more[|deltas|], index); }
  }

  lemma TakenIsDescribed(a: Assembled, deltas: seq<CallDelta>, d: CallDelta, index: nat)
    requires Described(a.calls, deltas, index) && TakeCall(a, d).Ok?
    ensures Described(TakeCall(a, d).value.calls, deltas + [d], index)
  {
    var b := TakeCall(a, d).value;
    if Piece(d, index) {
      var p := if index in a.calls then a.calls[index] else NO_PARTS;
      MergeTells(p.id, d.id, deltas, d, index, Id);
      MergeTells(p.kind, d.kind, deltas, d, index, Kind);
      MergeTells(p.name, FieldOf(d, Called), deltas, d, index, Called);
      OccursMore(deltas, d, index);
      ArguedMore(deltas, d, index);
      hide Tells, Occurs, Argued;
    } else {
      hide Described;
      SameCalls(a, d, index);
      assert Described(b.calls, deltas, index) by { OnlyThisCall(a.calls, b.calls, deltas, index); }
      StillDescribed(b.calls, deltas, d, index);
    }
  }

  lemma SameCalls(a: Assembled, d: CallDelta, index: nat)
    requires TakeCall(a, d).Ok? && !Piece(d, index)
    ensures var b := TakeCall(a, d).value;
            (index in b.calls <==> index in a.calls) && (index in a.calls ==> b.calls[index] == a.calls[index])
  {
  }

  lemma OnlyThisCall(before: map<nat, Parts>, now: map<nat, Parts>, deltas: seq<CallDelta>, index: nat)
    requires Described(before, deltas, index) && (index in now <==> index in before) && (index in before ==> now[index] == before[index])
    ensures Described(now, deltas, index)
  {
    hide Tells, Occurs, Argued;
  }

  lemma {:induction false} AllTakenDescribed(a: Assembled, before: seq<CallDelta>, deltas: seq<CallDelta>, index: nat)
    requires Described(a.calls, before, index) && TakeCalls(a, deltas).Ok?
    ensures Described(TakeCalls(a, deltas).value.calls, before + deltas, index)
  {
    hide Described, TakeCall;
    if deltas == [] {
      assert before + deltas == before;
    } else {
      var front, d := deltas[..|deltas| - 1], deltas[|deltas| - 1];
      AllTakenDescribed(a, before, front, index);
      TakenIsDescribed(TakeCalls(a, front).value, before + front, d, index);
      assert before + deltas == before + front + [d];
    }
  }

  // ----- All payloads -----

  /** What one payload adds to the texts and calls. */
  lemma PayloadAdds(parse: Parser, a: Assembled, payload: string)
    requires Take(parse, a, payload).Ok?
    ensures var b := Take(parse, a, payload).value;
            && b.reasoning == a.reasoning + ReasoningIn(parse, payload)
            && TakeCalls(a, CallsIn(parse, payload)).Ok? && b.calls == TakeCalls(a, CallsIn(parse, payload)).value.calls
  {
    hide KnownReason, TakeCalls;
    if payload == DONE || parse(payload).choices.value == [] {
      NoCallsTaken(a);
    } else {
      var d := parse(payload).choices.value[0].delta;
      var usage := parse(payload).usage;
      var b := if usage.Usage? then a.(usage := Some(usage.usage)) else a;
      var c := b.(reasoning := if d.reasoning.Text? then b.reasoning + d.reasoning.text else b.reasoning,
                  content := if d.content.Text? then b.content + d.content.text else b.content);
      if d.calls.Calls? {
        CallsOnly(c, d.calls.deltas);
        CallsApart(c, a, d.calls.deltas);
      } else {
        NoCallsTaken(a);
      }
    }
  }

  lemma DeltaKeepsEnd(a: Assembled, d: Delta)
    requires TakeDelta(a, d).Ok?
    ensures TakeDelta(a, d).value.finish == a.finish && TakeDelta(a, d).value.usage == a.usage
  {
    hide TakeCalls;
    forall c: Assembled | d.calls.Calls? ensures TakeCalls(c, d.calls.deltas).Ok? ==> SameButCalls(c, TakeCalls(c, d.calls.deltas).value) {
      CallsOnly(c, d.calls.deltas);
    }
  }

  /** What one payload says of the end and the cost. */
  lemma PayloadEnds(parse: Parser, a: Assembled, payload: string)
    requires Take(parse, a, payload).Ok?
    ensures var b := Take(parse, a, payload).value;
            && (forall reason :: EndsFor(parse, payload, reason) ==> a.finish.None? && b.finish == Some(reason))
            && (b.finish != a.finish ==> b.finish.Some? && EndsFor(parse, payload, b.finish.value))
            && (forall usage :: Costs(parse, payload, usage) ==> b.usage == Some(usage))
            && ((forall usage :: !Costs(parse, payload, usage)) ==> b.usage == a.usage)
  {
    hide KnownReason, TakeDelta;
    if payload != DONE && parse(payload).choices.value != [] {
      var usage := parse(payload).usage;
      DeltaKeepsEnd(if usage.Usage? then a.(usage := Some(usage.usage)) else a, parse(payload).choices.value[0].delta);
    }
    if payload != DONE && parse(payload).usage.Usage? { assert Costs(parse, payload, parse(payload).usage.usage); }
  }

  lemma NoCallsTaken(a: Assembled)
    ensures TakeCalls(a, []) == Ok(a)
  {
  }

  /** The calls depend on nothing but the calls. */
  lemma {:induction false} CallsApart(a: Assembled, b: Assembled, deltas: seq<CallDelta>)
    requires a.calls == b.calls && TakeCalls(a, deltas).Ok?
    ensures TakeCalls(b, deltas).Ok? && TakeCalls(b, deltas).value.calls == TakeCalls(a, deltas).value.calls
  {
    if deltas != [] {
      CallsApart(a, b, deltas[..|deltas| - 1]);
      hide TakeFunction, Merge;
    }
  }

  /** The reasons given are one, by one payload; the cost is the last one said. */
  ghost predicate EndAndCost(parse: Parser, a: Assembled, payloads: seq<string>) {
    && (a.finish.Some? ==> exists i :: 0 <= i < |payloads| && EndsFor(parse, payloads[i], a.finish.value))
    && (forall i, reason :: 0 <= i < |payloads| && EndsFor(parse, payloads[i], reason) ==> a.finish == Some(reason))
    && (a.usage.Some? ==> exists i :: LastCost(parse, payloads, i, a.usage.value))
    && (a.usage.None? ==> forall i, usage :: 0 <= i < |payloads| ==> !Costs(parse, payloads[i], usage))
  }

  lemma EndAndCostMore(parse: Parser, a: Assembled, front: seq<string>, payload: string)
    requires EndAndCost(parse, a, front) && Take(parse, a, payload).Ok?
    ensures EndAndCost(parse, Take(parse, a, payload).value, front + [payload])
  {
    PayloadEnds(parse, a, payload);
    hide Take, EndsFor, Costs, TakeCalls;
    var b, all := Take(parse, a, payload).value, front + [payload];
    assert all[|front|] == payload && forall i :: 0 <= i < |front| ==> all[i] == front[i];
    if b.finish.Some? {
      if b.finish == a.finish {
        var i :| 0 <= i < |front| && EndsFor(parse, front[i], a.finish.value);
        assert EndsFor(parse, all[i], b.finish.value);
      } else {
        assert EndsFor(parse, all[|front|], b.finish.value);
      }
    }
    if exists usage :: Costs(parse, payload, usage) {
      var usage :| Costs(parse, payload, usage);
      assert LastCost(parse, all, |front|, usage);
    } else if a.usage.Some? {
      var i :| LastCost(parse, front, i, a.usage.value);
      assert LastCost(parse, all, i, a.usage.value);
    }
  }

  /** What has been assembled is what the payloads say. */
  lemma {:induction false} AssembledSays(parse: Parser, payloads: seq<string>, index: nat)
    requires TakeAll(parse, payloads).Ok?
    ensures var a := TakeAll(parse, payloads).value;
            && a.reasoning == ReasoningOf(parse, payloads) && EndAndCost(parse, a, payloads)
            && Described(a.calls, AllCalls(parse, payloads), index)
  {
    hide EndAndCost, Described, Take;
    if payloads == [] {
      NothingSays(parse, index);
    } else {
      var front, last := payloads[..|payloads| - 1], payloads[|payloads| - 1];
      AssembledSays(parse, front, index);
      var a := TakeAll(parse, front).value;
      PayloadAdds(parse, a, last);
      EndAndCostMore(parse, a, front, last);
      assert front + [last] == payloads;
      AllTakenDescribed(a, AllCalls(parse, front), CallsIn(parse, last), index);
    }
  }

  lemma NothingSays(parse: Parser, index: nat)
    ensures EndAndCost(parse, NOTHING, []) && Described(NOTHING.calls, [], index)
  {
  }

  // ----- The response -----

  /** A call of the response is what was streamed under its index. */
  ghost predicate Streamed(c: SampledCall, deltas: seq<CallDelta>) {
    && Given(deltas, c.index, Id, c.id) && Given(deltas, c.index, Kind, c.kind) && Given(deltas, c.index, Called, c.name)
    && c.arguments == ArgumentsOf(deltas, c.index)
  }

  /** The calls of the response: none if it was cut short, else one for each index that was streamed, by index. */
  ghost predicate CallsStreamed(calls: seq<SampledCall>, cut: bool, deltas: seq<CallDelta>) {
    && (cut ==> calls == [])
    && (forall i :: 0 <= i < |calls| ==> Streamed(calls[i], deltas))
    && (forall i, j :: 0 <= i < j < |calls| ==> calls[i].index < calls[j].index)
    && (!cut ==> forall index: nat :: Occurs(deltas, index) ==> exists i :: 0 <= i < |calls| && calls[i].index == index)
  }

  /** Nothing in a response is other than streamed, and nothing streamed is left out or under another name. */
  lemma ResponseSays(parse: Parser, payloads: seq<string>, r: StreamResponse)
    requires TakeAll(parse, payloads).Ok? && Response(TakeAll(parse, payloads).value) == Ok(r)
    ensures r.content == ContentOf(parse, payloads) && r.reasoning == ReasoningOf(parse, payloads)
    ensures exists i :: 0 <= i < |payloads| && EndsFor(parse, payloads[i], r.finish)
    ensures forall i, reason :: 0 <= i < |payloads| && EndsFor(parse, payloads[i], reason) ==> reason == r.finish
    ensures if r.usage.Some? then exists i :: LastCost(parse, payloads, i, r.usage.value)
            else forall i, usage :: 0 <= i < |payloads| ==> !Costs(parse, payloads[i], usage)
    ensures CallsStreamed(r.calls, r.finish in {"length", "content_filter", "insufficient_system_resource"}, AllCalls(parse, payloads))
  {
    hide *;
    var a := TakeAll(parse, payloads).value;
    AssembledSays(parse, payloads, 0);
    AssembledInOrder(parse, payloads, 0);
    ResponseIs(a, r);
    EndIs(parse, a, payloads);
    if r.finish in {"length", "content_filter", "insufficient_system_resource"} {
      NoCallsStreamed(AllCalls(parse, payloads));
    } else {
      SampledStreamed(parse, payloads);
    }
  }

  lemma ResponseIs(a: Assembled, r: StreamResponse)
    requires Response(a) == Ok(r)
    ensures r.content == a.content && r.reasoning == a.reasoning && a.finish == Some(r.finish) && r.usage == a.usage
    ensures if r.finish in {"length", "content_filter", "insufficient_system_resource"} then r.calls == [] else Sampled(a.calls) == Some(r.calls)
  {
    hide Sampled;
  }

  lemma EndIs(parse: Parser, a: Assembled, payloads: seq<string>)
    requires EndAndCost(parse, a, payloads) && a.finish.Some?
    ensures exists i :: 0 <= i < |payloads| && EndsFor(parse, payloads[i], a.finish.value)
    ensures forall i, reason :: 0 <= i < |payloads| && EndsFor(parse, payloads[i], reason) ==> reason == a.finish.value
    ensures if a.usage.Some? then exists i :: LastCost(parse, payloads, i, a.usage.value)
            else forall i, usage :: 0 <= i < |payloads| ==> !Costs(parse, payloads[i], usage)
  {
    hide EndsFor, LastCost, Costs;
    forall i, reason | 0 <= i < |payloads| && EndsFor(parse, payloads[i], reason) ensures reason == a.finish.value {
      assert a.finish == Some(reason);
    }
  }

  lemma NoCallsStreamed(deltas: seq<CallDelta>)
    ensures CallsStreamed([], true, deltas)
  {
  }

  lemma SampledStreamed(parse: Parser, payloads: seq<string>)
    requires TakeAll(parse, payloads).Ok? && Sampled(TakeAll(parse, payloads).value.calls).Some?
    ensures CallsStreamed(Sampled(TakeAll(parse, payloads).value.calls).value, false, AllCalls(parse, payloads))
  {
    var calls, deltas := TakeAll(parse, payloads).value.calls, AllCalls(parse, payloads);
    SampledInOrder(calls);
    var s := Sampled(calls).value;
    hide TakeAll, Sampled, Given, Occurs, CompleteParts;
    forall i | 0 <= i < |s| ensures Streamed(s[i], deltas) {
      AssembledSays(parse, payloads, s[i].index);
      AssembledInOrder(parse, payloads, s[i].index);
      PartsStreamed(calls, deltas, s[i].index);
    }
    forall index: nat | Occurs(deltas, index) ensures exists i :: 0 <= i < |s| && s[i].index == index {
      AssembledSays(parse, payloads, index);
      IndexSampled(calls, s, index);
    }
  }

  lemma PartsStreamed(calls: map<nat, Parts>, deltas: seq<CallDelta>, index: nat)
    requires Described(calls, deltas, index) && index in calls && CompleteParts(calls[index])
    requires calls[index].arguments == ArgumentsOf(deltas, index)
    ensures Streamed(SampledOf(index, calls[index]), deltas)
  {
    hide Given, NotGiven, Occurs;
  }

  /** As many indices as calls: none is left out. */
  lemma IndexSampled(calls: map<nat, Parts>, s: seq<SampledCall>, index: nat)
    requires |s| == |calls| && index in calls && (forall i :: 0 <= i < |s| ==> s[i].index in calls)
    requires forall i, j :: 0 <= i < j < |s| ==> s[i].index < s[j].index
    ensures exists i :: 0 <= i < |s| && s[i].index == index
  {
    var found := set i | 0 <= i < |s| :: s[i].index;
    AllDifferent(s);
    assert found <= calls.Keys;
    if index !in found { Smaller(found, calls.Keys, index); }
  }

  lemma Smaller(a: set<nat>, b: set<nat>, x: nat)
    requires a <= b && x in b && x !in a
    ensures |a| < |b|
  {
    assert |b - a| > 0 && |b| == |a| + |b - a| by { assert b == a + (b - a); assert x in b - a; }
  }

  lemma {:induction false} AllDifferent(s: seq<SampledCall>)
    requires forall i, j :: 0 <= i < j < |s| ==> s[i].index < s[j].index
    ensures |set i | 0 <= i < |s| :: s[i].index| == |s|
  {
    if s != [] {
      var front := s[..|s| - 1];
      AllDifferent(front);
      assert (set i | 0 <= i < |s| :: s[i].index) == (set i | 0 <= i < |front| :: front[i].index) + {s[|s| - 1].index};
    }
  }

  /** The same of a whole stream of bytes: the payloads are the events of its text. */
  lemma StreamSays(parse: Parser, bytes: seq<Byte>, r: StreamResponse)
    requires ResponseTo(parse, bytes) == Some(r)
    ensures Decode([], bytes).Some? && Decode([], bytes).value.pending == []
    ensures var payloads := StreamEvents(Decode([], bytes).value.text);
            && r.content == ContentOf(parse, payloads) && r.reasoning == ReasoningOf(parse, payloads)
            && (exists i :: 0 <= i < |payloads| && EndsFor(parse, payloads[i], r.finish))
            && (r.usage.Some? ==> exists i :: LastCost(parse, payloads, i, r.usage.value))
            && CallsStreamed(r.calls, r.finish in {"length", "content_filter", "insufficient_system_resource"}, AllCalls(parse, payloads))
  {
    hide Decode, StreamEvents, TakeAll, Response, CallsStreamed, EndsFor, LastCost, ContentOf, ReasoningOf;
    ResponseSays(parse, StreamEvents(Decode([], bytes).value.text), r);
  }
}
