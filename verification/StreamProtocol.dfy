/**
 Which streams have a response: the rules that every payload must follow, one by one and with those before it, told
 without the assembler, and that exactly the streams that follow them all are assembled.
 */
module StreamProtocol {
  import opened Domain
  import opened Utf8
  import opened Sse
  import opened SseAssembler
  import opened ResponseMeaning

  // ----- One payload by itself -----

  predicate GoodField(f: Field) { f.Absent? || f.Text? }

  predicate GoodCall(d: CallDelta) {
    && d.CallDelta? && d.index.Some? && d.index.value >= 0 && GoodField(d.id) && GoodField(d.kind)
    && (d.function_.NoFunction? || (d.function_.Function? && GoodField(d.function_.name) && GoodField(d.function_.arguments)))
  }

  /** The texts may be null, and the calls are all in order. */
  predicate GoodDelta(d: Delta) {
    && d.Delta? && !d.reasoning.WrongType? && !d.content.WrongType?
    && (d.calls.NoCalls? || (d.calls.Calls? && forall i :: 0 <= i < |d.calls.deltas| ==> GoodCall(d.calls.deltas[i])))
  }

  predicate AReason(reason: string) { reason in {"stop", "tool_calls", "length", "content_filter", "insufficient_system_resource"} }

  predicate GoodChoice(c: Choice) {
    c.Choice? && c.index == Some(0) && (c.finish.Null? || (c.finish.Text? && AReason(c.finish.text))) && GoodDelta(c.delta)
  }

  predicate GoodPayload(parse: Parser, payload: string) {
    payload != DONE ==>
      && parse(payload).Document? && !parse(payload).usage.BadUsage? && parse(payload).choices.Some?
      && (parse(payload).choices.value != [] ==> GoodChoice(parse(payload).choices.value[0]))
  }

  // ----- A payload and those before it -----

  predicate HasChoice(parse: Parser, payload: string) {
    payload != DONE && parse(payload).Document? && parse(payload).choices.Some? && parse(payload).choices.value != []
  }

  predicate SaysUsage(parse: Parser, payload: string) { payload != DONE && parse(payload).Document? && !parse(payload).usage.NoUsage? }

  /** Nothing follows the marker, no choice follows a reason for the end, and only usage, or what follows it, comes without a choice. */
  ghost predicate Follows(parse: Parser, before: seq<string>, payload: string) {
    && GoodPayload(parse, payload) && DONE !in before
    && (HasChoice(parse, payload) ==> forall j, reason :: 0 <= j < |before| ==> !EndsFor(parse, before[j], reason))
    && (payload != DONE && !HasChoice(parse, payload) ==>
          SaysUsage(parse, payload) || exists j, usage :: 0 <= j < |before| && Costs(parse, before[j], usage))
  }

  /** The pieces of one call never give one field twice differently. */
  ghost predicate Consistent(deltas: seq<CallDelta>) {
    forall a, b, index, which, text, other ::
      0 <= a < |deltas| && 0 <= b < |deltas| && Gives(deltas[a], index, which, text) && Gives(deltas[b], index, which, other) ==> text == other
  }

  ghost predicate Orderly(parse: Parser, payloads: seq<string>) {
    AllFollow(parse, payloads) && Consistent(AllCalls(parse, payloads))
  }

  ghost predicate AllFollow(parse: Parser, payloads: seq<string>) {
    forall i :: 0 <= i < |payloads| ==> Follows(parse, payloads[..i], payloads[i])
  }

  /** Id and name are given and not empty, the kind is a function, and arguments have come. */
  ghost predicate CompleteCall(deltas: seq<CallDelta>, index: nat) {
    && (exists id :: Given(deltas, index, Id, id) && id != []) && Given(deltas, index, Kind, "function")
    && (exists name :: Given(deltas, index, Called, name) && name != []) && Argued(deltas, index)
  }

  /** It was given a reason for the end, and unless that cut it short it is complete and says something. */
  ghost predicate Ended(parse: Parser, payloads: seq<string>, reason: string) {
    && (exists i :: 0 <= i < |payloads| && EndsFor(parse, payloads[i], reason))
    && Enough(AllCalls(parse, payloads), ContentOf(parse, payloads), reason)
  }

  ghost predicate Enough(deltas: seq<CallDelta>, content: string, reason: string) {
    reason !in {"length", "content_filter", "insufficient_system_resource"} ==>
      && (forall index: nat :: Occurs(deltas, index) ==> CompleteCall(deltas, index))
      && (content != [] || exists index: nat :: Occurs(deltas, index))
      && (reason == "tool_calls" ==> exists index: nat :: Occurs(deltas, index))
  }

  ghost predicate HasResponse(parse: Parser, payloads: seq<string>) {
    Orderly(parse, payloads) && payloads != [] && payloads[|payloads| - 1] == DONE && exists reason :: Ended(parse, payloads, reason)
  }

  // ----- Calls -----

  lemma ConsistentFront(a: seq<CallDelta>, b: seq<CallDelta>)
    requires Consistent(a + b)
    ensures Consistent(a)
  {
    hide Gives;
    forall i, j, index, which, text, other | 0 <= i < |a| && 0 <= j < |a| && Gives(a[i], index, which, text) && Gives(a[j], index, which, other)
      ensures text == other
    {
      assert (a + b)[i] == a[i] && (a + b)[j] == a[j];
    }
  }

  /** What was assembled under an index takes another field exactly if it agrees. */
  lemma MergeAgrees(current: Option<string>, field: Field, deltas: seq<CallDelta>, index: nat, which: Which)
    requires Tells(current, deltas, index, which)
    ensures Merge(current, field).Ok? <==>
            GoodField(field) && forall i, text :: 0 <= i < |deltas| && field.Text? && Gives(deltas[i], index, which, text) ==> text == field.text
  {
    hide Gives;
    if current.Some? {
      var i :| 0 <= i < |deltas| && Gives(deltas[i], index, which, current.value);
    }
  }

  /** This piece gives no field otherwise than those before it. */
  ghost predicate Fitting(deltas: seq<CallDelta>, d: CallDelta) {
    forall i, index, which, text, other :: 0 <= i < |deltas| && Gives(deltas[i], index, which, text) && Gives(d, index, which, other) ==> text == other
  }

  lemma ConsistentMore(deltas: seq<CallDelta>, d: CallDelta)
    requires Consistent(deltas)
    ensures Consistent(deltas + [d]) <==> Fitting(deltas, d)
  {
    var more := deltas + [d];
    assert more[|deltas|] == d && forall i :: 0 <= i < |deltas| ==> more[i] == deltas[i];
    GivesOnce(d);
    hide Gives;
    if Consistent(more) {
      forall i, index, which, text, other | 0 <= i < |deltas| && Gives(deltas[i], index, which, text) && Gives(d, index, which, other)
        ensures text == other
      {
        assert Gives(more[i], index, which, text) && Gives(more[|deltas|], index, which, other);
      }
    }
    if Fitting(deltas, d) {
      forall a, b, index, which, text, other | 0 <= a < |more| && 0 <= b < |more| && Gives(more[a], index, which, text) && Gives(more[b], index, which, other)
        ensures text == other
      {
        if a < |deltas| && b < |deltas| { assert Gives(deltas[a], index, which, text) && Gives(deltas[b], index, which, other); }
      }
    }
  }

  lemma GivesOnce(d: CallDelta)
    ensures forall index, which, text, other :: Gives(d, index, which, text) && Gives(d, index, which, other) ==> text == other
  {
  }

  ghost predicate AllDescribed(calls: map<nat, Parts>, deltas: seq<CallDelta>) { forall index: nat :: Described(calls, deltas, index) }

  /** A piece is taken exactly if it is in order and fits those before it. */
  lemma TakesCall(a: Assembled, deltas: seq<CallDelta>, d: CallDelta)
    requires AllDescribed(a.calls, deltas)
    ensures TakeCall(a, d).Ok? <==> GoodCall(d) && Fitting(deltas, d)
  {
    if GoodCall(d) {
      var index: nat := d.index.value;
      var parts := if index in a.calls then a.calls[index] else NO_PARTS;
      assert Described(a.calls, deltas, index);
      MergeAgrees(parts.id, d.id, deltas, index, Id);
      MergeAgrees(parts.kind, d.kind, deltas, index, Kind);
      MergeAgrees(parts.name, FieldOf(d, Called), deltas, index, Called);
      FittingIs(deltas, d, index);
      hide Described, Fitting, Gives;
    }
  }

  lemma FittingIs(deltas: seq<CallDelta>, d: CallDelta, index: nat)
    requires Piece(d, index)
    ensures Fitting(deltas, d) <==>
            forall i, which, text :: 0 <= i < |deltas| && FieldOf(d, which).Text? && Gives(deltas[i], index, which, text) ==> text == FieldOf(d, which).text
  {
    hide FieldOf;
    if Fitting(deltas, d) {
      forall i, which, text | 0 <= i < |deltas| && FieldOf(d, which).Text? && Gives(deltas[i], index, which, text)
        ensures text == FieldOf(d, which).text
      {
        assert Gives(d, index, which, FieldOf(d, which).text);
      }
    }
  }

  /** The pieces of one payload are taken exactly if each is in order and all fit. */
  lemma {:induction false} TakesCalls(a: Assembled, before: seq<CallDelta>, deltas: seq<CallDelta>)
    requires AllDescribed(a.calls, before) && Consistent(before)
    ensures TakeCalls(a, deltas).Ok? <==> (forall i :: 0 <= i < |deltas| ==> GoodCall(deltas[i])) && Consistent(before + deltas)
  {
    hide GoodCall, Consistent, Fitting, TakeCall, AllDescribed;
    if deltas == [] {
      assert before + deltas == before;
    } else {
      var front, d := deltas[..|deltas| - 1], deltas[|deltas| - 1];
      TakesCalls(a, before, front);
      assert before + deltas == before + front + [d];
      if Consistent(before + deltas) { ConsistentFront(before + front, [d]); }
      if TakeCalls(a, front).Ok? {
        AllStillDescribed(a, before, front);
        TakesCall(TakeCalls(a, front).value, before + front, d);
        ConsistentMore(before + front, d);
      }
    }
  }

  lemma AllStillDescribed(a: Assembled, before: seq<CallDelta>, deltas: seq<CallDelta>)
    requires AllDescribed(a.calls, before) && TakeCalls(a, deltas).Ok?
    ensures AllDescribed(TakeCalls(a, deltas).value.calls, before + deltas)
  {
    forall index: nat ensures Described(TakeCalls(a, deltas).value.calls, before + deltas, index) {
      AllTakenDescribed(a, before, deltas, index);
    }
  }

  // ----- Payloads -----

  /** What the state knows of the payloads before. */
  ghost predicate Knows(parse: Parser, a: Assembled, before: seq<string>) {
    && (a.done <==> DONE in before)
    && (a.finish.Some? <==> exists j, reason :: 0 <= j < |before| && EndsFor(parse, before[j], reason))
    && (a.usage.Some? <==> exists j, usage :: 0 <= j < |before| && Costs(parse, before[j], usage))
    && AllDescribed(a.calls, AllCalls(parse, before))
  }

  lemma TakenKnows(parse: Parser, before: seq<string>)
    requires TakeAll(parse, before).Ok?
    ensures Knows(parse, TakeAll(parse, before).value, before)
  {
    var a := TakeAll(parse, before).value;
    DoneIsLast(parse, before);
    AssembledSays(parse, before, 0);
    hide *;
    forall index: nat ensures Described(a.calls, AllCalls(parse, before), index) { AssembledSays(parse, before, index); }
    AreDescribed(a.calls, AllCalls(parse, before));
    EndKnown(parse, a, before);
    KnowsAll(parse, a, before);
  }

  lemma AreDescribed(calls: map<nat, Parts>, deltas: seq<CallDelta>)
    requires forall index: nat :: Described(calls, deltas, index)
    ensures AllDescribed(calls, deltas)
  {
    hide Described;
  }

  lemma EndKnown(parse: Parser, a: Assembled, before: seq<string>)
    requires EndAndCost(parse, a, before)
    ensures a.finish.Some? <==> exists j, reason :: 0 <= j < |before| && EndsFor(parse, before[j], reason)
    ensures a.usage.Some? <==> exists j, usage :: 0 <= j < |before| && Costs(parse, before[j], usage)
  {
    hide EndsFor, Costs;
    if a.usage.Some? { var i :| LastCost(parse, before, i, a.usage.value); }
    if a.finish.Some? {
      var i :| 0 <= i < |before| && EndsFor(parse, before[i], a.finish.value);
    }
    if exists j, reason :: 0 <= j < |before| && EndsFor(parse, before[j], reason) {
      var j, reason :| 0 <= j < |before| && EndsFor(parse, before[j], reason);
      EndsOnce(parse, a, before, j, reason);
    }
  }

  lemma EndsOnce(parse: Parser, a: Assembled, before: seq<string>, j: nat, reason: string)
    requires EndAndCost(parse, a, before) && j < |before| && EndsFor(parse, before[j], reason)
    ensures a.finish == Some(reason)
  {
    hide EndsFor, Costs, LastCost;
  }

  lemma KnowsAll(parse: Parser, a: Assembled, before: seq<string>)
    requires (a.done <==> before != [] && before[|before| - 1] == DONE) && forall i :: 0 <= i < |before| - 1 ==> before[i] != DONE
    requires a.finish.Some? <==> exists j, reason :: 0 <= j < |before| && EndsFor(parse, before[j], reason)
    requires a.usage.Some? <==> exists j, usage :: 0 <= j < |before| && Costs(parse, before[j], usage)
    requires AllDescribed(a.calls, AllCalls(parse, before))
    ensures Knows(parse, a, before)
  {
    hide EndsFor, Costs, AllDescribed, AllCalls;
  }

  /** The choice of a payload is taken exactly if it is in order, is not too late, and its pieces fit. */
  lemma TakesChoice(a: Assembled, c: Choice, before: seq<CallDelta>)
    requires AllDescribed(a.calls, before) && Consistent(before)
    ensures TakeChoice(a, c).Ok? <==>
            a.finish.None? && GoodChoice(c) && Consistent(before + if c.Choice? && c.delta.Delta? && c.delta.calls.Calls? then c.delta.calls.deltas else [])
  {
    ReasonIs(c);
    assert before + [] == before;
    if c.Choice? {
      TakesDelta(a, c.delta, before);
    }
    hide TakeDelta, GoodDelta, AReason, KnownReason, Consistent, AllDescribed;
  }

  lemma ReasonIs(c: Choice)
    ensures c.Choice? && c.finish.Text? ==> (AReason(c.finish.text) <==> KnownReason(c.finish.text))
  {
  }

  lemma TakesDelta(a: Assembled, d: Delta, before: seq<CallDelta>)
    requires AllDescribed(a.calls, before) && Consistent(before)
    ensures TakeDelta(a, d).Ok? <==> GoodDelta(d) && Consistent(before + if d.Delta? && d.calls.Calls? then d.calls.deltas else [])
  {
    assert before + [] == before;
    if d.Delta? && d.calls.Calls? {
      var b := if d.reasoning.Text? then a.(reasoning := a.reasoning + d.reasoning.text) else a;
      var c := if d.content.Text? then b.(content := b.content + d.content.text) else b;
      TakesCalls(c, before, d.calls.deltas);
    }
    hide TakeCalls, GoodCall, Consistent, AllDescribed;
  }

  lemma TakesPayload(parse: Parser, a: Assembled, before: seq<string>, payload: string)
    requires Knows(parse, a, before) && Consistent(AllCalls(parse, before))
    ensures Take(parse, a, payload).Ok? <==> Follows(parse, before, payload) && Consistent(AllCalls(parse, before) + CallsIn(parse, payload))
  {
    var deltas := AllCalls(parse, before);
    assert deltas + [] == deltas;
    if HasChoice(parse, payload) {
      var usage, c := parse(payload).usage, parse(payload).choices.value[0];
      var b := if usage.Usage? then a.(usage := Some(usage.usage)) else a;
      TakesChoice(b, c, deltas);
      ChoiceCalls(parse, payload, c);
    }
    hide AllCalls, GoodChoice, TakeChoice, Consistent, AllDescribed, EndsFor, Costs;
  }

  lemma ChoiceCalls(parse: Parser, payload: string, c: Choice)
    requires HasChoice(parse, payload) && c == parse(payload).choices.value[0]
    ensures CallsIn(parse, payload) == if c.Choice? && c.delta.Delta? && c.delta.calls.Calls? then c.delta.calls.deltas else []
  {
  }

  lemma OrderlyMore(parse: Parser, front: seq<string>, last: string)
    ensures Orderly(parse, front + [last]) <==>
            Orderly(parse, front) && Follows(parse, front, last) && Consistent(AllCalls(parse, front) + CallsIn(parse, last))
  {
    FollowMore(parse, front, last);
    CallsMore(parse, front, last);
    hide Follows, Consistent, AllCalls, CallsIn, AllFollow;
    if Consistent(AllCalls(parse, front + [last])) { ConsistentFront(AllCalls(parse, front), CallsIn(parse, last)); }
  }

  lemma CallsMore(parse: Parser, front: seq<string>, last: string)
    ensures AllCalls(parse, front + [last]) == AllCalls(parse, front) + CallsIn(parse, last)
  {
    assert (front + [last])[..|front|] == front;
  }

  lemma FollowMore(parse: Parser, front: seq<string>, last: string)
    ensures AllFollow(parse, front + [last]) <==> AllFollow(parse, front) && Follows(parse, front, last)
  {
    hide Follows;
    var all := front + [last];
    assert all[..|front|] == front && all[|front|] == last;
    forall i | 0 <= i < |front| ensures Follows(parse, all[..i], all[i]) <==> Follows(parse, front[..i], front[i]) {
      assert all[..i] == front[..i];
    }
    if AllFollow(parse, all) { assert Follows(parse, all[..|front|], all[|front|]); }
  }

  /** The assembler takes exactly the streams that follow the rules. */
  lemma {:induction false} TakesOrderly(parse: Parser, payloads: seq<string>)
    ensures TakeAll(parse, payloads).Ok? <==> Orderly(parse, payloads)
  {
    if payloads == [] {
      assert AllCalls(parse, payloads) == [];
    } else {
      var front, last := payloads[..|payloads| - 1], payloads[|payloads| - 1];
      assert front + [last] == payloads;
      TakesOrderly(parse, front);
      hide Orderly, Follows, Consistent, Take, AllCalls, CallsIn, Knows;
      OrderlyMore(parse, front, last);
      if TakeAll(parse, front).Ok? {
        TakenKnows(parse, front);
        OrderlyCalls(parse, front);
        TakesPayload(parse, TakeAll(parse, front).value, front, last);
      }
    }
  }

  lemma OrderlyCalls(parse: Parser, payloads: seq<string>)
    requires Orderly(parse, payloads)
    ensures Consistent(AllCalls(parse, payloads))
  {
    hide Consistent, Follows;
  }

  // ----- The response -----

  lemma CompletePartsIs(calls: map<nat, Parts>, deltas: seq<CallDelta>, index: nat)
    requires Described(calls, deltas, index) && index in calls
    ensures CompleteParts(calls[index]) <==> CompleteCall(deltas, index)
  {
    var p := calls[index];
    GivenIs(p.id, deltas, index, Id);
    GivenIs(p.kind, deltas, index, Kind);
    GivenIs(p.name, deltas, index, Called);
    hide Given, NotGiven, Argued, Occurs;
  }

  lemma GivenIs(value: Option<string>, deltas: seq<CallDelta>, index: nat, which: Which)
    requires Tells(value, deltas, index, which)
    ensures forall text :: Given(deltas, index, which, text) <==> value == Some(text)
  {
    hide Gives;
    forall text ensures Given(deltas, index, which, text) <==> value == Some(text) {
      if Given(deltas, index, which, text) {
        var i :| 0 <= i < |deltas| && Gives(deltas[i], index, which, text);
      }
    }
  }

  lemma {:induction false} SampledExactly(calls: map<nat, Parts>)
    ensures Sampled(calls).Some? <==> forall index :: index in calls ==> CompleteParts(calls[index])
    ensures Sampled(calls).Some? ==> (Sampled(calls).value == [] <==> calls.Keys == {})
    decreases calls.Keys
  {
    hide CompleteParts;
    if calls.Keys != {} {
      var m := Least(calls.Keys);
      var fewer := calls - {m};
      assert fewer.Keys == calls.Keys - {m};
      SampledExactly(fewer);
      assert forall index :: index in fewer ==> fewer[index] == calls[index];
      if forall index :: index in fewer ==> CompleteParts(fewer[index]) {
        if CompleteParts(calls[m]) {
          forall index | index in calls ensures CompleteParts(calls[index]) {
            if index != m { assert index in fewer; }
          }
        }
      } else {
        var index :| index in fewer && !CompleteParts(fewer[index]);
        assert index in calls;
      }
    }
  }

  /** A state has a response exactly when it is done and the reason for its end asks for no more. */
  lemma ResponseExactly(a: Assembled)
    requires a.finish.Some? ==> AReason(a.finish.value)
    ensures Response(a).Ok? <==>
            && a.done && a.finish.Some?
            && (a.finish.value !in {"length", "content_filter", "insufficient_system_resource"} ==>
                  && (forall index :: index in a.calls ==> CompleteParts(a.calls[index]))
                  && (a.content != [] || a.calls.Keys != {}) && (a.finish.value == "tool_calls" ==> a.calls.Keys != {}))
  {
    SampledExactly(a.calls);
    hide Sampled, CompleteParts;
  }

  lemma EndsForReason(parse: Parser, payload: string, reason: string)
    requires GoodPayload(parse, payload) && EndsFor(parse, payload, reason)
    ensures AReason(reason)
  {
  }

  lemma SomeCall(calls: map<nat, Parts>, deltas: seq<CallDelta>)
    requires AllDescribed(calls, deltas)
    ensures calls.Keys != {} <==> exists index: nat :: Occurs(deltas, index)
    ensures (forall index :: index in calls ==> CompleteParts(calls[index])) <==>
            forall index: nat :: Occurs(deltas, index) ==> CompleteCall(deltas, index)
  {
    forall index: nat ensures index in calls <==> Occurs(deltas, index) { assert Described(calls, deltas, index); }
    forall index | index in calls ensures CompleteParts(calls[index]) <==> CompleteCall(deltas, index) {
      assert Described(calls, deltas, index);
      CompletePartsIs(calls, deltas, index);
    }
    hide Described, Occurs, CompleteParts, CompleteCall, AllDescribed;
    if calls.Keys != {} {
      var index :| index in calls.Keys;
      assert Occurs(deltas, index);
    }
  }

  /** A stream that follows the rules has a response exactly when it is closed and its end is in order. */
  lemma ResponseGiven(parse: Parser, payloads: seq<string>)
    ensures TakeAll(parse, payloads).Ok? && Response(TakeAll(parse, payloads).value).Ok? <==> HasResponse(parse, payloads)
  {
    TakesOrderly(parse, payloads);
    if TakeAll(parse, payloads).Ok? {
      var a := TakeAll(parse, payloads).value;
      DoneIsLast(parse, payloads);
      AssembledInOrder(parse, payloads, 0);
      EndReason(parse, payloads, a);
      TakenKnows(parse, payloads);
      hide *;
      KnowsCalls(parse, a, payloads);
      EnoughIs(a, AllCalls(parse, payloads));
      EndedIs(parse, payloads, a);
      HasResponseIs(parse, payloads);
    }
  }

  lemma KnowsCalls(parse: Parser, a: Assembled, before: seq<string>)
    requires Knows(parse, a, before)
    ensures AllDescribed(a.calls, AllCalls(parse, before))
  {
    hide AllDescribed, AllCalls, EndsFor, Costs;
  }

  lemma HasResponseIs(parse: Parser, payloads: seq<string>)
    ensures HasResponse(parse, payloads) <==>
            Orderly(parse, payloads) && payloads != [] && payloads[|payloads| - 1] == DONE && exists reason :: Ended(parse, payloads, reason)
  {
    hide Orderly, Ended;
  }

  lemma EndReason(parse: Parser, payloads: seq<string>, a: Assembled)
    requires Orderly(parse, payloads) && TakeAll(parse, payloads) == Ok(a)
    ensures a.finish.Some? ==> AReason(a.finish.value)
    ensures forall reason :: (exists i :: 0 <= i < |payloads| && EndsFor(parse, payloads[i], reason)) <==> a.finish == Some(reason)
  {
    AssembledSays(parse, payloads, 0);
    hide TakeAll, EndsFor, GoodPayload, AReason, Consistent, Described, AllCalls;
    if a.finish.Some? {
      var i :| 0 <= i < |payloads| && EndsFor(parse, payloads[i], a.finish.value);
      assert Follows(parse, payloads[..i], payloads[i]);
      EndsForReason(parse, payloads[i], a.finish.value);
    }
  }

  lemma EndedIs(parse: Parser, payloads: seq<string>, a: Assembled)
    requires forall reason :: (exists i :: 0 <= i < |payloads| && EndsFor(parse, payloads[i], reason)) <==> a.finish == Some(reason)
    ensures (exists reason :: Ended(parse, payloads, reason)) <==>
            a.finish.Some? && Enough(AllCalls(parse, payloads), ContentOf(parse, payloads), a.finish.value)
  {
    hide EndsFor, Enough, AllCalls, ContentOf;
    if exists reason :: Ended(parse, payloads, reason) {
      var reason :| Ended(parse, payloads, reason);
      assert a.finish == Some(reason);
    }
    if a.finish.Some? && Enough(AllCalls(parse, payloads), ContentOf(parse, payloads), a.finish.value) {
      assert Ended(parse, payloads, a.finish.value);
    }
  }

  lemma EnoughIs(a: Assembled, deltas: seq<CallDelta>)
    requires AllDescribed(a.calls, deltas) && (a.finish.Some? ==> AReason(a.finish.value))
    ensures Response(a).Ok? <==> a.done && a.finish.Some? && Enough(deltas, a.content, a.finish.value)
  {
    SomeCall(a.calls, deltas);
    ResponseExactly(a);
    hide Response, Occurs, CompleteCall, CompleteParts, AllDescribed, AReason;
  }

  /** A stream of bytes has a response exactly when it is UTF-8 and its events are a stream that has one. */
  lemma BytesHaveResponse(parse: Parser, bytes: seq<Byte>)
    ensures ResponseTo(parse, bytes).Some? <==>
            Decode([], bytes).Some? && Decode([], bytes).value.pending == [] && HasResponse(parse, StreamEvents(Decode([], bytes).value.text))
  {
    hide Decode, StreamEvents, TakeAll, Response, HasResponse;
    if Decode([], bytes).Some? { ResponseGiven(parse, StreamEvents(Decode([], bytes).value.text)); }
  }
}
