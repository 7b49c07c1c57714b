/**
 A batch of calls whose key is already taken: what the refused fact leaves behind, when it can happen at all, and a log
 on which it does.
 */
module TakenKeys {
  import opened Domain
  import opened Sessions
  import R = Reducer
  import I = ReducerInvariant
  import Runs = ReducerRuns
  import C = Conversation
  import X = GraphExchange
  import V = UntaggedVerdict
  import RefusedRequest

  // ----- What is left behind -----

  function KeysOf(seqNo: nat, docs: seq<CallDoc>): seq<string> { seq(|docs|, i requires 0 <= i < |docs| => ModelKey(seqNo, docs[i].id)) }

  lemma KeyTellsId(seqNo: nat, a: string, b: string)
    requires ModelKey(seqNo, a) == ModelKey(seqNo, b)
    ensures a == b
  {
    var prefix := Decimal(seqNo) + ":";
    assert ModelKey(seqNo, a)[|prefix|..] == a && ModelKey(seqNo, b)[|prefix|..] == b;
  }

  lemma {:induction false} AddCallsRecords(s: State, seqNo: nat, turn: string, docs: seq<CallDoc>)
    requires R.AddCalls(s, seqNo, turn, docs).Ok?
    ensures var t := R.AddCalls(s, seqNo, turn, docs).value;
            && t.callOrder == s.callOrder + KeysOf(seqNo, docs)
            && (forall k :: k in t.calls <==> k in s.calls || k in KeysOf(seqNo, docs))
            && forall i :: 0 <= i < |docs| ==> KeysOf(seqNo, docs)[i] !in s.calls
  {
    hide ModelKey;
    if docs != [] {
      var front, key := docs[..|docs| - 1], ModelKey(seqNo, docs[|docs| - 1].id);
      AddCallsRecords(s, seqNo, turn, front);
      assert KeysOf(seqNo, docs) == KeysOf(seqNo, front) + [key];
      assert forall k :: k in KeysOf(seqNo, docs) <==> k in KeysOf(seqNo, front) || k == key;
    }
  }

  /** The calls up to the first taken key are left behind, so nothing is exactly when that is the key of the first call. */
  lemma LeftBehind(before: State, after: State, seqNo: nat, turn: string, docs: seq<CallDoc>)
    requires StoppedAt(before, after, seqNo, turn, docs) && C.DistinctIds(docs)
    ensures var n := |after.callOrder| - |before.callOrder|;
            && after.callOrder == before.callOrder + KeysOf(seqNo, docs[..n])
            && ModelKey(seqNo, docs[n].id) in before.calls && forall i :: 0 <= i < n ==> ModelKey(seqNo, docs[i].id) !in before.calls
    ensures after == before <==> ModelKey(seqNo, docs[0].id) in before.calls
  {
    var n := |after.callOrder| - |before.callOrder|;
    AddCallsRecords(before, seqNo, turn, docs[..n]);
    hide ModelKey;
    forall i | 0 <= i < n ensures ModelKey(seqNo, docs[i].id) !in before.calls && ModelKey(seqNo, docs[i].id) != ModelKey(seqNo, docs[n].id) {
      assert KeysOf(seqNo, docs[..n])[i] == ModelKey(seqNo, docs[i].id);
      if ModelKey(seqNo, docs[i].id) == ModelKey(seqNo, docs[n].id) { KeyTellsId(seqNo, docs[i].id, docs[n].id); }
    }
  }

  // ----- When it happens -----

  lemma {:induction false} AddCallsRefuses(s: State, seqNo: nat, turn: string, docs: seq<CallDoc>)
    requires C.DistinctIds(docs)
    ensures R.AddCalls(s, seqNo, turn, docs).Err? ==> R.AddCalls(s, seqNo, turn, docs) == Err(DuplicateCallKey)
    ensures R.AddCalls(s, seqNo, turn, docs).Err? <==> exists i :: 0 <= i < |docs| && ModelKey(seqNo, docs[i].id) in s.calls
  {
    hide ModelKey;
    if docs != [] {
      var n := |docs| - 1;
      var front := docs[..n];
      AddCallsRefuses(s, seqNo, turn, front);
      if R.AddCalls(s, seqNo, turn, front).Ok? {
        AddCallsRecords(s, seqNo, turn, front);
        if ModelKey(seqNo, docs[n].id) in KeysOf(seqNo, front) {
          var i :| 0 <= i < n && KeysOf(seqNo, front)[i] == ModelKey(seqNo, docs[n].id);
          KeyTellsId(seqNo, docs[i].id, docs[n].id);
        }
      } else {
        var i :| 0 <= i < |front| && ModelKey(seqNo, front[i].id) in s.calls;
        assert docs[i] == front[i];
      }
    }
  }

  /** Calls of the model have the keys that their requests gave them. */
  ghost predicate KeysOk(s: State) {
    forall k :: k in s.calls && s.calls[k].origin.FromModel? ==> k == ModelKey(s.calls[k].requestedSeq, s.calls[k].providerId)
  }

  lemma {:induction false} AddCallsKeepsKeys(s: State, seqNo: nat, turn: string, docs: seq<CallDoc>)
    requires KeysOk(s) && R.AddCalls(s, seqNo, turn, docs).Ok?
    ensures KeysOk(R.AddCalls(s, seqNo, turn, docs).value)
  {
    hide ModelKey;
    if docs != [] { AddCallsKeepsKeys(s, seqNo, turn, docs[..|docs| - 1]); }
  }

  lemma CallFactNewCode(s: State, seqNo: nat, fact: Fact)
    requires fact.ChangesCalls() && !fact.AssistantAccepted? && R.HandleCallFact(s, seqNo, fact).Ok? && I.CallsOk(s.calls, s.active)
    ensures R.HandleCallFact(s, seqNo, fact).value.calls.Keys <= s.calls.Keys
  {
    hide R.ApplyAssistant, I.CallsOk;
    if fact.ApprovalDecided? {
      ResolvesToCall(s, fact.call);
    } else if fact.ToolStarted? {
      ResolvesToCall(s, fact.call);
      hide R.ApplyApproval;
    } else {
      ResolvesToCall(s, fact.call);
      hide R.ApplyApproval, R.ApplyToolStarted;
    }
    hide R.Resolve;
  }

  lemma ResolvesToCall(s: State, ref: CallRef)
    requires I.CallsOk(s.calls, s.active)
    ensures R.Resolve(s, ref).Ok? ==> R.Resolve(s, ref).value in s.calls && s.calls[R.Resolve(s, ref).value].key == R.Resolve(s, ref).value
  {
  }

  lemma OtherFactNewCode(s: State, seqNo: nat, fact: Fact)
    requires !fact.ChangesCalls() && R.Handle(s, seqNo, fact).Ok?
    ensures forall k :: k in R.Handle(s, seqNo, fact).value.calls && k !in s.calls ==> R.Handle(s, seqNo, fact).value.calls[k].origin.FromCode?
  {
    hide R.HandleCallFact;
  }

  /** Only nodes and batches add calls. */
  lemma NewCallsAreCode(s: State, e: Event)
    requires I.CallsOk(s.calls, s.active) && R.Step(s, e).Ok? && !e.fact.AssistantAccepted?
    ensures var u := R.Step(s, e).value; forall k :: k in u.calls && k !in s.calls ==> u.calls[k].origin.FromCode?
  {
    if e.fact.ChangesCalls() {
      CallFactNewCode(s, e.seqNo, e.fact);
    } else {
      OtherFactNewCode(s, e.seqNo, e.fact);
    }
    hide R.HandleCallFact, R.HandleGraphFact, R.HandleTurnFact, R.HandleOtherFact, I.CallsOk;
  }

  lemma SameIdentityKeepsKeys(s: State, u: State)
    requires KeysOk(s) && Runs.CallsForward(s.calls, u.calls, s.lastSeq)
    requires forall k :: k in u.calls && k !in s.calls ==> u.calls[k].origin.FromCode?
    ensures KeysOk(u)
  {
    hide ModelKey;
    forall k | k in u.calls && u.calls[k].origin.FromModel? ensures k == ModelKey(u.calls[k].requestedSeq, u.calls[k].providerId) {
      assert Runs.CallForward(s.calls[k], u.calls[k], s.lastSeq);
    }
  }

  lemma BatchKeepsKeys(s: State, e: Event)
    requires KeysOk(s) && R.Step(s, e).Ok? && e.fact.AssistantAccepted?
    ensures KeysOk(R.Step(s, e).value)
  {
    AddCallsKeepsKeys(s, e.seqNo, s.active.value, e.fact.calls);
    hide R.AddCalls, R.AssistantRefusal, ModelKey;
  }

  lemma StepKeepsKeys(s: State, e: Event)
    requires I.Inv(s) && KeysOk(s) && R.Step(s, e).Ok?
    ensures KeysOk(R.Step(s, e).value)
  {
    hide *;
    if e.fact.AssistantAccepted? {
      BatchKeepsKeys(s, e);
    } else {
      CallsAreOk(s);
      Runs.StepAdvances(s, e);
      ForwardCalls(s, R.Step(s, e).value);
      NewCallsAreCode(s, e);
      SameIdentityKeepsKeys(s, R.Step(s, e).value);
    }
  }

  lemma CallsAreOk(s: State)
    requires I.Inv(s)
    ensures I.CallsOk(s.calls, s.active) && I.SeqsOk(s.calls, s.lastSeq) && I.MirrorOk(s.calls, s.nodes)
  {
  }

  lemma ForwardCalls(s: State, u: State)
    requires Runs.Forward(s, u)
    ensures Runs.CallsForward(s.calls, u.calls, s.lastSeq)
  {
  }

  lemma {:induction false} ReachableKeys(log: seq<Event>)
    requires R.Replay(EMPTY, log).Ok?
    ensures KeysOk(R.Replay(EMPTY, log).value)
  {
    hide R.Step, I.Inv;
    if log != [] {
      ReachableKeys(log[..|log| - 1]);
      Runs.ReachableInv(log[..|log| - 1]);
      hide KeysOk;
      StepKeepsKeys(R.Replay(EMPTY, log[..|log| - 1]).value, log[|log| - 1]);
    }
  }

  lemma {:induction false} AllDigits(n: nat)
    ensures |Decimal(n)| >= 1 && forall i :: 0 <= i < |Decimal(n)| ==> '0' <= Decimal(n)[i] <= '9'
  {
    if n >= 10 { AllDigits(n / 10); }
  }

  /** The number before the first colon is that of the requesting event. */
  lemma KeyTellsSeq(a: nat, x: string, b: nat, y: string)
    requires ModelKey(a, x) == ModelKey(b, y)
    ensures a == b
  {
    AllDigits(a);
    AllDigits(b);
    var p, q := Decimal(a), Decimal(b);
    hide Decimal;
    assert ModelKey(a, x)[|p|] == ':' && ModelKey(b, y)[|q|] == ':';
    assert |p| == |q|;
    assert p == ModelKey(a, x)[..|p|] && q == ModelKey(b, y)[..|q|];
    DecimalInjective(a, b);
  }

  lemma TakenByCode(s: State, seqNo: nat, id: string)
    requires I.Inv(s) && KeysOk(s) && s.lastSeq < seqNo
    ensures ModelKey(seqNo, id) in s.calls <==> ModelKey(seqNo, id) in s.nodes
  {
    CallsAreOk(s);
    hide I.Inv, ModelKey;
    var k := ModelKey(seqNo, id);
    if k in s.calls && s.calls[k].origin.FromModel? { KeyTellsSeq(seqNo, id, s.calls[k].requestedSeq, s.calls[k].providerId); }
  }

  /** In a reachable session a batch is refused for a taken key exactly when nothing else refuses it and a code node has the key. */
  lemma RefusedForKey(log: seq<Event>, s: State, e: Event)
    requires R.Replay(EMPTY, log) == Ok(s) && e.fact.AssistantAccepted? && e.seqNo == s.lastSeq + 1 && s.created
    ensures R.Step(s, e) == Err(DuplicateCallKey) <==>
            R.AssistantRefusal(s, e.fact.claimedTurn, e.fact.calls).None?
            && exists i :: 0 <= i < |e.fact.calls| && ModelKey(e.seqNo, e.fact.calls[i].id) in s.nodes
  {
    hide *;
    Runs.ReachableInv(log);
    ReachableKeys(log);
    TakenByNodes(s, e.seqNo, e.fact.calls);
    BatchRefused(s, e);
  }

  lemma TakenByNodes(s: State, seqNo: nat, docs: seq<CallDoc>)
    requires I.Inv(s) && KeysOk(s) && s.lastSeq < seqNo
    ensures (exists i :: 0 <= i < |docs| && ModelKey(seqNo, docs[i].id) in s.calls)
            <==> exists i :: 0 <= i < |docs| && ModelKey(seqNo, docs[i].id) in s.nodes
  {
    hide *;
    forall i | 0 <= i < |docs| ensures ModelKey(seqNo, docs[i].id) in s.calls <==> ModelKey(seqNo, docs[i].id) in s.nodes {
      TakenByCode(s, seqNo, docs[i].id);
    }
  }

  lemma BatchRefused(s: State, e: Event)
    requires e.fact.AssistantAccepted? && e.seqNo == s.lastSeq + 1 && s.created
    ensures R.Step(s, e) == Err(DuplicateCallKey) <==>
            R.AssistantRefusal(s, e.fact.claimedTurn, e.fact.calls).None?
            && exists i :: 0 <= i < |e.fact.calls| && ModelKey(e.seqNo, e.fact.calls[i].id) in s.calls
  {
    if R.AssistantRefusal(s, e.fact.claimedTurn, e.fact.calls).None? {
      AddCallsRefuses(s, e.seqNo, s.active.value, e.fact.calls);
    }
    hide ModelKey, R.AddCalls;
  }

  /** There is a hyphen before the first colon. */
  predicate Hyphenated(name: string) { exists i :: 0 <= i < |name| && name[i] == '-' && forall j :: 0 <= j < i ==> name[j] != ':' }

  /** A run id with a hyphen, as every UUID has, gives its nodes names that are no keys of calls. */
  lemma OwnNodesTakeNoKey(run: string, ordinal: nat, seqNo: nat, id: string)
    requires Hyphenated(run)
    ensures X.Durable(run, ordinal) != ModelKey(seqNo, id)
  {
    AllDigits(seqNo);
    var i :| 0 <= i < |run| && run[i] == '-' && forall j :: 0 <= j < i ==> run[j] != ':';
    var p := Decimal(seqNo);
    hide Decimal;
    assert X.Durable(run, ordinal)[..|run|] == run;
    assert ModelKey(seqNo, id)[..|p|] == p && ModelKey(seqNo, id)[|p|] == ':';
  }

  // ----- A log on which it happens -----

  const KEY := V.KEY
  const NODE := ModelKey(9, "b")
  const FIRST := ModelKey(9, "a")
  const DOCS := [CallDoc("a", "bash", "{}"), CallDoc("b", "bash", "{}")]

  /** A node with the key of a later call, and what lets the model answer again. */
  function Later(n: nat): Fact {
    match n
    case 6 => CodeNodePlanned("r", NODE, 1, "bash", [])
    case 7 => ToolFinished(V.Ref(NODE), NotExecuted, None, false, true, [], [])
    case _ => ToolFinished(V.Ref(KEY), Failed, None, false, false, [], [])
  }

  function Log(n: nat): seq<Event> { if n <= 5 then V.Log(n) else Log(n - 1) + [Event(n, Later(n))] }

  function Node(status: ToolStatus, finished: Option<nat>): ToolCall {
    ToolCall(NODE, NODE, "t", "bash", status, None, 6, finished, FromCode("r", KEY, 1), None, None)
  }

  function Session(seqNo: nat, parent: ToolCall, node: ToolCall): State {
    State(true, seqNo, Some("t"), map["t" := Active], [KEY, NODE], map[KEY := parent, NODE := node],
          ["r"], map["r" := CodeRun("t", KEY, RunActive, [NODE])],
          map[NODE := CodeNode("r", 1, [], node.status, [], [])], None, None, false, false, false)
  }

  lemma KeysDiffer()
    ensures KEY == V.KEY && KEY == "3:c" && NODE == "9:b" && FIRST == "9:a"
  {
    assert Decimal(3) == "3" && Decimal(9) == "9";
  }

  lemma NextEvent(n: nat, s: State)
    requires n >= 6 && R.Replay(EMPTY, Log(n - 1)) == Ok(s)
    ensures R.Replay(EMPTY, Log(n)) == R.Step(s, Event(n, Later(n)))
  {
    hide R.Step, Later;
    assert Log(n)[..|Log(n)| - 1] == Log(n - 1);
  }

  lemma PlanNode()
    ensures R.Step(V.Batched(Started, ["r"]), Event(6, Later(6))) == Ok(Session(6, V.Parent(Started, None), Node(Requested, None)))
  {
    KeysDiffer();
    hide R.HandleCallFact, R.HandleTurnFact, R.HandleOtherFact, V.KEY, KEY, NODE;
    var s := V.Batched(Started, ["r"]);
    var a := R.HandleGraphFact(s, 6, Later(6));
    assert a.Ok? && a.value.calls == map[KEY := V.Parent(Started, None), NODE := Node(Requested, None)];
    assert s.runs["r"].nodeIds + [NODE] == [NODE];
    assert a.value.runs == map["r" := CodeRun("t", KEY, RunActive, [NODE])];
    assert a.value.callOrder == [KEY, NODE];
  }

  lemma DropNode()
    ensures R.Step(Session(6, V.Parent(Started, None), Node(Requested, None)), Event(7, Later(7)))
         == Ok(Session(7, V.Parent(Started, None), Node(NotExecuted, Some(7))))
  {
    KeysDiffer();
    hide R.HandleGraphFact, R.HandleTurnFact, R.HandleOtherFact, V.KEY, KEY, NODE;
    var s := Session(6, V.Parent(Started, None), Node(Requested, None));
    assert R.Resolve(s, V.Ref(NODE)) == Ok(NODE);
    var u := R.SetCall(s, NODE, Node(NotExecuted, Some(7)), Some(R.Causes([], [])));
    assert u.calls == map[KEY := V.Parent(Started, None), NODE := Node(NotExecuted, Some(7))];
    assert u.nodes == map[NODE := CodeNode("r", 1, [], NotExecuted, [], [])];
    assert !R.Unknowns(u);
    assert R.RefreshBlock(u).turns == map["t" := Active];
  }

  lemma FailParent()
    ensures R.Step(Session(7, V.Parent(Started, None), Node(NotExecuted, Some(7))), Event(8, Later(8)))
         == Ok(Session(8, V.Parent(Failed, Some(8)), Node(NotExecuted, Some(7))))
  {
    KeysDiffer();
    hide R.HandleGraphFact, R.HandleTurnFact, R.HandleOtherFact, V.KEY, KEY, NODE;
    var s := Session(7, V.Parent(Started, None), Node(NotExecuted, Some(7)));
    assert R.Resolve(s, V.Ref(KEY)) == Ok(KEY);
    var u := R.SetCall(s, KEY, V.Parent(Failed, Some(8)), Some(R.Causes([], [])));
    assert u.calls == map[KEY := V.Parent(Failed, Some(8)), NODE := Node(NotExecuted, Some(7))];
    assert !R.Unknowns(u);
    assert R.RefreshBlock(u).turns == map["t" := Active];
  }

  lemma LogReplays()
    ensures R.Replay(EMPTY, Log(8)) == Ok(Session(8, V.Parent(Failed, Some(8)), Node(NotExecuted, Some(7))))
  {
    assert Log(5) == V.Log(5);
    hide *;
    V.RunStartedReplays();
    NextEvent(6, V.Batched(Started, ["r"]));
    PlanNode();
    NextEvent(7, Session(6, V.Parent(Started, None), Node(Requested, None)));
    DropNode();
    NextEvent(8, Session(7, V.Parent(Started, None), Node(NotExecuted, Some(7))));
    FailParent();
  }

  lemma SecondIsTaken()
    ensures var s := Session(8, V.Parent(Failed, Some(8)), Node(NotExecuted, Some(7)));
            && R.Step(s, Event(9, AssistantAccepted(None, None, DOCS))) == Err(DuplicateCallKey)
            && C.DistinctIds(DOCS) && |DOCS| == 2 && DOCS[0].id == "a" && DOCS[1].id == "b"
            && s.active == Some("t") && FIRST !in s.calls && NODE in s.calls
  {
    KeysDiffer();
    hide R.HandleGraphFact, R.HandleTurnFact, R.HandleOtherFact, V.KEY, KEY;
    var s := Session(8, V.Parent(Failed, Some(8)), Node(NotExecuted, Some(7)));
    assert R.AssistantRefusal(s, None, DOCS).None?;
    assert ModelKey(9, DOCS[1].id) in s.calls;
    AddCallsRefuses(s, 9, "t", DOCS);
    hide R.AddCalls, R.AssistantRefusal;
  }

  /** The reducer accepts a log, refuses the next fact, and has recorded its first call all the same. */
  method HalfABatch() returns (session: SessionState, refusal: Option<Refusal>)
    ensures R.Replay(EMPTY, Log(8)).Ok? && refusal == Some(DuplicateCallKey)
    ensures session.Abs() != R.Replay(EMPTY, Log(8)).value && session.callOrder == [KEY, NODE, FIRST]
  {
    LogReplays();
    SecondIsTaken();
    Runs.ReachableInv(Log(8));
    hide *;
    session := RefusedRequest.Load(Log(8));
    ghost var before := session.Abs();
    refusal := session.Apply(Event(9, AssistantAccepted(None, None, DOCS)));
    TakenRefuses(before, session.Abs(), refusal);
    OneIsLeft(before, session.Abs());
  }

  lemma TakenRefuses(before: State, after: State, refusal: Option<Refusal>)
    requires R.Step(before, Event(9, AssistantAccepted(None, None, DOCS))) == Err(DuplicateCallKey)
    requires refusal != Some(DuplicateCallKey) ==> Follows(R.Step(before, Event(9, AssistantAccepted(None, None, DOCS))), before, after, refusal)
    ensures refusal == Some(DuplicateCallKey)
  {
  }

  lemma OneIsLeft(before: State, after: State)
    requires before == Session(8, V.Parent(Failed, Some(8)), Node(NotExecuted, Some(7)))
    requires HalfRecorded(before, after, 9, AssistantAccepted(None, None, DOCS))
    ensures after != before && after.callOrder == [KEY, NODE, FIRST]
  {
    SecondIsTaken();
    hide R.Step;
    LeftBehind(before, after, 9, "t", DOCS);
    hide ModelKey, StoppedAt;
    var n := |after.callOrder| - |before.callOrder|;
    assert n == 1;
    assert KeysOf(9, DOCS[..1]) == [FIRST];
  }
}
