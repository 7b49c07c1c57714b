/**
 The simulation between three machines over one log: the reducer's call table, the projector's
 tracker, and the validator's set of pending ids.
 */
module ProjectionSteps {
  import opened Domain
  import opened Projection
  import R = Reducer
  import I = ReducerInvariant
  import C = Conversation

  type Calls = map<string, ToolCall>

  /** A model call whose result the conversation still misses. */
  predicate Awaited(call: ToolCall) {
    call.origin.FromModel? && call.status.IsUnsettled()
  }

  ghost predicate Tracks(calls: Calls, t: Tracker) {
    && (forall k :: k in t.byKey <==> (k in calls && Awaited(calls[k])))
    && (forall k :: k in t.byKey ==> t.byKey[k] == calls[k].providerId && t.byKey[k] in t.byId && t.byId[t.byKey[k]] == k)
    && (forall id :: id in t.byId ==> t.byId[id] in t.byKey && t.byKey[t.byId[id]] == id)
  }

  ghost predicate InStep(calls: Calls, t: Tracker, v: C.Scanner) {
    Tracks(calls, t) && v.pending == t.byId.Keys && v.completed !! v.pending
  }

  /** The fact moves tracker and validator to states that are in step with the new call table. */
  ghost predicate Moves(calls: Calls, t: Tracker, v: C.Scanner, seqNo: nat, fact: Fact) {
    var p := ProjectFact(t, seqNo, fact);
    p.Ok?
    && match p.value.1
       case None => InStep(calls, p.value.0, v)
       case Some(m) => C.ScanMessage(v, m).Ok? && InStep(calls, p.value.0, C.ScanMessage(v, m).value)
  }

  /** The origin tag of a result fact agrees with the reducer's view, and assistant facts say something. */
  ghost predicate FactOk(s: State, fact: Fact) {
    match fact
    case AssistantAccepted(_, content, docs) => content.Some? || docs != []
    case ToolFinished(ref, status, _, _, tagged, _, _) =>
      var r := R.Resolve(s, ref);
      r.Ok? ==> if s.calls[r.value].origin.FromCode? then tagged else !tagged || status.OutcomeUnknown?
    case ToolReconciled(ref, _, _, tagged) =>
      var r := R.Resolve(s, ref);
      r.Ok? ==> (tagged <==> s.calls[r.value].origin.FromCode?)
    case _ => true
  }

  lemma LookupFinds(s: State, ref: CallRef, t: Tracker)
    requires Tracks(s.calls, t) && R.Resolve(s, ref).Ok? && Awaited(s.calls[R.Resolve(s, ref).value])
    ensures var k := R.Resolve(s, ref).value;
            Lookup(t, ref) == Ok(Occurrence(k, s.calls[k].providerId))
  {
  }

  lemma CloseTracks(calls: Calls, t: Tracker, v: C.Scanner, k: string, call: ToolCall)
    requires InStep(calls, t, v) && k in calls && Awaited(calls[k]) && !Awaited(call) && calls[k].providerId != ""
    ensures var id := calls[k].providerId;
            forall content :: C.ScanMessage(v, Tool(id, content)).Ok?
              && InStep(calls[k := call], Close(t, Occurrence(k, id)), C.ScanMessage(v, Tool(id, content)).value)
  {
    var id := calls[k].providerId;
    var u := Close(t, Occurrence(k, id));
    assert u.byId.Keys == t.byId.Keys - {id};
    assert Tracks(calls[k := call], u);
  }

  lemma UnawaitedTracks(calls: Calls, t: Tracker, k: string, call: ToolCall)
    requires Tracks(calls, t)
    requires k in calls ==> (Awaited(calls[k]) <==> Awaited(call)) && calls[k].providerId == call.providerId
    requires k !in calls ==> !Awaited(call)
    ensures Tracks(calls[k := call], t)
  {
  }

  lemma FinishedMoves(s: State, seqNo: nat, fact: Fact, t: Tracker, v: C.Scanner)
    requires I.CallsOk(s.calls, s.active) && InStep(s.calls, t, v) && fact.ToolFinished? && FactOk(s, fact)
    requires R.HandleCallFact(s, seqNo, fact).Ok?
    ensures Moves(R.HandleCallFact(s, seqNo, fact).value.calls, t, v, seqNo, fact)
  {
    var k := R.Resolve(s, fact.call).value;
    var call := s.calls[k].(status := fact.status, finishedSeq := Some(seqNo), result := fact.result);
    if call.origin.FromCode? || fact.status.OutcomeUnknown? {
      UnawaitedTracks(s.calls, t, k, call);
      if call.origin.FromModel? { LookupFinds(s, fact.call, t); }
    } else {
      LookupFinds(s, fact.call, t);
      CloseTracks(s.calls, t, v, k, call);
    }
  }

  lemma ReconciledMoves(s: State, seqNo: nat, fact: Fact, t: Tracker, v: C.Scanner)
    requires I.CallsOk(s.calls, s.active) && InStep(s.calls, t, v) && fact.ToolReconciled? && FactOk(s, fact)
    requires R.HandleCallFact(s, seqNo, fact).Ok?
    ensures Moves(R.HandleCallFact(s, seqNo, fact).value.calls, t, v, seqNo, fact)
  {
    var k := R.Resolve(s, fact.call).value;
    var call := s.calls[k].(status := fact.outcome.Status(), finishedSeq := Some(seqNo), note := Some(fact.note));
    if call.origin.FromCode? {
      UnawaitedTracks(s.calls, t, k, call);
    } else {
      LookupFinds(s, fact.call, t);
      CloseTracks(s.calls, t, v, k, call);
    }
  }

  /** Where no call is unsettled, the tracker and the validator hold nothing. */
  lemma NothingPending(calls: Calls, t: Tracker, v: C.Scanner)
    requires InStep(calls, t, v) && forall k :: k in calls ==> !calls[k].status.IsUnsettled()
    ensures t.byKey == map[] && t.byId == map[] && v.pending == {}
  {
    assert t.byKey.Keys == {};
    assert t.byId.Keys == {};
  }

  lemma {:induction false} BatchTracks(s: State, t: Tracker, seqNo: nat, turn: string, docs: seq<CallDoc>)
    requires Tracks(s.calls, t) && t.byId == map[] && C.DistinctIds(docs)
    requires R.AddCalls(s, seqNo, turn, docs).Ok?
    ensures AddCalls(t, seqNo, docs).Ok?
    ensures Tracks(R.AddCalls(s, seqNo, turn, docs).value.calls, AddCalls(t, seqNo, docs).value)
    ensures AddCalls(t, seqNo, docs).value.byId.Keys == C.Ids(docs)
  {
    if docs != [] {
      var front := docs[..|docs| - 1];
      BatchTracks(s, t, seqNo, turn, front);
      var id := docs[|docs| - 1].id;
      assert id !in C.Ids(front);
      assert C.Ids(docs) == C.Ids(front) + {id} by {
        forall x | x in C.Ids(docs) ensures x in C.Ids(front) + {id} {
          var i :| 0 <= i < |docs| && docs[i].id == x;
          if i < |front| { assert front[i].id == x; }
        }
        forall x | x in C.Ids(front) ensures x in C.Ids(docs) {
          var i :| 0 <= i < |front| && front[i].id == x;
          assert docs[i].id == x;
        }
        assert docs[|docs| - 1].id == id;
      }
    }
  }

  lemma AssistantMoves(s: State, seqNo: nat, fact: Fact, t: Tracker, v: C.Scanner)
    requires I.CallInv(s) && InStep(s.calls, t, v) && fact.AssistantAccepted? && FactOk(s, fact)
    requires R.HandleCallFact(s, seqNo, fact).Ok?
    ensures Moves(R.HandleCallFact(s, seqNo, fact).value.calls, t, v, seqNo, fact)
  {
    assert !R.OpenCallIn(s, s.active.value) && !I.SomeUnknown(s.calls);
    NothingPending(s.calls, t, v);
    BatchTracks(s, t, seqNo, s.active.value, fact.calls);
  }

  lemma QuietCallFactMoves(s: State, seqNo: nat, fact: Fact, t: Tracker, v: C.Scanner)
    requires I.CallsOk(s.calls, s.active) && InStep(s.calls, t, v) && (fact.ApprovalDecided? || fact.ToolStarted?)
    requires R.HandleCallFact(s, seqNo, fact).Ok?
    ensures Moves(R.HandleCallFact(s, seqNo, fact).value.calls, t, v, seqNo, fact)
  {
    var k := R.Resolve(s, fact.call).value;
    if fact.ToolStarted? {
      UnawaitedTracks(s.calls, t, k, s.calls[k].(status := Started));
    } else {
      UnawaitedTracks(s.calls, t, k, s.calls[k].(approved := Some(fact.approved)));
    }
  }

  lemma GraphFactMoves(s: State, seqNo: nat, fact: Fact, t: Tracker, v: C.Scanner)
    requires InStep(s.calls, t, v) && fact.ChangesGraph() && R.HandleGraphFact(s, seqNo, fact).Ok?
    ensures Moves(R.HandleGraphFact(s, seqNo, fact).value.calls, t, v, seqNo, fact)
  {
    if fact.CodeNodePlanned? {
      var call := ToolCall(fact.node, fact.node, s.active.value, fact.name, Requested, None, seqNo, None,
                           FromCode(fact.run, s.runs[fact.run].parent, fact.ordinal), None, None);
      UnawaitedTracks(s.calls, t, fact.node, call);
    }
  }

  lemma TurnFactMoves(s: State, seqNo: nat, fact: Fact, t: Tracker, v: C.Scanner)
    requires I.CallInv(s) && InStep(s.calls, t, v) && fact.ChangesTurns() && R.HandleTurnFact(s, fact).Ok?
    ensures Moves(R.HandleTurnFact(s, fact).value.calls, t, v, seqNo, fact)
  {
    if fact.TurnStarted? { NothingPending(s.calls, t, v); }
  }

  lemma OtherFactMoves(s: State, seqNo: nat, fact: Fact, t: Tracker, v: C.Scanner)
    requires InStep(s.calls, t, v) && !fact.ChangesCalls() && !fact.ChangesGraph() && !fact.ChangesTurns()
    requires R.HandleOtherFact(s, seqNo, fact).Ok?
    ensures Moves(R.HandleOtherFact(s, seqNo, fact).value.calls, t, v, seqNo, fact)
  {
  }

  lemma CallFactMoves(s: State, seqNo: nat, fact: Fact, t: Tracker, v: C.Scanner)
    requires I.CallInv(s) && InStep(s.calls, t, v) && fact.ChangesCalls() && FactOk(s, fact)
    requires R.HandleCallFact(s, seqNo, fact).Ok?
    ensures Moves(R.HandleCallFact(s, seqNo, fact).value.calls, t, v, seqNo, fact)
  {
    assert I.CallsOk(s.calls, s.active);
    hide R.HandleCallFact, Moves, InStep, FactOk, I.CallInv;
    if fact.AssistantAccepted? {
      AssistantMoves(s, seqNo, fact, t, v);
    } else if fact.ToolFinished? {
      FinishedMoves(s, seqNo, fact, t, v);
    } else if fact.ToolReconciled? {
      ReconciledMoves(s, seqNo, fact, t, v);
    } else {
      QuietCallFactMoves(s, seqNo, fact, t, v);
    }
  }

  /** One accepted event whose tag is right keeps the three machines in step. */
  lemma StepMoves(s: State, e: Event, t: Tracker, v: C.Scanner)
    requires I.Inv(s) && InStep(s.calls, t, v) && FactOk(s, e.fact) && R.Step(s, e).Ok?
    ensures Moves(R.Step(s, e).value.calls, t, v, e.seqNo, e.fact)
  {
    hide R.HandleCallFact, R.HandleGraphFact, R.HandleTurnFact, R.HandleOtherFact, Moves, InStep, FactOk, I.CallInv, I.GraphInv;
    if e.fact.ChangesCalls() {
      CallFactMoves(s, e.seqNo, e.fact, t, v);
    } else if e.fact.ChangesGraph() {
      GraphFactMoves(s, e.seqNo, e.fact, t, v);
    } else if e.fact.ChangesTurns() {
      TurnFactMoves(s, e.seqNo, e.fact, t, v);
    } else {
      OtherFactMoves(s, e.seqNo, e.fact, t, v);
    }
  }
}
