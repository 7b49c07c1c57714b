/**
 A turn that is abandoned while a call is open can never be recovered: for every session, and on a concrete log of
 two calls, one with an unknown outcome and one still requested.
 */
module AbandonedTurn {
  import opened Domain
  import opened Recovery
  import R = Reducer
  import I = ReducerInvariant
  import Runs = ReducerRuns
  import T = RecoveryTheorem

  // ----- For every session -----

  function EventsOf(lastSeq: nat, facts: seq<Fact>): seq<Event> {
    if facts == [] then [] else EventsOf(lastSeq, facts[..|facts| - 1]) + [Event(lastSeq + |facts|, facts[|facts| - 1])]
  }

  lemma {:induction false} AppendsReplay(s: State, facts: seq<Fact>)
    requires I.Inv(s) && AppendAll(s, facts).Ok?
    ensures R.Replay(s, EventsOf(s.lastSeq, facts)) == AppendAll(s, facts) && AppendAll(s, facts).value.lastSeq == s.lastSeq + |facts|
  {
    hide I.Inv, R.Step, Append, R.Replay;
    if facts == [] {
      ReplayNothing(s);
    } else {
      var front, events := facts[..|facts| - 1], EventsOf(s.lastSeq, facts);
      AppendsReplay(s, front);
      Numbered(AppendAll(s, front).value, facts[|facts| - 1]);
      ReplayOneMore(s, EventsOf(s.lastSeq, front), AppendAll(s, front).value, facts[|facts| - 1]);
    }
  }

  lemma ReplayNothing(s: State)
    ensures R.Replay(s, []) == Ok(s)
  {
  }

  lemma {:induction false} ReplayOneMore(s: State, events: seq<Event>, t: State, fact: Fact)
    requires R.Replay(s, events) == Ok(t)
    ensures R.Replay(s, events + [Event(t.lastSeq + 1, fact)]) == Append(t, fact)
  {
    hide R.Step;
    assert (events + [Event(t.lastSeq + 1, fact)])[..|events|] == events;
  }

  lemma Numbered(s: State, fact: Fact)
    requires Append(s, fact).Ok?
    ensures Append(s, fact).value.lastSeq == s.lastSeq + 1
  {
    hide R.Handle;
  }

  /** No recovery comes to an end after an abandon intent with an open call. */
  lemma NoRecovery(s: State, k: string, facts: seq<Fact>)
    requires I.Inv(s) && s.intent.Some? && s.intent.value.action.Abandon? && k in s.calls && s.calls[k].status.IsOpen()
    ensures !Complete(s, facts)
  {
    hide I.Inv, Chain, NextFact, AppendAll, R.Replay;
    if Complete(s, facts) {
      AppendsReplay(s, facts);
      var log := EventsOf(s.lastSeq, facts);
      Runs.AbandonTrap(s, log, k);
      Runs.RunKeeps(s, log);
      T.NothingLeft(R.Replay(s, log).value);
    }
  }

  // ----- A log that leads there -----

  const A := ModelKey(3, "a")
  const B := ModelKey(3, "b")

  function Facts(i: nat): Fact {
    match i
    case 0 => SessionCreated
    case 1 => TurnStarted("t", "go")
    case 2 => AssistantAccepted(None, None, [CallDoc("a", "bash", "{}"), CallDoc("b", "bash", "{}")])
    case 3 => ToolStarted(CallRef(Some(A), None))
    case 4 => ToolFinished(CallRef(Some(A), None), OutcomeUnknown, None, true, false, [], [])
    case _ => TurnRecoveryIntent("t", Abandon, "stop")
  }

  function Log(n: nat): seq<Event> {
    if n == 0 then [] else Log(n - 1) + [Event(n, Facts(n - 1))]
  }

  function Call(key: string, id: string, status: ToolStatus, finished: Option<nat>): ToolCall {
    ToolCall(key, id, "t", "bash", status, None, 3, finished, FromModel, None, None)
  }

  /** The session once both calls were requested. */
  function Session(seqNo: nat, a: ToolCall, intent: Option<Intent>): State {
    var unknown := a.status.OutcomeUnknown?;
    State(true, seqNo, Some("t"), map["t" := if unknown then RecoveryBlocked else Active], [A, B],
          map[A := a, B := Call(B, "b", Requested, None)], [], map[], map[], None, intent, unknown, false, false)
  }

  const ABANDONED := Session(6, Call(A, "a", OutcomeUnknown, Some(5)), Some(Intent(Abandon, "stop")))

  lemma Keys()
    ensures A != B && A != "" && B != ""
  {
    assert A[2..] == "a" && B[2..] == "b";
  }

  lemma {:induction false} LogLength(n: nat)
    ensures |Log(n)| == n
  {
    hide Facts;
    if n > 0 { LogLength(n - 1); }
  }

  lemma {:induction false} Next(n: nat, s: State)
    requires R.Replay(EMPTY, Log(n)) == Ok(s)
    ensures R.Replay(EMPTY, Log(n + 1)) == R.Step(s, Event(n + 1, Facts(n)))
  {
    hide R.Step, Facts;
    LogLength(n);
    assert Log(n + 1)[..n] == Log(n);
    LogLength(n + 1);
  }

  lemma Create()
    ensures R.Step(EMPTY, Event(1, Facts(0))) == Ok(EMPTY.(created := true, lastSeq := 1))
  {
    hide R.HandleCallFact, R.HandleGraphFact, R.HandleTurnFact;
  }

  function Begun(): State { EMPTY.(created := true, lastSeq := 2, active := Some("t"), turns := map["t" := Active]) }

  lemma Begin()
    ensures R.Step(EMPTY.(created := true, lastSeq := 1), Event(2, Facts(1))) == Ok(Begun())
  {
    hide R.HandleCallFact, R.HandleGraphFact, R.HandleOtherFact;
  }

  lemma BothRecorded()
    ensures var docs := [CallDoc("a", "bash", "{}"), CallDoc("b", "bash", "{}")];
            R.AddCalls(Begun(), 3, "t", docs)
            == Ok(Begun().(calls := map[A := Call(A, "a", Requested, None), B := Call(B, "b", Requested, None)], callOrder := [A, B]))
  {
    Keys();
    hide ModelKey;
    var s := Begun();
    var one, docs := [CallDoc("a", "bash", "{}")], [CallDoc("a", "bash", "{}"), CallDoc("b", "bash", "{}")];
    assert one[..0] == [] && docs[..1] == one;
    assert R.ModelCall(3, "t", one[0]) == Call(A, "a", Requested, None);
    assert s.callOrder + [A] == [A] && s.calls[A := Call(A, "a", Requested, None)] == map[A := Call(A, "a", Requested, None)];
    var t := s.(calls := map[A := Call(A, "a", Requested, None)], callOrder := [A]);
    assert R.AddCalls(s, 3, "t", one) == Ok(t);
    assert t.callOrder + [B] == [A, B];
    assert t.calls[B := Call(B, "b", Requested, None)] == map[A := Call(A, "a", Requested, None), B := Call(B, "b", Requested, None)];
  }

  lemma Accept()
    ensures R.Step(Begun(), Event(3, Facts(2))) == Ok(Session(3, Call(A, "a", Requested, None), None))
  {
    BothRecorded();
    hide R.HandleGraphFact, R.HandleTurnFact, R.HandleOtherFact, R.AddCalls, A, B;
    assert R.AssistantRefusal(Begun(), None, [CallDoc("a", "bash", "{}"), CallDoc("b", "bash", "{}")]).None?;
  }

  lemma StartA()
    ensures R.Step(Session(3, Call(A, "a", Requested, None), None), Event(4, Facts(3))) == Ok(Session(4, Call(A, "a", Started, None), None))
  {
    Keys();
    hide R.HandleGraphFact, R.HandleTurnFact, R.HandleOtherFact, A, B;
    var s := Session(3, Call(A, "a", Requested, None), None);
    assert R.Resolve(s, CallRef(Some(A), None)) == Ok(A);
    assert R.HandleCallFact(s, 4, Facts(3)).value.calls == map[A := Call(A, "a", Started, None), B := Call(B, "b", Requested, None)];
  }

  lemma LoseA()
    ensures R.Step(Session(4, Call(A, "a", Started, None), None), Event(5, Facts(4)))
         == Ok(Session(5, Call(A, "a", OutcomeUnknown, Some(5)), None))
  {
    Keys();
    hide R.HandleGraphFact, R.HandleTurnFact, R.HandleOtherFact, A, B;
    var s := Session(4, Call(A, "a", Started, None), None);
    assert R.Resolve(s, CallRef(Some(A), None)) == Ok(A);
    var lost := Call(A, "a", OutcomeUnknown, Some(5));
    var u := R.SetCall(s, A, lost, Some(R.Causes([], [])));
    assert u.calls == map[A := lost, B := Call(B, "b", Requested, None)];
    assert u.calls[A].status.OutcomeUnknown? && R.Unknowns(u);
    assert R.RefreshBlock(u).turns == map["t" := RecoveryBlocked];
  }

  lemma Give()
    ensures R.Step(Session(5, Call(A, "a", OutcomeUnknown, Some(5)), None), Event(6, Facts(5))) == Ok(ABANDONED)
  {
    Keys();
    hide R.HandleGraphFact, R.HandleCallFact, R.HandleOtherFact, A, B;
    var s := Session(5, Call(A, "a", OutcomeUnknown, Some(5)), None);
    assert s.calls[A].status == OutcomeUnknown && R.CallWith(s, "t", OutcomeUnknown);
  }

  lemma LogReplays()
    ensures R.Replay(EMPTY, Log(6)) == Ok(ABANDONED)
  {
    assert R.Replay(EMPTY, Log(0)) == Ok(EMPTY);
    hide R.Step, R.Replay, Log, Facts, A, B, ABANDONED, Session, Begun, Call;
    Next(0, EMPTY);
    Create();
    Next(1, EMPTY.(created := true, lastSeq := 1));
    Begin();
    Next(2, Begun());
    Accept();
    Next(3, Session(3, Call(A, "a", Requested, None), None));
    StartA();
    Next(4, Session(4, Call(A, "a", Started, None), None));
    LoseA();
    Next(5, Session(5, Call(A, "a", OutcomeUnknown, Some(5)), None));
    Give();
  }

  lemma BIsOpen()
    ensures B in ABANDONED.calls && ABANDONED.calls[B].status.IsOpen() && ABANDONED.intent == Some(Intent(Abandon, "stop"))
  {
    Keys();
    hide ModelKey;
  }

  /**
   The reducer accepts the abandon while the second call is still requested. From there on no recovery ends: the state
   is one that `Harmless` excludes, and it can be reached.
   */
  lemma TrapIsReachable()
    ensures R.Replay(EMPTY, Log(6)) == Ok(ABANDONED) && !Harmless(ABANDONED)
    ensures forall facts :: !Complete(ABANDONED, facts)
  {
    LogReplays();
    BIsOpen();
    hide R.Replay, Log, A, B, ABANDONED, Complete, I.Inv;
    Runs.ReachableInv(Log(6));
    forall facts ensures !Complete(ABANDONED, facts) { NoRecovery(ABANDONED, B, facts); }
  }
}
