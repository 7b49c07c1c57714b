/**
 A concrete session that the reducer accepts and the projector refuses: the user settles the
 unknown outcome of a code call, and the verdict is written without the origin tag.
 */
module UntaggedVerdict {
  import opened Domain
  import opened Projection
  import R = Reducer
  import S = ProjectionSteps
  import T = ProjectionTheorem
  import V = ProjectionConverse

  const KEY := ModelKey(3, "c")

  function Ref(key: string): CallRef { CallRef(Some(key), None) }

  function Facts(i: nat): Fact {
    match i
    case 0 => SessionCreated
    case 1 => TurnStarted("t", "go")
    case 2 => AssistantAccepted(None, None, [CallDoc("c", "run_code", "{}")])
    case 3 => ToolStarted(Ref(KEY))
    case 4 => CodeRunStarted("r", "t", KEY)
    case 5 => CodeNodePlanned("r", "n", 1, "bash", [])
    case 6 => ToolStarted(Ref("n"))
    case 7 => ToolFinished(Ref("n"), OutcomeUnknown, None, true, true, [], [])
    case 8 => ToolFinished(Ref(KEY), Failed, None, false, false, [], [])
    case _ => ToolReconciled(Ref("n"), ConfirmFailure, "", false)
  }

  function Log(n: nat): seq<Event> {
    if n == 0 then [] else Log(n - 1) + [Event(n, Facts(n - 1))]
  }

  function Parent(status: ToolStatus, finished: Option<nat>): ToolCall {
    ToolCall(KEY, "c", "t", "run_code", status, None, 3, finished, FromModel, None, None)
  }

  function Child(status: ToolStatus, finished: Option<nat>): ToolCall {
    ToolCall("n", "n", "t", "bash", status, None, 6, finished, FromCode("r", KEY, 1),
             None, if status.UserConfirmedFailure? then Some("") else None)
  }

  /** The session after the turn and the batch, with the two calls as given. */
  function Session(seqNo: nat, blocked: bool, parent: ToolCall, child: ToolCall): State {
    State(true, seqNo, Some("t"), map["t" := if blocked then RecoveryBlocked else Active],
          [KEY, "n"], map[KEY := parent, "n" := child],
          ["r"], map["r" := CodeRun("t", KEY, RunActive, ["n"])],
          map["n" := CodeNode("r", 1, [], child.status, [], [])], None, None, blocked, false, false)
  }

  lemma KeyIsLong()
    ensures KEY != "n" && KEY != "" && |KEY| == 3
  {
  }

  lemma Next(n: nat, s: State)
    requires R.Replay(EMPTY, Log(n)) == Ok(s)
    ensures R.Replay(EMPTY, Log(n + 1)) == R.Step(s, Event(n + 1, Facts(n)))
  {
    hide R.Step, Facts;
    assert Log(n + 1)[..n] == Log(n) by { LogLength(n); }
    LogLength(n + 1);
  }

  lemma Create()
    ensures R.Step(EMPTY, Event(1, Facts(0))) == Ok(EMPTY.(created := true, lastSeq := 1))
  {
    hide R.HandleCallFact, R.HandleGraphFact, R.HandleTurnFact;
  }

  lemma Begin()
    ensures R.Step(EMPTY.(created := true, lastSeq := 1), Event(2, Facts(1)))
         == Ok(EMPTY.(created := true, lastSeq := 2, active := Some("t"), turns := map["t" := Active]))
  {
    hide R.HandleCallFact, R.HandleGraphFact, R.HandleOtherFact;
  }

  lemma Opening()
    ensures R.Replay(EMPTY, Log(2)) == Ok(EMPTY.(created := true, lastSeq := 2, active := Some("t"), turns := map["t" := Active]))
  {
    assert R.Replay(EMPTY, Log(0)) == Ok(EMPTY);
    hide R.Step, R.Replay, Log, Facts;
    Next(0, EMPTY);
    Create();
    Next(1, EMPTY.(created := true, lastSeq := 1));
    Begin();
  }

  lemma {:induction false} LogLength(n: nat)
    ensures |Log(n)| == n
    ensures forall i :: 0 <= i < n ==> Log(n)[i] == Event(i + 1, Facts(i))
  {
    hide Facts;
    if n > 0 { LogLength(n - 1); }
  }

  function Batched(status: ToolStatus, runs: seq<string>): State {
    State(true, 3 + (if status.Started? then 1 else 0) + |runs|, Some("t"), map["t" := Active],
          [KEY], map[KEY := Parent(status, None)],
          runs, if runs == [] then map[] else map["r" := CodeRun("t", KEY, RunActive, [])], map[], None, None, false, false, false)
  }

  lemma Accept(s: State)
    requires s == EMPTY.(created := true, lastSeq := 2, active := Some("t"), turns := map["t" := Active])
    ensures R.Step(s, Event(3, Facts(2))) == Ok(Batched(Requested, []))
  {
    hide R.HandleGraphFact, R.HandleTurnFact, R.HandleOtherFact;
    var docs := [CallDoc("c", "run_code", "{}")];
    assert docs[..|docs| - 1] == [] && s.callOrder + [KEY] == [KEY];
    assert R.ModelCall(3, "t", docs[0]) == Parent(Requested, None);
    assert s.calls[KEY := Parent(Requested, None)] == map[KEY := Parent(Requested, None)];
    assert R.AssistantRefusal(s, None, docs).None?;
    assert R.AddCalls(s, 3, "t", docs) == Ok(s.(calls := map[KEY := Parent(Requested, None)], callOrder := [KEY]));
  }

  lemma StartParent()
    ensures R.Step(Batched(Requested, []), Event(4, Facts(3))) == Ok(Batched(Started, []))
  {
    KeyIsLong();
    hide R.HandleGraphFact, R.HandleTurnFact, R.HandleOtherFact, KEY;
    var s := Batched(Requested, []);
    assert R.Resolve(s, Ref(KEY)) == Ok(KEY);
    assert R.HandleCallFact(s, 4, Facts(3)).value.calls == map[KEY := Parent(Started, None)];
  }

  lemma StartRun()
    ensures R.Step(Batched(Started, []), Event(5, Facts(4))) == Ok(Batched(Started, ["r"]))
  {
    hide R.HandleCallFact, R.HandleTurnFact, R.HandleOtherFact, KEY;
    assert [] + ["r"] == ["r"];
  }

  lemma PlanNode()
    ensures R.Step(Batched(Started, ["r"]), Event(6, Facts(5))) == Ok(Session(6, false, Parent(Started, None), Child(Requested, None)))
  {
    KeyIsLong();
    hide R.HandleCallFact, R.HandleTurnFact, R.HandleOtherFact, KEY;
    var s := Batched(Started, ["r"]);
    var a := R.HandleGraphFact(s, 6, Facts(5));
    assert a.Ok? && a.value.calls == map[KEY := Parent(Started, None), "n" := Child(Requested, None)];
    assert s.runs["r"].nodeIds + ["n"] == ["n"];
    assert a.value.runs == map["r" := CodeRun("t", KEY, RunActive, ["n"])];
    assert a.value.callOrder == [KEY, "n"];
  }

  lemma ChildStep(s: State, fact: Fact, child: ToolCall)
    requires s == Session(6, false, Parent(Started, None), Child(Requested, None)) && fact == Facts(6) && child == Child(Started, None)
    ensures R.Step(s, Event(7, fact)) == Ok(Session(7, false, Parent(Started, None), child))
  {
    KeyIsLong();
    hide R.HandleGraphFact, R.HandleTurnFact, R.HandleOtherFact, KEY;
    assert R.Resolve(s, Ref("n")) == Ok("n");
    var u := R.HandleCallFact(s, 7, fact).value;
    assert u.calls == map[KEY := Parent(Started, None), "n" := child];
    assert u.nodes == map["n" := CodeNode("r", 1, [], Started, [], [])];
  }

  lemma LoseChild()
    ensures R.Step(Session(7, false, Parent(Started, None), Child(Started, None)), Event(8, Facts(7)))
         == Ok(Session(8, true, Parent(Started, None), Child(OutcomeUnknown, Some(8))))
  {
    KeyIsLong();
    hide R.HandleGraphFact, R.HandleTurnFact, R.HandleOtherFact, KEY;
    var s := Session(7, false, Parent(Started, None), Child(Started, None));
    assert R.Resolve(s, Ref("n")) == Ok("n");
    var child := Child(OutcomeUnknown, Some(8));
    var u := R.SetCall(s, "n", child, Some(R.Causes([], [])));
    assert u.calls == map[KEY := Parent(Started, None), "n" := child];
    assert u.nodes == map["n" := CodeNode("r", 1, [], OutcomeUnknown, [], [])];
    assert u.calls["n"].status.OutcomeUnknown? && R.Unknowns(u);
    assert R.RefreshBlock(u).turns == map["t" := RecoveryBlocked];
  }

  lemma FailParent()
    ensures R.Step(Session(8, true, Parent(Started, None), Child(OutcomeUnknown, Some(8))), Event(9, Facts(8)))
         == Ok(Session(9, true, Parent(Failed, Some(9)), Child(OutcomeUnknown, Some(8))))
  {
    KeyIsLong();
    hide R.HandleGraphFact, R.HandleTurnFact, R.HandleOtherFact, KEY;
    var s := Session(8, true, Parent(Started, None), Child(OutcomeUnknown, Some(8)));
    assert R.Resolve(s, Ref(KEY)) == Ok(KEY);
    var parent := Parent(Failed, Some(9));
    var u := R.SetCall(s, KEY, parent, Some(R.Causes([], [])));
    assert u.calls == map[KEY := parent, "n" := Child(OutcomeUnknown, Some(8))];
    assert u.calls["n"].status.OutcomeUnknown? && R.Unknowns(u);
    assert R.RefreshBlock(u).turns == map["t" := RecoveryBlocked];
  }

  /** What the verdict makes of the two calls. */
  lemma VerdictSets(s: State, child: ToolCall)
    requires s == Session(9, true, Parent(Failed, Some(9)), Child(OutcomeUnknown, Some(8))) && child == Child(UserConfirmedFailure, Some(10))
    ensures var u := R.SetCall(s, "n", child, None);
            && u == s.(calls := map[KEY := Parent(Failed, Some(9)), "n" := child],
                       nodes := map["n" := CodeNode("r", 1, [], UserConfirmedFailure, [], [])])
            && !R.Unknowns(u)
  {
    KeyIsLong();
    hide KEY;
    var u := R.SetCall(s, "n", child, None);
    assert u.calls == map[KEY := Parent(Failed, Some(9)), "n" := child];
    assert u.nodes == map["n" := CodeNode("r", 1, [], UserConfirmedFailure, [], [])];
  }

  lemma Verdict()
    ensures R.Step(Session(9, true, Parent(Failed, Some(9)), Child(OutcomeUnknown, Some(8))), Event(10, Facts(9)))
         == Ok(Session(10, false, Parent(Failed, Some(9)), Child(UserConfirmedFailure, Some(10))))
  {
    KeyIsLong();
    hide R.HandleGraphFact, R.HandleTurnFact, R.HandleOtherFact, KEY, R.SetCall, R.Unknowns;
    var s := Session(9, true, Parent(Failed, Some(9)), Child(OutcomeUnknown, Some(8)));
    assert R.Resolve(s, Ref("n")) == Ok("n");
    var child := Child(UserConfirmedFailure, Some(10));
    VerdictSets(s, child);
    var u := R.SetCall(s, "n", child, None);
    assert s.calls["n"].(status := UserConfirmedFailure, finishedSeq := Some(10), note := Some("")) == child;
    assert R.RefreshBlock(u).turns == map["t" := Active];
  }

  lemma RunStartedReplays()
    ensures R.Replay(EMPTY, Log(5)) == Ok(Batched(Started, ["r"]))
  {
    Opening();
    var begun := EMPTY.(created := true, lastSeq := 2, active := Some("t"), turns := map["t" := Active]);
    hide R.Step, R.Replay, Log, Facts, Session, Batched, Parent, Child;
    Next(2, begun);
    Accept(begun);
    Next(3, Batched(Requested, []));
    StartParent();
    Next(4, Batched(Started, []));
    StartRun();
  }

  lemma LogReplays()
    ensures R.Replay(EMPTY, Log(9)) == Ok(Session(9, true, Parent(Failed, Some(9)), Child(OutcomeUnknown, Some(8))))
    ensures R.Replay(EMPTY, Log(10)) == Ok(Session(10, false, Parent(Failed, Some(9)), Child(UserConfirmedFailure, Some(10))))
  {
    RunStartedReplays();
    hide R.Step, R.Replay, Log, Facts, Session, Batched, Parent, Child;
    Next(5, Batched(Started, ["r"]));
    PlanNode();
    var planned := Session(6, false, Parent(Started, None), Child(Requested, None));
    Next(6, planned);
    ChildStep(planned, Facts(6), Child(Started, None));
    Next(7, Session(7, false, Parent(Started, None), Child(Started, None)));
    LoseChild();
    Next(8, Session(8, true, Parent(Started, None), Child(OutcomeUnknown, Some(8))));
    FailParent();
    Next(9, Session(9, true, Parent(Failed, Some(9)), Child(OutcomeUnknown, Some(8))));
    Verdict();
  }

  lemma WrongTag()
    ensures !S.FactOk(Session(9, true, Parent(Failed, Some(9)), Child(OutcomeUnknown, Some(8))), Facts(9))
  {
    KeyIsLong();
    var t := Session(9, true, Parent(Failed, Some(9)), Child(OutcomeUnknown, Some(8)));
    hide KEY;
    assert R.Resolve(t, Ref("n")) == Ok("n");
  }

  lemma NoCut(n: nat)
    ensures T.NoCheckpoint(Log(n))
  {
    LogLength(n);
  }

  /** The reducer accepts the whole log, nothing is open or unknown in it, and still it does not project. */
  lemma VerdictBreaksProjection(system: string)
    ensures var s := Session(10, false, Parent(Failed, Some(9)), Child(UserConfirmedFailure, Some(10)));
            R.Replay(EMPTY, Log(10)) == Ok(s) && Settled(s) && T.NoCheckpoint(Log(10)) && Project(Log(10), s, system).Err?
  {
    hide R.Replay, Facts, KEY, S.FactOk, T.NoCheckpoint, T.FactsOk, Parent, Child, Session, Settled, Log, Project;
    var s := Session(10, false, Parent(Failed, Some(9)), Child(UserConfirmedFailure, Some(10)));
    LogReplays();
    NoCut(10);
    VerdictSettles();
    FactsAreWrong();
    hide V.Through;
    V.NothingBefore(Log(10));
    V.ProjectionExact(Log(10), s, system);
  }

  lemma VerdictSettles()
    ensures Settled(Session(10, false, Parent(Failed, Some(9)), Child(UserConfirmedFailure, Some(10))))
  {
    hide KEY;
  }

  lemma FactsAreWrong()
    ensures !T.FactsOk(Log(10))
  {
    hide R.Replay, Facts, KEY, S.FactOk, Parent, Child, Session, Log;
    LogReplays();
    LogLength(10);
    LogLength(9);
    WrongTag();
    assert Log(10)[..9] == Log(9);
  }
}
