/**
 A concrete request that the parent accepts and the reducer does not: it names a dependency twice, and the rollout is
 left with a fact that no later session can replay.
 */
module RefusedRequest {
  import opened Domain
  import opened CodeDag
  import opened DagPlanning
  import opened Sessions
  import R = Reducer
  import Runs = ReducerRuns
  import X = GraphExchange
  import V = UntaggedVerdict

  const FIRST := X.RawNode("a", 1, "bash", [])
  const TWICE := X.RawNode("b", 2, "bash", ["a", "a"])
  const REQUEST := [FIRST, TWICE]

  lemma DurablesDiffer()
    ensures X.Durable("r", 1) != X.Durable("r", 2) && |X.Durable("r", 1)| == 8 && |X.Durable("r", 2)| == 8
  {
    assert Decimal(1) == "1" && Decimal(2) == "2";
    assert X.Durable("r", 1) == "r:node:1" && X.Durable("r", 2) == "r:node:2";
  }

  lemma TheBatch()
    ensures X.BatchOf(REQUEST) == map["a" := Spec(1, []), "b" := Spec(2, ["a", "a"])]
    ensures X.NamesOf(REQUEST) == map["a" := "bash", "b" := "bash"]
  {
    assert REQUEST[..1] == [FIRST] && [FIRST][..0] == [];
    assert X.BatchOf([FIRST]) == map["a" := Spec(1, [])];
    assert X.NamesOf([FIRST]) == map["a" := "bash"];
  }

  lemma NothingAgainstIt(s: State)
    requires s == V.Batched(Started, ["r"])
    ensures X.Acceptable(REQUEST, ["b"], {}, s, "r", 2)
  {
    TheBatch();
    DurablesDiffer();
    V.KeyIsLong();
    hide X.Durable, V.KEY, V.Parent, X.BatchOf, X.NamesOf;
    var batch := X.BatchOf(REQUEST);
    var rank: map<Id, nat> := map["a" := 0, "b" := 1];
    assert RankedAbove(batch, {}, rank);
    assert X.WellFormed(REQUEST, {});
    assert X.OrdinalsDistinct(batch);
    assert s.nodes == map[] && s.calls.Keys == {V.KEY};
    assert X.IdsFree(batch, s, "r");
    assert "bash" in X.CODE_TOOLS;
    assert X.ToolsAvailable(batch, X.NamesOf(REQUEST));
  }

  /** Bring a new session up to the end of a log that the reducer accepts. */
  method Load(log: seq<Event>) returns (session: SessionState)
    requires R.Replay(EMPTY, log).Ok?
    ensures fresh(session) && R.Replay(EMPTY, log) == Ok(session.Abs())
  {
    session := new SessionState();
    assert log[..0] == [];
    assert R.Replay(EMPTY, []) == Ok(EMPTY);
    hide *;
    for i := 0 to |log|
      invariant fresh(session) && R.Replay(EMPTY, log[..i]) == Ok(session.Abs())
    {
      ghost var before := session.Abs();
      Runs.ReachableInv(log[..i]);
      PrefixReplays(log, i + 1);
      OneMore(log, i, before);
      var refusal := session.Apply(log[i]);
      Accepted(R.Step(before, log[i]), before, session.Abs(), refusal);
    }
    assert log[..|log|] == log;
  }

  lemma {:induction false} OneMore(log: seq<Event>, i: nat, s: State)
    requires i < |log| && R.Replay(EMPTY, log[..i]) == Ok(s)
    ensures R.Replay(EMPTY, log[..i + 1]) == R.Step(s, log[i])
  {
    hide R.Step;
    assert log[..i + 1][..i] == log[..i];
  }

  lemma Accepted(spec: R.Applied, before: State, after: State, refusal: Option<Refusal>)
    requires spec.Ok? && (refusal != Some(DuplicateCallKey) ==> Follows(spec, before, after, refusal))
    requires refusal == Some(DuplicateCallKey) ==> spec == Err(DuplicateCallKey)
    ensures spec == Ok(after)
  {
  }

  lemma {:induction false} PrefixReplays(log: seq<Event>, n: nat)
    requires R.Replay(EMPTY, log).Ok? && n <= |log|
    ensures R.Replay(EMPTY, log[..n]).Ok?
    decreases |log|
  {
    if n < |log| {
      PrefixReplays(log[..|log| - 1], n);
      assert log[..|log| - 1][..n] == log[..n];
    } else {
      assert log[..n] == log;
    }
  }

  /** No check of the parent rejects the request, the reducer refuses its second node, and the rollout is lost. */
  method TwiceIsRefused() returns (outcome: X.Submission, log: seq<Event>)
    ensures outcome.Refused? && R.Replay(EMPTY, log).Err?
  {
    V.RunStartedReplays();
    var session := Load(V.Log(5));
    var parent := Parent(session);
    NothingAgainstIt(session.Abs());
    hide *;
    Duplicate();
    assert parent.localToDurable.Keys == {};
    outcome := parent.Submit(REQUEST, ["b"]);
    NotBoth(outcome);
    log := parent.log;
  }

  method Parent(session: SessionState) returns (parent: X.GraphSession)
    requires session.Abs() == V.Batched(Started, ["r"])
    ensures fresh(parent) && parent.Valid() && parent.session == session && parent.run == "r" && parent.maxNodes == 2
    ensures parent.localToDurable == map[]
  {
    V.RunStartedReplays();
    hide R.Replay, V.Log, V.KEY, V.Parent;
    parent := new X.GraphSession(session, V.Log(5), "r", 2);
  }

  lemma Duplicate()
    ensures !Distinct(REQUEST[1].deps) && |REQUEST| == 2
  {
    assert REQUEST[1].deps[0] == REQUEST[1].deps[1];
  }

  lemma NotBoth(outcome: X.Submission)
    ensures outcome.Refused? || outcome.Planned? || outcome.Rejected?
  {
  }
}
