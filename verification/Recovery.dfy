/**
 Crash recovery of a session: the facts that close what a crash left open, one at a time.
 */
module Recovery {
  import opened Domain
  import R = Reducer

  type Calls = map<string, ToolCall>

  // ----- Appending facts -----

  ghost function Append(s: State, fact: Fact): R.Applied {
    R.Step(s, Event(s.lastSeq + 1, fact))
  }

  ghost function AppendAll(s: State, facts: seq<Fact>): R.Applied {
    if facts == [] then Ok(s)
    else
      match AppendAll(s, facts[..|facts| - 1])
      case Err(x) => Err(x)
      case Ok(t) => Append(t, facts[|facts| - 1])
  }

  // ----- The facts that recovery writes -----

  function Named(call: ToolCall): CallRef { CallRef(Some(call.key), Some(call.providerId)) }

  /** Close a call that a crash left open: a started one has an unknown outcome, a requested one never ran. */
  function CloseCall(call: ToolCall, codeNode: bool): Fact
  {
    if call.status.Started? then
      ToolFinished(Named(call), OutcomeUnknown,
                   Some(if codeNode then "code node began but no terminal result was recorded"
                        else "execution began but no terminal result was recorded"), true, codeNode, [], [])
    else
      ToolFinished(Named(call), NotExecuted,
                   Some(if codeNode then "code node was not started before recovery"
                        else "tool call was not started before recovery"), false, codeNode, [], [])
  }

  /** Closing facts for the open calls among `ids`, in that order. */
  function Closings(calls: Calls, ids: seq<string>, codeNodes: bool): seq<Fact> {
    if ids == [] then []
    else
      (if ids[0] in calls && calls[ids[0]].status.IsOpen() then [CloseCall(calls[ids[0]], codeNodes)] else [])
      + Closings(calls, ids[1..], codeNodes)
  }

  /** What `plan_recovery_events` plans. */
  function Plan(s: State): seq<Fact> { Closings(s.calls, s.callOrder, false) }

  /** What `_abandon_candidates` plans: note that the origin of a code call is not written. */
  function Abandons(calls: Calls, active: Option<string>, ids: seq<string>, note: string): seq<Fact> {
    if ids == [] then []
    else
      (if ids[0] in calls && active == Some(calls[ids[0]].turn) && calls[ids[0]].status.OutcomeUnknown?
       then [ToolReconciled(Named(calls[ids[0]]), GiveUp, note, false)] else [])
      + Abandons(calls, active, ids[1..], note)
  }

  /** The interrupted `run_code` call itself failed. */
  function ParentFailed(call: ToolCall): (f: Fact)
    ensures f.ToolFinished?
  {
    ToolFinished(Named(call), Failed, Some("code runtime was interrupted and was not replayed"), false, false, [], [])
  }

  function ParentWork(calls: Calls, parent: string): seq<Fact> {
    if parent in calls && calls[parent].status.Started?
    then [ParentFailed(calls[parent])]
    else []
  }

  /** The facts that close one Code Mode run: its open nodes, the run, and the call that started it. */
  function RunWork(s: State, r: string): seq<Fact>
    requires r in s.runs
  {
    (if s.runs[r].status.RunActive? then Closings(s.calls, s.runs[r].nodeIds, true) + [CodeRunFinished(r, RunFailed)] else [])
    + ParentWork(s.calls, s.runs[r].parent)
  }

  function FirstBusy(s: State, i: nat): Option<string>
    decreases |s.runOrder| - i
  {
    if i >= |s.runOrder| then None
    else if s.runOrder[i] in s.runs && RunWork(s, s.runOrder[i]) != [] then Some(s.runOrder[i])
    else FirstBusy(s, i + 1)
  }

  ghost predicate Any(s: State, status: ToolStatus) {
    exists k :: k in s.calls && s.calls[k].status == status
  }

  /** Only requested calls are open and nothing is uncertain: the whole turn can be closed as interrupted. */
  ghost predicate OnlyRequested(s: State) {
    Any(s, Requested) && !Any(s, Started) && !Any(s, OutcomeUnknown) && !s.blocked && s.active.Some?
  }

  const INTERRUPTED := "turn interrupted before requested tools were started"

  /** The next fact that recovery owes this state, if any; it depends on nothing but the state. */
  ghost function NextFact(s: State): Option<Fact> {
    if s.intent.Some? && s.active.Some? then
      var intent := s.intent.value;
      var closing := if intent.action.RecoverInterrupted? then Plan(s) else Abandons(s.calls, s.active, s.callOrder, intent.reason);
      if closing != [] then Some(closing[0])
      else Some(TurnFinished(s.active.value, if intent.action.RecoverInterrupted? then TurnInterrupted else TurnAbandoned))
    else
      var busy := FirstBusy(s, 0);
      if busy.Some? && busy.value in s.runs && RunWork(s, busy.value) != [] then Some(RunWork(s, busy.value)[0])
      else if OnlyRequested(s) then Some(TurnRecoveryIntent(s.active.value, RecoverInterrupted, INTERRUPTED))
      else if Plan(s) != [] then Some(Plan(s)[0])
      else None
  }

  /** The facts follow one another as `NextFact` dictates, and each is accepted. */
  ghost predicate Chain(s: State, facts: seq<Fact>) {
    facts == []
    || (Chain(s, facts[..|facts| - 1])
        && AppendAll(s, facts[..|facts| - 1]).Ok?
        && NextFact(AppendAll(s, facts[..|facts| - 1]).value) == Some(facts[|facts| - 1])
        && AppendAll(s, facts).Ok?)
  }

  /** A recovery that ran to its end. */
  ghost predicate Complete(s: State, facts: seq<Fact>) {
    Chain(s, facts) && AppendAll(s, facts).Ok? && NextFact(AppendAll(s, facts).value).None?
  }

  /** A pending intent leaves neither a running code run nor, when abandoning, an open call. */
  ghost predicate Harmless(s: State) {
    s.intent.Some? ==>
      && (forall r :: r in s.runs ==> !s.runs[r].status.RunActive?)
      && (s.intent.value.action.Abandon? ==> forall k :: k in s.calls ==> !s.calls[k].status.IsOpen())
  }

  // ----- Recovery has no memory -----

  lemma {:induction false} AppendConcat(s: State, a: seq<Fact>, b: seq<Fact>)
    ensures AppendAll(s, a).Ok? ==> AppendAll(s, a + b) == AppendAll(AppendAll(s, a).value, b)
  {
    hide Append;
    if b == [] {
      assert a + b == a;
    } else {
      AppendConcat(s, a, b[..|b| - 1]);
      assert (a + b)[..|a + b| - 1] == a + b[..|b| - 1];
    }
  }

  lemma ChainExtend(s: State, facts: seq<Fact>, fact: Fact)
    requires Chain(s, facts) && AppendAll(s, facts).Ok? && NextFact(AppendAll(s, facts).value) == Some(fact)
    requires Append(AppendAll(s, facts).value, fact).Ok?
    ensures Chain(s, facts + [fact]) && AppendAll(s, facts + [fact]) == Append(AppendAll(s, facts).value, fact)
  {
    hide NextFact, Append;
    assert (facts + [fact])[..|facts|] == facts;
  }

  lemma {:induction false} ChainPrefix(s: State, facts: seq<Fact>, k: nat)
    requires Chain(s, facts) && k <= |facts|
    ensures Chain(s, facts[..k]) && AppendAll(s, facts[..k]).Ok?
    ensures k < |facts| ==> NextFact(AppendAll(s, facts[..k]).value) == Some(facts[k])
  {
    hide NextFact, Append;
    if k == |facts| {
      assert facts[..k] == facts;
    } else if k < |facts| - 1 {
      ChainPrefix(s, facts[..|facts| - 1], k);
      assert facts[..|facts| - 1][..k] == facts[..k];
    } else {
      ChainPrefix(s, facts[..|facts| - 1], k);
      assert facts[..|facts| - 1][..k] == facts[..k];
    }
  }

  lemma {:induction false} ChainsAgree(s: State, a: seq<Fact>, b: seq<Fact>)
    requires Chain(s, a) && Chain(s, b) && |a| <= |b|
    ensures a == b[..|a|]
  {
    hide NextFact, Append;
    if a != [] {
      var n := |a| - 1;
      ChainsAgree(s, a[..n], b);
      ChainPrefix(s, b, n);
      assert a[n] == b[n];
      assert a == a[..n] + [a[n]];
      assert b[..n + 1] == b[..n] + [b[n]];
    }
  }

  lemma {:induction false} ChainJoins(s: State, a: seq<Fact>, b: seq<Fact>)
    requires Chain(s, a) && AppendAll(s, a).Ok? && Chain(AppendAll(s, a).value, b)
    ensures Chain(s, a + b)
  {
    hide NextFact, Append;
    if b == [] {
      assert a + b == a;
    } else {
      var front := b[..|b| - 1];
      ChainJoins(s, a, front);
      ChainPrefix(AppendAll(s, a).value, b, |front|);
      AppendConcat(s, a, front);
      AppendConcat(s, a, b);
      assert (a + b)[..|a + b| - 1] == a + front;
    }
  }

  lemma CompleteIsUnique(s: State, a: seq<Fact>, b: seq<Fact>)
    requires Complete(s, a) && Complete(s, b)
    ensures a == b
  {
    hide NextFact, Append;
    if |a| <= |b| {
      ChainsAgree(s, a, b);
      if |a| < |b| { ChainPrefix(s, b, |a|); }
    } else {
      ChainsAgree(s, b, a);
      ChainPrefix(s, a, |b|);
    }
  }

  lemma CompleteJoins(s: State, a: seq<Fact>, b: seq<Fact>)
    requires Chain(s, a) && AppendAll(s, a).Ok? && Complete(AppendAll(s, a).value, b)
    ensures Complete(s, a + b)
    ensures AppendAll(s, a + b) == AppendAll(AppendAll(s, a).value, b)
  {
    hide NextFact, Append;
    ChainJoins(s, a, b);
    AppendConcat(s, a, b);
  }

  /** Cut a recovery after any fact and recover again: the second run writes exactly the missing facts. */
  lemma ResumeAfterCut(s: State, facts: seq<Fact>, k: nat, again: seq<Fact>)
    requires Complete(s, facts) && k <= |facts| && AppendAll(s, facts[..k]).Ok?
    requires Complete(AppendAll(s, facts[..k]).value, again)
    ensures again == facts[k..]
    ensures AppendAll(AppendAll(s, facts[..k]).value, again) == AppendAll(s, facts)
  {
    assert Chain(s, facts);
    ChainPrefix(s, facts, k);
    hide Complete, Chain, AppendAll;
    CompleteJoins(s, facts[..k], again);
    CompleteIsUnique(s, facts[..k] + again, facts);
    assert again == (facts[..k] + again)[k..];
  }
}
