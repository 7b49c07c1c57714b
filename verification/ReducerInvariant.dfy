/**
 What every accepted event keeps: the invariant of all reachable session states.
 */
module ReducerInvariant {
  import opened Domain
  import opened Reducer

  type Calls = map<string, ToolCall>
  type Nodes = map<string, CodeNode>
  type Runs = map<string, CodeRun>

  // ----- The invariant, one predicate for each group of fields -----

  /** Only the active turn is unfinished. */
  ghost predicate TurnsOk(active: Option<string>, turns: map<string, TurnStatus>) {
    && (active.Some? ==> active.value in turns && !turns[active.value].IsTerminal())
    && (forall t :: t in turns && active != Some(t) ==> turns[t].IsTerminal())
  }

  /** Every open or unknown call belongs to the active turn. */
  ghost predicate CallsOk(calls: Calls, active: Option<string>) {
    forall k :: k in calls ==>
      && calls[k].key == k && k != "" && calls[k].providerId != ""
      && (calls[k].status.IsUnsettled() ==> active == Some(calls[k].turn))
      && (calls[k].finishedSeq.Some? <==> calls[k].status.IsTerminal())
  }

  ghost predicate SeqsOk(calls: Calls, lastSeq: nat) {
    forall k :: k in calls ==>
      calls[k].requestedSeq <= lastSeq && (calls[k].finishedSeq.Some? ==> calls[k].finishedSeq.value <= lastSeq)
  }

  ghost predicate SomeUnknown(calls: Calls) {
    exists k :: k in calls && calls[k].status.OutcomeUnknown?
  }

  /** The block flag, the unknown outcomes and the turn's status say the same thing. */
  ghost predicate BlockOk(blocked: bool, calls: Calls, active: Option<string>, turns: map<string, TurnStatus>) {
    && (blocked <==> SomeUnknown(calls))
    && (active.Some? && active.value in turns ==> (turns[active.value].RecoveryBlocked? <==> blocked))
  }

  ghost predicate ListsExactly(order: seq<string>, keys: set<string>) {
    && Distinct(order)
    && (forall i :: 0 <= i < |order| ==> order[i] in keys)
    && (forall k :: k in keys ==> k in order)
  }

  /** Code calls and code nodes are two views of one thing. */
  ghost predicate MirrorOk(calls: Calls, nodes: Nodes) {
    && (forall k :: k in calls && calls[k].origin.FromCode? ==> k in nodes && calls[k].providerId == k)
    && (forall n :: n in nodes ==>
          && n in calls
          && calls[n].status == nodes[n].status
          && calls[n].origin.FromCode? && calls[n].origin.run == nodes[n].run && calls[n].origin.ordinal == nodes[n].ordinal)
  }

  ghost predicate NodesHome(nodes: Nodes, runs: Runs) {
    forall n :: n in nodes ==> nodes[n].run in runs && n in runs[nodes[n].run].nodeIds
  }

  ghost predicate DependsOnEarlier(nodes: Nodes, ids: seq<string>) {
    forall i, d :: 0 <= i < |ids| && ids[i] in nodes && d in nodes[ids[i]].dependencies ==> d in ids[..i]
  }

  ghost predicate RunOk(nodes: Nodes, r: string, run: CodeRun) {
    && run.parent !in run.nodeIds
    && Distinct(run.nodeIds)
    && (forall i :: 0 <= i < |run.nodeIds| ==> run.nodeIds[i] in nodes && nodes[run.nodeIds[i]].run == r)
    && DependsOnEarlier(nodes, run.nodeIds)
    && (!run.status.RunActive? ==> forall i :: 0 <= i < |run.nodeIds| ==> nodes[run.nodeIds[i]].status.IsTerminal())
  }

  ghost predicate RunsOk(nodes: Nodes, runs: Runs) {
    forall r :: r in runs ==> RunOk(nodes, r, runs[r])
  }

  ghost predicate ParentsOk(calls: Calls, runs: Runs) {
    forall r :: r in runs ==> runs[r].parent in calls && !calls[runs[r].parent].status.Requested?
  }

  ghost predicate IntentOk(intent: Option<Intent>, calls: Calls, active: Option<string>) {
    && (intent.Some? ==> active.Some?)
    && (intent.Some? && intent.value.action.RecoverInterrupted? ==>
          forall k :: k in calls ==> !calls[k].status.Started? && !calls[k].status.OutcomeUnknown?)
  }

  /** The part of the invariant about turns and calls. */
  ghost predicate CallInv(s: State) {
    && TurnsOk(s.active, s.turns) && CallsOk(s.calls, s.active) && SeqsOk(s.calls, s.lastSeq)
    && BlockOk(s.blocked, s.calls, s.active, s.turns) && ListsExactly(s.callOrder, s.calls.Keys)
    && IntentOk(s.intent, s.calls, s.active)
  }

  /** The part of the invariant about the Code Mode graph. */
  ghost predicate GraphInv(s: State) {
    && MirrorOk(s.calls, s.nodes) && NodesHome(s.nodes, s.runs) && RunsOk(s.nodes, s.runs)
    && ParentsOk(s.calls, s.runs) && ListsExactly(s.runOrder, s.runs.Keys)
  }

  ghost predicate Inv(s: State) { CallInv(s) && GraphInv(s) }

  predicate SameIdentity(a: ToolCall, b: ToolCall) {
    && a.key == b.key && a.providerId == b.providerId && a.turn == b.turn && a.name == b.name
    && a.requestedSeq == b.requestedSeq && a.origin == b.origin
  }

  // ----- Adding to the call table and to the graph -----

  lemma AppendExactly(order: seq<string>, keys: set<string>, k: string)
    requires ListsExactly(order, keys) && k !in keys
    ensures ListsExactly(order + [k], keys + {k})
  {
  }

  lemma SetExactly(order: seq<string>, calls: Calls, k: string, call: ToolCall)
    requires ListsExactly(order, calls.Keys)
    ensures k in calls ==> ListsExactly(order, calls[k := call].Keys)
    ensures k !in calls ==> ListsExactly(order + [k], calls[k := call].Keys)
  {
    if k in calls {
      assert calls[k := call].Keys == calls.Keys;
    } else {
      assert calls[k := call].Keys == calls.Keys + {k};
      AppendExactly(order, calls.Keys, k);
    }
  }

  lemma AddCallUnknowns(calls: Calls, k: string, call: ToolCall)
    requires k !in calls && !call.status.OutcomeUnknown?
    ensures SomeUnknown(calls[k := call]) == SomeUnknown(calls)
  {
    if SomeUnknown(calls) {
      var j :| j in calls && calls[j].status.OutcomeUnknown?;
      assert calls[k := call][j].status.OutcomeUnknown?;
    }
  }

  /** A requested call may join the table while its turn is active. */
  lemma AddCallKeeps(s: State, seqNo: nat, call: ToolCall)
    requires CallInv(s) && s.active == Some(call.turn) && s.lastSeq <= seqNo
    requires call.key !in s.calls && call.key != "" && call.providerId != ""
    requires call.status.Requested? && call.finishedSeq.None? && call.requestedSeq == seqNo
    ensures CallInv(s.(calls := s.calls[call.key := call], callOrder := s.callOrder + [call.key], lastSeq := seqNo))
  {
    var calls := s.calls[call.key := call];
    SetExactly(s.callOrder, s.calls, call.key, call);
    AddCallUnknowns(s.calls, call.key, call);
    assert CallsOk(calls, s.active);
    assert SeqsOk(calls, seqNo);
    assert IntentOk(s.intent, calls, s.active);
  }

  lemma AddModelCallGraph(s: State, call: ToolCall)
    requires GraphInv(s) && call.key !in s.calls && call.origin.FromModel?
    ensures MirrorOk(s.calls[call.key := call], s.nodes) && ParentsOk(s.calls[call.key := call], s.runs)
  {
  }

  lemma {:induction false} AddCallsKeeps(s: State, seqNo: nat, turn: string, docs: seq<CallDoc>)
    requires Inv(s) && s.active == Some(turn) && seqNo == s.lastSeq + 1
    requires AddCalls(s, seqNo, turn, docs).Ok? && forall i :: 0 <= i < |docs| ==> docs[i].id != ""
    ensures var t := AddCalls(s, seqNo, turn, docs).value;
            && Inv(t.(lastSeq := seqNo)) && t == s.(calls := t.calls, callOrder := t.callOrder)
  {
    if docs != [] {
      AddCallsKeeps(s, seqNo, turn, docs[..|docs| - 1]);
      var t := AddCalls(s, seqNo, turn, docs[..|docs| - 1]).value;
      var call := ModelCall(seqNo, turn, docs[|docs| - 1]);
      AddCallKeeps(t.(lastSeq := seqNo), seqNo, call);
      AddModelCallGraph(t.(lastSeq := seqNo), call);
    }
  }

  lemma AddNodeToRun(nodes: Nodes, r: string, run: CodeRun, id: string, node: CodeNode)
    requires RunOk(nodes, r, run) && run.status.RunActive? && id !in nodes && node.run == r && id != run.parent
    requires forall d :: d in node.dependencies ==> d in run.nodeIds
    ensures RunOk(nodes[id := node], r, run.(nodeIds := run.nodeIds + [id]))
  {
    var ids := run.nodeIds + [id];
    assert ids[..|run.nodeIds|] == run.nodeIds;
    forall i | 0 <= i < |run.nodeIds| ensures ids[..i] == run.nodeIds[..i] {}
  }

  lemma AddNodeElsewhere(nodes: Nodes, r: string, run: CodeRun, id: string, node: CodeNode)
    requires RunOk(nodes, r, run) && id !in nodes
    ensures RunOk(nodes[id := node], r, run)
  {
  }

  lemma AddNodeGraph(s: State, id: string, node: CodeNode, call: ToolCall)
    requires GraphInv(s) && id !in s.calls && node.run in s.runs && s.runs[node.run].status.RunActive?
    requires KnownDependencies(s, node.run, node.dependencies) && node.status == call.status
    requires call.origin == FromCode(node.run, s.runs[node.run].parent, node.ordinal) && call.providerId == id
    ensures var run := s.runs[node.run];
            GraphInv(s.(nodes := s.nodes[id := node], calls := s.calls[id := call],
                        runs := s.runs[node.run := run.(nodeIds := run.nodeIds + [id])]))
  {
    var run := s.runs[node.run];
    var nodes, runs := s.nodes[id := node], s.runs[node.run := run.(nodeIds := run.nodeIds + [id])];
    assert id !in s.nodes;
    assert runs.Keys == s.runs.Keys;
    AddNodeToRun(s.nodes, node.run, run, id, node);
    forall r | r in runs && r != node.run ensures RunOk(nodes, r, runs[r]) {
      AddNodeElsewhere(s.nodes, r, s.runs[r], id, node);
    }
    assert MirrorOk(s.calls[id := call], nodes);
    assert NodesHome(nodes, runs);
    assert ParentsOk(s.calls[id := call], runs);
  }

  // ----- Changing a call in place -----

  /** A status change that keeps the call's identity, followed by the recomputed block flag. */
  lemma SetCallKeeps(s: State, seqNo: nat, k: string, call: ToolCall, causes: Option<Causes>)
    requires CallInv(s) && s.lastSeq <= seqNo && k in s.calls && SameIdentity(s.calls[k], call)
    requires s.active == Some(call.turn)
    requires call.finishedSeq.Some? <==> call.status.IsTerminal()
    requires call.finishedSeq.Some? ==> call.finishedSeq.value <= seqNo
    requires s.intent.Some? && s.intent.value.action.RecoverInterrupted? ==> !call.status.Started? && !call.status.OutcomeUnknown?
    ensures CallInv(RefreshBlock(SetCall(s, k, call, causes)).(lastSeq := seqNo))
  {
    var t := RefreshBlock(SetCall(s, k, call, causes)).(lastSeq := seqNo);
    SetExactly(s.callOrder, s.calls, k, call);
    assert Unknowns(SetCall(s, k, call, causes)) == SomeUnknown(t.calls);
  }

  lemma SetCallUnknowns(s: State, k: string, call: ToolCall)
    requires k in s.calls && !call.status.OutcomeUnknown? && !s.calls[k].status.OutcomeUnknown?
    ensures SomeUnknown(s.calls[k := call]) == SomeUnknown(s.calls)
  {
    var calls := s.calls[k := call];
    if SomeUnknown(s.calls) {
      var j :| j in s.calls && s.calls[j].status.OutcomeUnknown?;
      assert calls[j].status.OutcomeUnknown?;
    }
    if SomeUnknown(calls) {
      var j :| j in calls && calls[j].status.OutcomeUnknown?;
      assert s.calls[j].status.OutcomeUnknown?;
    }
  }

  /** The same where the handler does not recompute the flag, because no outcome is unknown before or after. */
  lemma SetCallQuietlyKeeps(s: State, seqNo: nat, k: string, call: ToolCall, causes: Option<Causes>)
    requires CallInv(s) && s.lastSeq <= seqNo && k in s.calls && SameIdentity(s.calls[k], call)
    requires s.active == Some(call.turn) && s.intent.None?
    requires call.status.IsOpen() && s.calls[k].status.IsOpen() && call.finishedSeq.None?
    ensures CallInv(SetCall(s, k, call, causes).(lastSeq := seqNo))
  {
    SetCallUnknowns(s, k, call);
    SetExactly(s.callOrder, s.calls, k, call);
    var calls := s.calls[k := call];
    assert CallsOk(calls, s.active) by { hide BlockOk, ListsExactly, IntentOk, TurnsOk; }
    assert SeqsOk(calls, seqNo) by { hide CallsOk, BlockOk, ListsExactly, IntentOk, TurnsOk; }
    assert IntentOk(s.intent, calls, s.active);
    assert BlockOk(s.blocked, calls, s.active, s.turns);
    hide CallsOk, SeqsOk, BlockOk, ListsExactly, IntentOk, TurnsOk;
  }

  lemma SetNodeInRun(nodes: Nodes, r: string, run: CodeRun, k: string, node: CodeNode)
    requires RunOk(nodes, r, run) && k in nodes
    requires node.run == nodes[k].run && node.dependencies == nodes[k].dependencies
    requires nodes[k].status.IsOpen() || node.status.IsTerminal()
    ensures RunOk(nodes[k := node], r, run)
  {
    var more := nodes[k := node];
    forall i, d | 0 <= i < |run.nodeIds| && d in more[run.nodeIds[i]].dependencies ensures d in run.nodeIds[..i] {
      assert d in nodes[run.nodeIds[i]].dependencies;
    }
  }

  /** How a set call shows in the graph. */
  ghost predicate MirrorSet(s: State, t: State, k: string, call: ToolCall) {
    && k in s.calls && t.calls == s.calls[k := call] && t.runs == s.runs && t.runOrder == s.runOrder
    && if call.origin.FromCode? then
         && k in s.nodes && k in t.nodes && t.nodes == s.nodes[k := t.nodes[k]]
         && t.nodes[k].status == call.status && s.nodes[k].status == s.calls[k].status
         && t.nodes[k].run == s.nodes[k].run && t.nodes[k].ordinal == s.nodes[k].ordinal
         && t.nodes[k].dependencies == s.nodes[k].dependencies
       else t.nodes == s.nodes
  }

  lemma SetCallSets(s: State, k: string, call: ToolCall, causes: Option<Causes>)
    requires MirrorOk(s.calls, s.nodes) && k in s.calls && SameIdentity(s.calls[k], call)
    ensures MirrorSet(s, SetCall(s, k, call, causes), k, call)
  {
  }

  lemma SetMirrors(s: State, t: State, k: string, call: ToolCall)
    requires MirrorOk(s.calls, s.nodes) && MirrorSet(s, t, k, call) && SameIdentity(s.calls[k], call)
    ensures MirrorOk(t.calls, t.nodes)
  {
  }

  lemma SetHomes(s: State, t: State, k: string, call: ToolCall)
    requires NodesHome(s.nodes, s.runs) && MirrorSet(s, t, k, call)
    ensures NodesHome(t.nodes, t.runs)
  {
  }

  lemma SetParents(s: State, t: State, k: string, call: ToolCall)
    requires ParentsOk(s.calls, s.runs) && MirrorSet(s, t, k, call)
    requires call.status.Requested? ==> s.calls[k].status.Requested?
    ensures ParentsOk(t.calls, t.runs)
  {
  }

  lemma SetCallGraph(s: State, k: string, call: ToolCall, causes: Option<Causes>)
    requires GraphInv(s) && k in s.calls && SameIdentity(s.calls[k], call)
    requires s.calls[k].status.IsOpen() || call.status.IsTerminal()
    requires call.status.Requested? ==> s.calls[k].status.Requested?
    ensures GraphInv(SetCall(s, k, call, causes))
  {
    hide MirrorOk, NodesHome, ListsExactly, ParentsOk, SetCall;
    var t := SetCall(s, k, call, causes);
    SetCallSets(s, k, call, causes);
    SetMirrors(s, t, k, call);
    SetHomes(s, t, k, call);
    SetParents(s, t, k, call);
    if call.origin.FromCode? {
      forall r | r in t.runs ensures RunOk(t.nodes, r, t.runs[r]) {
        SetNodeInRun(s.nodes, r, s.runs[r], k, t.nodes[k]);
      }
    }
  }
}
