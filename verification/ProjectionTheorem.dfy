/**
 Which accepted logs project: the main results about the projector.
 */
module ProjectionTheorem {
  import opened Domain
  import opened Projection
  import opened ProjectionSteps
  import R = Reducer
  import I = ReducerInvariant
  import Runs = ReducerRuns
  import C = Conversation

  /** Every fact was written with the right tag for the state it met. */
  ghost predicate FactsOk(events: seq<Event>) {
    forall i :: 0 <= i < |events| && R.Replay(EMPTY, events[..i]).Ok? ==> FactOk(R.Replay(EMPTY, events[..i]).value, events[i].fact)
  }

  predicate NoCheckpoint(events: seq<Event>) {
    forall i :: 0 <= i < |events| ==> !events[i].fact.CompactionCheckpoint?
  }

  lemma FactsOkPrefix(events: seq<Event>, n: nat)
    requires FactsOk(events) && n <= |events|
    ensures FactsOk(events[..n])
  {
    forall i | 0 <= i < n && R.Replay(EMPTY, events[..n][..i]).Ok?
      ensures FactOk(R.Replay(EMPTY, events[..n][..i]).value, events[..n][i].fact)
    {
      assert events[..n][..i] == events[..i];
    }
  }

  lemma {:induction false} Unfold(s: State, events: seq<Event>)
    requires R.Replay(s, events).Ok? && events != []
    ensures R.Replay(s, events[..|events| - 1]).Ok?
    ensures R.Step(R.Replay(s, events[..|events| - 1]).value, events[|events| - 1]) == R.Replay(s, events)
  {
  }

  /** Events are numbered by their place in the log. */
  lemma {:induction false} SeqNumbers(events: seq<Event>)
    requires R.Replay(EMPTY, events).Ok?
    ensures R.Replay(EMPTY, events).value.lastSeq == |events|
    ensures forall i :: 0 <= i < |events| ==> events[i].seqNo == i + 1
  {
    hide R.Handle;
    if events != [] { SeqNumbers(events[..|events| - 1]); }
  }

  lemma {:induction false} FoldHasNoSystem(events: seq<Event>, through: int)
    requires FoldEvents(events, through).Ok?
    ensures C.NoSystem(FoldEvents(events, through).value.messages)
  {
    if events != [] { FoldHasNoSystem(events[..|events| - 1], through); }
  }

  lemma NothingTracks()
    ensures Tracks(EMPTY.calls, NOTHING)
  {
  }

  lemma StepTracks(s: State, e: Event, t: Tracker)
    requires I.Inv(s) && Tracks(s.calls, t) && FactOk(s, e.fact) && R.Step(s, e).Ok?
    ensures ProjectFact(t, e.seqNo, e.fact).Ok? && Tracks(R.Step(s, e).value.calls, ProjectFact(t, e.seqNo, e.fact).value.0)
  {
    hide R.Step, I.Inv, FactOk, ProjectFact, Tracks;
    StepMoves(s, e, t, C.Scanner(t.byId.Keys, {}, true, true));
  }

  /** Up to the cut nothing is kept, and the tracker follows the call table. */
  lemma {:induction false} BeforeCut(events: seq<Event>, through: nat)
    requires R.Replay(EMPTY, events).Ok? && FactsOk(events) && |events| <= through
    ensures FoldEvents(events, through).Ok?
    ensures FoldEvents(events, through).value.messages == []
    ensures Tracks(R.Replay(EMPTY, events).value.calls, FoldEvents(events, through).value.tracker)
  {
    hide R.Step, I.Inv, FactOk, ProjectFact, Tracks;
    if events == [] {
      NothingTracks();
    } else {
      var front := events[..|events| - 1];
      Unfold(EMPTY, events);
      FactsOkPrefix(events, |front|);
      BeforeCut(front, through);
      SeqNumbers(events);
      Runs.ReachableInv(front);
      hide R.Replay;
      StepTracks(R.Replay(EMPTY, front).value, events[|front|], FoldEvents(front, through).value.tracker);
    }
  }

  /** After the cut the kept messages are a conversation whose pending ids are the tracked ones. */
  lemma {:induction false} AfterCut(events: seq<Event>, through: nat)
    requires R.Replay(EMPTY, events).Ok? && FactsOk(events) && through <= |events|
    requires R.Replay(EMPTY, events[..through]).Ok? && !R.Unsettled(R.Replay(EMPTY, events[..through]).value)
    ensures FoldEvents(events, through).Ok?
    ensures var fold := FoldEvents(events, through).value;
            C.Scan(C.START, fold.messages).Ok?
            && InStep(R.Replay(EMPTY, events).value.calls, fold.tracker, C.Scan(C.START, fold.messages).value)
  {
    hide I.Inv, R.Step, FactOk, C.ScanMessage;
    if |events| == through {
      assert events[..through] == events;
      BeforeCut(events, through);
      var s, t := R.Replay(EMPTY, events).value, FoldEvents(events, through).value.tracker;
      NothingPending(s.calls, t, C.Scanner(t.byId.Keys, {}, true, true));
    } else {
      var front := events[..|events| - 1];
      Unfold(EMPTY, events);
      FactsOkPrefix(events, |front|);
      assert front[..through] == events[..through];
      AfterCut(front, through);
      SeqNumbers(events);
      var s, fold := R.Replay(EMPTY, front).value, FoldEvents(front, through).value;
      var v := C.Scan(C.START, fold.messages).value;
      Runs.ReachableInv(front);
      StepMoves(s, events[|front|], fold.tracker, v);
      var p := ProjectFact(fold.tracker, events[|front|].seqNo, events[|front|].fact).value;
      if p.1.Some? { C.ScanExtend(C.START, fold.messages, p.1.value); }
    }
  }

  // ----- A legal checkpoint cuts between batches -----

  lemma {:induction false} CheckpointMeaning(events: seq<Event>)
    requires R.Replay(EMPTY, events).Ok? && LatestCheckpoint(events).Some?
    ensures var cut := LatestCheckpoint(events).value;
            && 1 <= cut.seqNo <= |events| && 0 <= cut.throughSeq < cut.seqNo
            && C.Valid(cut.replacement) && C.NoSystem(cut.replacement)
            && R.Replay(EMPTY, events[..cut.seqNo - 1]).Ok?
            && !R.Unsettled(R.Replay(EMPTY, events[..cut.seqNo - 1]).value)
            && !R.Straddles(R.Replay(EMPTY, events[..cut.seqNo - 1]).value, cut.throughSeq)
  {
    var n := |events| - 1;
    Unfold(EMPTY, events);
    SeqNumbers(events);
    if events[n].fact.CompactionCheckpoint? {
      hide R.Replay;
      CheckpointAccepted(R.Replay(EMPTY, events[..n]).value, events[n]);
    } else {
      hide R.Step, C.Valid, R.Unsettled, R.Straddles;
      CheckpointMeaning(events[..n]);
      var cut := LatestCheckpoint(events).value;
      assert events[..n][..cut.seqNo - 1] == events[..cut.seqNo - 1];
    }
  }

  /** What the reducer demands of a checkpoint. */
  lemma CheckpointAccepted(s: State, e: Event)
    requires e.fact.CompactionCheckpoint? && R.Step(s, e).Ok?
    ensures 0 <= e.fact.throughSeq < e.seqNo && C.Valid(e.fact.replacement) && C.NoSystem(e.fact.replacement)
    ensures !R.Unsettled(s) && !R.Straddles(s, e.fact.throughSeq)
  {
    hide R.HandleCallFact, R.HandleGraphFact, R.HandleTurnFact, C.Valid, C.NoSystem, R.Unsettled, R.Straddles, R.Blank;
  }

  /** A call that is unsettled at the cut and settled by the end of the log straddles the cut. */
  lemma CutIsSettled(events: seq<Event>, through: nat)
    requires R.Replay(EMPTY, events).Ok? && through <= |events|
    requires !R.Unsettled(R.Replay(EMPTY, events).value)
    ensures R.Replay(EMPTY, events[..through]).Ok?
    ensures R.Unsettled(R.Replay(EMPTY, events[..through]).value) ==> R.Straddles(R.Replay(EMPTY, events).value, through)
  {
    hide R.Step, I.GraphInv, I.BlockOk, I.CallsOk, I.ListsExactly, I.TurnsOk, I.IntentOk;
    var front, back := events[..through], events[through..];
    assert events == front + back;
    R.ReplayConcat(EMPTY, front, back);
    var s, t := R.Replay(EMPTY, front).value, R.Replay(EMPTY, events).value;
    Runs.ReachableInv(front);
    SeqNumbers(front);
    Runs.RunKeeps(s, back);
    if R.Unsettled(s) {
      var k :| k in s.calls && s.calls[k].status.IsUnsettled();
      assert t.calls[k].requestedSeq <= through < t.calls[k].finishedSeq.value;
    }
  }

  /**
   Every accepted log that is settled and rightly tagged projects to a valid conversation,
   also when the latest checkpoint replaces a prefix.
   */
  lemma ProjectionSucceeds(events: seq<Event>, s: State, system: string)
    requires R.Replay(EMPTY, events) == Ok(s) && Settled(s) && FactsOk(events)
    ensures Project(events, s, system).Ok?
    ensures C.Valid(Project(events, s, system).value)
  {
    var cut := LatestCheckpoint(events);
    var through := if cut.Some? then cut.value.throughSeq else 0;
    var baseline := if cut.Some? then cut.value.replacement else [];
    CutHolds(events);
    var fold := SettledSuffix(events, s, through);
    FoldHasNoSystem(events, through);
    hide R.Replay, C.Valid, FactsOk, FoldEvents;
    ClosedPiecesJoin(system, baseline, fold.messages);
    assert !R.Unknowns(s);
  }

  /** The latest checkpoint, or the beginning, is a place where nothing is unsettled. */
  lemma CutHolds(events: seq<Event>)
    requires R.Replay(EMPTY, events).Ok?
    ensures var cut := LatestCheckpoint(events);
            var through := if cut.Some? then cut.value.throughSeq else 0;
            && 0 <= through <= |events| && (cut.Some? ==> through < cut.value.seqNo)
            && R.Replay(EMPTY, events[..through]).Ok? && !R.Unsettled(R.Replay(EMPTY, events[..through]).value)
            && C.Valid(if cut.Some? then cut.value.replacement else []) && C.NoSystem(if cut.Some? then cut.value.replacement else [])
  {
    hide R.Replay, C.Valid, R.Unsettled, R.Straddles, LatestCheckpoint;
    var cut := LatestCheckpoint(events);
    if cut.Some? {
      CheckpointMeaning(events);
      CutIsSettled(events[..cut.value.seqNo - 1], cut.value.throughSeq);
      assert events[..cut.value.seqNo - 1][..cut.value.throughSeq] == events[..cut.value.throughSeq];
    } else {
      assert events[..0] == [];
      NothingIsSettled();
    }
  }

  lemma NothingIsSettled()
    ensures R.Replay(EMPTY, []).Ok? && !R.Unsettled(R.Replay(EMPTY, []).value) && C.Valid([])
  {
  }

  /** What is kept after a settled cut of a settled session is a closed conversation. */
  lemma SettledSuffix(events: seq<Event>, s: State, through: nat) returns (fold: Fold)
    requires R.Replay(EMPTY, events) == Ok(s) && !R.Unsettled(s) && FactsOk(events) && through <= |events|
    requires R.Replay(EMPTY, events[..through]).Ok? && !R.Unsettled(R.Replay(EMPTY, events[..through]).value)
    ensures FoldEvents(events, through) == Ok(fold) && C.Valid(fold.messages)
  {
    hide R.Replay, FactsOk, FoldEvents;
    AfterCut(events, through);
    fold := FoldEvents(events, through).value;
    NothingPending(s.calls, fold.tracker, C.Scan(C.START, fold.messages).value);
  }

  lemma ClosedPiecesJoin(system: string, baseline: seq<Message>, suffix: seq<Message>)
    requires C.Valid(baseline) && C.NoSystem(baseline) && C.Valid(suffix) && C.NoSystem(suffix)
    ensures C.Valid([System(system)] + baseline + suffix)
  {
    C.ScanOne(C.START, System(system));
    var v := C.START.(systemSeen := true);
    C.ScanConcat(C.START, [System(system)], baseline);
    C.ScanAfterClosed(C.START, v, baseline);
    var w := C.Scan(v, baseline).value;
    C.ScanConcat(C.START, [System(system)] + baseline, suffix);
    C.ScanAfterClosed(C.START, w, suffix);
  }
}
