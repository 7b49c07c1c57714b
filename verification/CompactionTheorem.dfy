/**
 Compaction of a session at a sampling boundary: a second compaction always finds the group boundary that it
 looks for, and the checkpoint is accepted by the reducer and by the projector.
 */
module CompactionTheorem {
  import opened Domain
  import opened Compaction
  import opened Projection
  import opened ProjectionSteps
  import opened ProjectionTheorem
  import R = Reducer
  import I = ReducerInvariant
  import Runs = ReducerRuns
  import Recovery
  import C = Conversation

  /** What the projector puts after the system message: the replacement of the last checkpoint, if any. */
  function Baseline(events: seq<Event>): seq<Message> {
    if LatestCheckpoint(events).Some? then LatestCheckpoint(events).value.replacement else []
  }

  /** The projected conversation begins with the baseline, and the baseline ends where a group ends. */
  lemma ProjectionParts(events: seq<Event>, s: State, system: string) returns (rest: seq<Message>)
    requires R.Replay(EMPTY, events) == Ok(s) && Settled(s) && FactsOk(events)
    ensures Project(events, s, system) == Ok([System(system)] + Baseline(events) + rest)
    ensures C.Valid(Baseline(events)) && C.NoSystem(Baseline(events)) && C.NoSystem(rest) && (rest != [] ==> !rest[0].Tool?)
  {
    ProjectionSucceeds(events, s, system);
    var cut := LatestCheckpoint(events);
    var through := if cut.Some? then cut.value.throughSeq else 0;
    if cut.Some? { CheckpointMeaning(events); }
    rest := FoldEvents(events, through).value.messages;
    FoldHasNoSystem(events, through);
    var head := [System(system)] + Baseline(events);
    assert Project(events, s, system).value == head + rest;
    hide Project, R.Replay, FoldEvents, FactsOk;
    if rest != [] {
      NoOrphan(system, Baseline(events), rest);
    }
  }

  /** After a closed conversation no tool result can follow. */
  lemma NoOrphan(system: string, baseline: seq<Message>, rest: seq<Message>)
    requires C.Valid(baseline) && C.NoSystem(baseline) && C.Valid([System(system)] + baseline + rest) && rest != []
    ensures !rest[0].Tool?
  {
    ClosedPiecesJoin(system, baseline, []);
    var head := [System(system)] + baseline;
    assert head + [] == head;
    assert head + rest == head + [rest[0]] + rest[1..];
    C.ScanConcat(C.START, head + [rest[0]], rest[1..]);
    C.ScanExtend(C.START, head, rest[0]);
  }

  lemma BoundaryAt(system: string, base: seq<Message>, rest: seq<Message>)
    requires C.NoSystem(base) && C.NoSystem(rest) && (rest != [] ==> !rest[0].Tool?)
    ensures SkipGroups(GroupsOf(Body([System(system)] + base + rest)), |base|) == Ok(GroupsOf(rest))
  {
    hide Flatten, GroupsOf, SkipGroups;
    assert Body([System(system)] + base + rest) == base + rest;
    GroupsDistribute(base, rest);
    GroupsPartition(base);
    SkipExactly(GroupsOf(base), GroupsOf(rest));
  }

  /** A compaction that leaves out what the last checkpoint has summarized is never refused for its boundary. */
  lemma BoundaryIsFound(events: seq<Event>, s: State, system: string)
    requires R.Replay(EMPTY, events) == Ok(s) && Settled(s) && FactsOk(events)
    ensures Project(events, s, system).Ok?
    ensures var ms := Project(events, s, system).value;
            && SkipGroups(GroupsOf(Body(ms)), |Baseline(events)|).Ok? && |ms| > |Baseline(events)|
            && Flatten(SkipGroups(GroupsOf(Body(ms)), |Baseline(events)|).value) == ms[1 + |Baseline(events)|..]
  {
    var rest := ProjectionParts(events, s, system);
    hide Project, R.Replay, FactsOk, Settled, Flatten, GroupsOf, SkipGroups, Baseline, C.Valid;
    BoundaryAt(system, Baseline(events), rest);
    GroupsPartition(rest);
    assert ([System(system)] + Baseline(events) + rest)[1 + |Baseline(events)|..] == rest;
  }

  /** What `finalize_checkpoint` checks before the checkpoint is written. */
  method Finalize(draft: Draft, summary: string) returns (r: Result<Fact, Refused>)
    ensures r.Ok? <==> !R.Blank(summary) && C.NoSystem(draft.replacement) && C.Valid(draft.replacement)
    ensures r.Ok? ==> r.value == CompactionCheckpoint(draft.throughSeq, summary, draft.replacement)
  {
    if R.Blank(summary) { return Err(Refused.EmptySummary); }
    if !C.NoSystem(draft.replacement) { return Err(SystemInReplacement); }
    var fault := C.Validate(draft.replacement);
    if fault.Some? { return Err(NotValid(fault.value)); }
    return Ok(CompactionCheckpoint(draft.throughSeq, summary, draft.replacement));
  }

  /** The reducer takes a checkpoint of a settled session that reaches to its last event. */
  lemma ReducerTakesCheckpoint(s: State, summary: string, replacement: seq<Message>)
    requires I.Inv(s) && s.created && Settled(s) && !R.Blank(summary) && C.Valid(replacement) && C.NoSystem(replacement)
    ensures var fact := CompactionCheckpoint(s.lastSeq, summary, replacement);
            Recovery.Append(s, fact) == Ok(s.(checkpoint := Some(Checkpoint(s.lastSeq + 1, s.lastSeq, summary, replacement)), lastSeq := s.lastSeq + 1))
  {
    assert I.SeqsOk(s.calls, s.lastSeq);
    hide I.Inv, C.Valid, R.Blank;
    assert !R.Straddles(s, s.lastSeq);
  }

  /**
   The checkpoint of a compaction is accepted: the reducer takes it, and the projector then gives a valid
   conversation that begins with the replacement.
   */
  lemma CheckpointAccepted(events: seq<Event>, s: State, system: string, tail: nat, draft: Draft, summary: string)
    requires R.Replay(EMPTY, events) == Ok(s) && Settled(s) && FactsOk(events) && s.created && !R.Blank(summary)
    requires Project(events, s, system).Ok?
    requires DraftOf(Project(events, s, system).value, s.lastSeq, tail, |Baseline(events)|, draft)
    ensures var fact := CompactionCheckpoint(s.lastSeq, summary, draft.replacement);
            var u := Recovery.Append(s, fact);
            && u.Ok? && Project(events + [Event(s.lastSeq + 1, fact)], u.value, system).Ok?
            && Project(events + [Event(s.lastSeq + 1, fact)], u.value, system).value == [System(system)] + draft.replacement
  {
    hide R.Step, R.Replay, I.Inv, FactsOk, C.Valid, Settled, Project, R.Blank, FoldEvents;
    var e := Event(s.lastSeq + 1, CompactionCheckpoint(s.lastSeq, summary, draft.replacement));
    Runs.ReachableInv(events);
    ReducerTakesCheckpoint(s, summary, draft.replacement);
    var u := Recovery.Append(s, e.fact).value;
    ReplayOneMore(events, s, e, u);
    StaysSettled(s, u);
    FactsOkGrows(events, e);
    ProjectionSucceeds(events + [e], u, system);
    NothingAfter(events, s, e);
    OnlyReplacement(events, e, u, s.lastSeq, system);
  }

  lemma ReplayOneMore(events: seq<Event>, s: State, e: Event, u: State)
    requires R.Replay(EMPTY, events) == Ok(s) && R.Step(s, e) == Ok(u)
    ensures R.Replay(EMPTY, events + [e]) == Ok(u)
  {
    hide R.Step;
    assert (events + [e])[..|events|] == events;
  }

  lemma StaysSettled(s: State, u: State)
    requires Settled(s) && u.calls == s.calls && u.intent == s.intent && u.blocked == s.blocked
    ensures Settled(u)
  {
  }

  /** With nothing after the cut, the projection is the system message and the replacement. */
  lemma OnlyReplacement(events: seq<Event>, e: Event, u: State, through: int, system: string)
    requires e.fact.CompactionCheckpoint? && e.fact.throughSeq == through && Project(events + [e], u, system).Ok?
    requires FoldEvents(events + [e], through).Ok? && FoldEvents(events + [e], through).value.messages == []
    ensures Project(events + [e], u, system).value == [System(system)] + e.fact.replacement
  {
    hide FoldEvents, R.Replay, C.Valid;
    assert LatestCheckpoint(events + [e]) == Some(Checkpoint(e.seqNo, through, e.fact.summary, e.fact.replacement));
    assert [System(system)] + e.fact.replacement + [] == [System(system)] + e.fact.replacement;
  }

  lemma FactsOkGrows(events: seq<Event>, e: Event)
    requires FactsOk(events) && e.fact.CompactionCheckpoint?
    ensures FactsOk(events + [e])
  {
    var more := events + [e];
    forall i | 0 <= i < |more| && R.Replay(EMPTY, more[..i]).Ok? ensures FactOk(R.Replay(EMPTY, more[..i]).value, more[i].fact) {
      if i < |events| {
        assert more[..i] == events[..i] && more[i] == events[i];
      }
    }
  }

  /** No message lies after a checkpoint that reaches to the end. */
  lemma NothingAfter(events: seq<Event>, s: State, e: Event)
    requires R.Replay(EMPTY, events) == Ok(s) && FactsOk(events) && e.fact.CompactionCheckpoint?
    ensures FoldEvents(events + [e], s.lastSeq).Ok? && FoldEvents(events + [e], s.lastSeq).value.messages == []
  {
    hide R.Replay, FactsOk, Tracks;
    SeqNumbers(events);
    BeforeCut(events, s.lastSeq);
    assert (events + [e])[..|events|] == events;
    var fold := FoldEvents(events, s.lastSeq).value;
    assert ProjectFact(fold.tracker, e.seqNo, e.fact) == Ok((fold.tracker, None));
    hide ProjectFact;
  }
}
