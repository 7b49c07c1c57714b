/**
 Where undo falls short, with inputs: an empty file of others that it takes for its own reservation, and a file whose
 mode was changed from outside between two writes of the turn.
 */
module UndoFailures {
  import opened Domain
  import opened UndoFiles
  import opened UndoRuns

  // ----- A file taken for a reservation -----

  /**
   Alone on the directory, undo removes a file that was found under the quarantine name and looks like a reservation
   exactly when it undoes the turn at all.
   */
  method TakesReservation(specs: seq<Snapshot>, max: nat, dirs: Dirs, k: nat) returns (final: Dirs)
    requires AllRecoverable(specs, dirs) && k < |specs| && At(dirs[k], Quarantine) == Some(RESERVATION)
    requires After(specs[k]) != RESERVATION
    ensures |final| == |specs| && AllOk(final)
    ensures Quarantine !in final[k].names <==> !AnyRejected(specs, max, dirs)
    ensures Before(specs[k]) != Some(RESERVATION) ==>
              (Safe(final[k], dirs[k].names[Quarantine], RESERVATION) <==> AnyRejected(specs, max, dirs))
    ensures dirs[k].names[Quarantine] in FoundForeign(specs[k], dirs[k])
  {
    var disk := new Disk(specs, max, false, dirs);
    hide Recoverable, Told, AnyRejected, Careful, NothingLost, StateAfter, Kept;
    var status, _ := disk.UndoTurn();
    final := disk.dirs;
  }

  const WRITTEN := Snapshot(true, Some("old"), Some(420), Some("new"), Some(420))
  const BESIDE_EMPTY := Dir(map[Target := 0, Quarantine := 1], map[0 := File("new", 420), 1 := RESERVATION], 2)

  /** An empty file of others under the quarantine name, beside the turn's write: undo succeeds, and the file is gone. */
  method EmptyFileIsTaken() returns (status: UndoStatus, final: Dirs)
    ensures status.UndoSucceeded? && |final| == 1 && !Safe(final[0], 1, RESERVATION)
    ensures 1 in FoundForeign(WRITTEN, BESIDE_EMPTY) && DirOk(BESIDE_EMPTY) && BESIDE_EMPTY.files[1] == RESERVATION
  {
    assert "new" != [] && "old" != [];
    status, final := UndoAfterCrashes([WRITTEN], 100, [BESIDE_EMPTY], []);
  }

  // ----- A mode changed from outside -----

  /** What happens to one file during a turn: managed writes, and what others make of it. */
  datatype Deed = Write(bytes: string) | Outside(file: Option<File>)

  /** The file, and the turn's snapshot of it. */
  datatype Managed = Managed(file: Option<File>, snapshot: Option<Snapshot>)

  /** A write keeps the mode of the file that it replaces; the first one also records what it replaces. */
  function Done(m: Managed, deed: Deed): Managed {
    match deed
    case Outside(file) => m.(file := file)
    case Write(bytes) =>
      var mode := if m.file.Some? then m.file.value.mode else 420;
      var baseline :=
        if m.snapshot.Some? then m.snapshot.value
        else if m.file.Some? then Snapshot(true, Some(m.file.value.bytes), Some(m.file.value.mode), None, None)
        else Snapshot(false, Some([]), None, None, None);
      Managed(Some(File(bytes, mode)), Some(baseline.(afterBytes := Some(bytes), afterMode := Some(mode))))
  }

  function AllDone(m: Managed, deeds: seq<Deed>): Managed {
    if deeds == [] then m else Done(AllDone(m, deeds[..|deeds| - 1]), deeds[|deeds| - 1])
  }

  /** The turn has changed the mode of the file and nothing else. */
  predicate PureModeChange(s: Snapshot) {
    s.existedBefore && s.beforeBytes == s.afterBytes && s.beforeMode != s.afterMode
  }

  /** What a snapshot and a file mean for each other while nobody else writes. */
  predicate Undisturbed(file: Option<File>, m: Managed) {
    match m.snapshot
    case None => m.file == file
    case Some(s) =>
      && Complete(s) && m.file == Some(After(s)) && Before(s) == file
      && (file.Some? ==> s.afterMode == s.beforeMode)
  }

  lemma {:induction false} WritesKeepMode(file: Option<File>, deeds: seq<Deed>)
    requires forall i :: 0 <= i < |deeds| ==> deeds[i].Write?
    ensures Undisturbed(file, AllDone(Managed(file, None), deeds))
  {
    if deeds != [] { WritesKeepMode(file, deeds[..|deeds| - 1]); }
  }

  lemma {:induction false} SnapshotsComplete(file: Option<File>, deeds: seq<Deed>)
    ensures var m := AllDone(Managed(file, None), deeds); m.snapshot.Some? ==> Complete(m.snapshot.value)
  {
    if deeds != [] { SnapshotsComplete(file, deeds[..|deeds| - 1]); }
  }

  /** The written file, with nothing beside it. */
  function JustWritten(s: Snapshot): Dir
    requires Complete(s)
  {
    Dir(map[Target := 0], map[0 := After(s)], 1)
  }

  /**
   Whatever happened during the turn, its last write can be undone exactly when it is small enough and not a pure mode
   change; and without others it never is one.
   */
  lemma TurnsThatCanBeUndone(file: Option<File>, deeds: seq<Deed>, max: nat)
    requires AllDone(Managed(file, None), deeds).snapshot.Some?
    ensures var s := AllDone(Managed(file, None), deeds).snapshot.value;
            && Complete(s)
            && (Judge(s, max, Look(JustWritten(s), max, Quarantine), Look(JustWritten(s), max, Target)) in {Eligible, AlreadyRestored}
                <==> |s.beforeBytes.value| <= max && |s.afterBytes.value| <= max && !PureModeChange(s))
            && ((forall i :: 0 <= i < |deeds| ==> deeds[i].Write?) ==> !PureModeChange(s))
  {
    SnapshotsComplete(file, deeds);
    var s := AllDone(Managed(file, None), deeds).snapshot.value;
    IntactPasses(s, max, JustWritten(s));
    if forall i :: 0 <= i < |deeds| ==> deeds[i].Write? { WritesKeepMode(file, deeds); }
    hide AllDone, Judge;
  }

  const CHANGED := [Write("b"), Outside(Some(File("b", 384))), Write("a")]

  /** Two writes, the second one back to the first content, with a change of mode from outside between them. */
  lemma ModeChangeIsRefused()
    ensures var m := AllDone(Managed(Some(File("a", 420)), None), CHANGED);
            && m.snapshot == Some(Snapshot(true, Some("a"), Some(420), Some("a"), Some(384))) && m.file == Some(After(m.snapshot.value))
            && Judge(m.snapshot.value, 100, Look(JustWritten(m.snapshot.value), 100, Quarantine),
                     Look(JustWritten(m.snapshot.value), 100, Target)) == Conflicted
  {
    var start := Managed(Some(File("a", 420)), None);
    assert CHANGED[..1] == [Write("b")] && CHANGED[..2] == [Write("b"), Outside(Some(File("b", 384)))];
    assert AllDone(start, []) == start;
    assert [Write("b")][..0] == [] && CHANGED[..2][..1] == [Write("b")];
    var one := AllDone(start, CHANGED[..1]);
    assert one == Done(start, Write("b"));
    var two := AllDone(start, CHANGED[..2]);
    assert two == Done(one, CHANGED[1]);
    assert AllDone(start, CHANGED) == Done(two, CHANGED[2]);
  }
}
