/**
 `ManagedUndo` step by step on a directory per managed file.  Before every step another process may
 create, replace or remove the target name; every state between two steps may be where a crash happens.
 */
module UndoRuns {
  import opened Domain
  import opened UndoFiles

  type Dirs = seq<Dir>

  predicate AllOk(dirs: Dirs) { forall k :: 0 <= k < |dirs| ==> DirOk(dirs[k]) }

  ghost predicate AllRecoverable(specs: seq<Snapshot>, dirs: Dirs) {
    && |dirs| == |specs| && AllOk(dirs)
    && forall k :: 0 <= k < |dirs| ==> Complete(specs[k]) && Recoverable(specs[k], dirs[k])
  }

  /** Content of others that must not get lost: anything but what the turn wrote. */
  predicate Foreign(s: Snapshot, f: File) { !(Complete(s) && f == After(s)) }

  /** Files that others have put under the target name, with their content. */
  type Debts = map<Ino, File>

  /** The file is under the target name or in quarantine, as it was. */
  predicate Safe(d: Dir, i: Ino, file: File) {
    && i in d.files && d.files[i] == file
    && ((Target in d.names && d.names[Target] == i) || (Quarantine in d.names && d.names[Quarantine] == i))
  }

  /** Everything that others put under the target name is still there, or it is in quarantine. */
  predicate Kept(s: Snapshot, d: Dir, owed: Debts) {
    forall i :: i in owed ==> Foreign(s, owed[i]) && Safe(d, i, owed[i])
  }

  /** What another process may do to a directory: anything to the target name, nothing else. */
  ghost predicate Meddled(d: Dir, e: Dir, interference: bool) {
    && DirOk(e) && (!interference ==> e == d)
    && (forall n :: n in d.names && n != Target ==> n in e.names && e.names[n] == d.names[n])
    && (forall n :: n in e.names && n != Target ==> n in d.names)
    && (forall i :: i in d.files ==> i in e.files && e.files[i] == d.files[i])
    && (Target in e.names ==> e.names[Target] !in d.files || (Target in d.names && e.names[Target] == d.names[Target]))
  }

  /** Another process sets the target to a new file, or removes it. */
  function Meddle(d: Dir, f: Option<File>): Dir {
    match f
    case None => Unlinked(d, Target)
    case Some(file) => Created(d, Target, file)
  }

  /** What is owed afterwards: the file that the other process replaced or removed is its own business. */
  function OwedAfter(s: Snapshot, d: Dir, owed: Debts, f: Option<File>): Debts {
    (if Target in d.names then owed - {d.names[Target]} else owed)
    + if f.Some? && Foreign(s, f.value) then map[d.next := f.value] else map[]
  }

  lemma MeddleKeeps(s: Snapshot, d: Dir, owed: Debts, f: Option<File>)
    requires DirOk(d) && Kept(s, d, owed)
    ensures DirOk(Meddle(d, f)) && Meddled(d, Meddle(d, f), true) && Kept(s, Meddle(d, f), OwedAfter(s, d, owed, f))
  {
  }

  lemma MeddleSteps(k: nat, dirs: Dirs, owed: seq<Debts>, f: Option<File>, s: Snapshot)
    requires k < |dirs| == |owed| && DirOk(dirs[k]) && Kept(s, dirs[k], owed[k])
    ensures var d := Meddle(dirs[k], f);
            Stepped(k, dirs, dirs[k := d], owed, owed[k := OwedAfter(s, dirs[k], owed[k], f)], d, true)
  {
    MeddleKeeps(s, dirs[k], owed[k], f);
    hide Kept, Meddled;
  }

  lemma MeddledOn(d: Dir, e: Dir, f: Dir, interference: bool)
    requires Meddled(d, e, interference) && Meddled(e, f, interference)
    ensures Meddled(d, f, interference)
  {
  }

  /** Owed files stay where they are under the target name, or stop being owed. */
  ghost predicate OwedMoves(d: Dir, owed: Debts, e: Dir, owed': Debts) {
    && d.next <= e.next
    && forall i :: i in owed' && i < d.next ==> i in owed && (Target in d.names && d.names[Target] == i ==> Target in e.names && e.names[Target] == i)
  }

  /** What undo may take out of the quarantine: nothing foreign, unless the target has it too or its owner gave it up. */
  ghost predicate MayDrop(s: Snapshot, d: Dir, owed: Debts) {
    && DirOk(d) && At(d, Quarantine).Some?
    && ((Complete(s) && At(d, Quarantine) == Some(After(s))) || LinkedBack(d, owed))
  }

  /** The quarantined file is undo's own, or under the target name as well, or the other process took it away there. */
  ghost predicate LinkedBack(d: Dir, owed: Debts) {
    Quarantine in d.names && (d.names[Quarantine] in owed ==> Target in d.names && d.names[Target] == d.names[Quarantine])
  }

  /** Only one directory changed. */
  ghost predicate Only(k: nat, before: Dirs, now: Dirs) {
    |now| == |before| && forall j :: 0 <= j < |now| && j != k ==> now[j] == before[j]
  }

  /** One step: only this directory changed, first by the others, giving `mid`. */
  ghost predicate Stepped(k: nat, before: Dirs, now: Dirs, owed: seq<Debts>, owed': seq<Debts>, mid: Dir, interference: bool) {
    && Only(k, before, now) && |owed'| == |owed| == |before| && k < |before| && Meddled(before[k], mid, interference)
    && OwedMoves(before[k], owed[k], mid, owed'[k]) && (!interference ==> owed' == owed)
  }

  /** The quarantine name still stands for the same file, or for none. */
  predicate QuarantineStays(d: Dir, e: Dir) {
    if Quarantine in d.names
    then d.names[Quarantine] in d.files && Quarantine in e.names && e.names[Quarantine] == d.names[Quarantine]
         && d.names[Quarantine] in e.files && e.files[d.names[Quarantine]] == d.files[d.names[Quarantine]]
    else Quarantine !in e.names
  }

  /** Every name but the target is as before. */
  ghost predicate OursStay(d: Dir, e: Dir) {
    && QuarantineStays(d, e)
    && forall n :: n in d.names && n != Target ==> n in e.names && e.names[n] == d.names[n]
  }

  /** What a step of the others means for the callers. */
  lemma SteppedStays(k: nat, before: Dirs, now: Dirs, owed: seq<Debts>, owed': seq<Debts>, interference: bool)
    requires AllOk(before) && k < |now| && Stepped(k, before, now, owed, owed', now[k], interference)
    ensures Only(k, before, now) && OursStay(before[k], now[k]) && (!interference ==> now == before)
  {
    assert !interference ==> now[k] == before[k];
    hide OwedMoves;
  }

  lemma NoStep(k: nat, dirs: Dirs, owed: seq<Debts>, interference: bool)
    requires AllOk(dirs) && |owed| == |dirs| && k < |dirs|
    ensures Stepped(k, dirs, dirs, owed, owed, dirs[k], interference)
  {
  }

  lemma SteppedThen(k: nat, before: Dirs, between: Dirs, now: Dirs, owed: seq<Debts>, owed': seq<Debts>, interference: bool)
    requires k < |between| && Stepped(k, before, between, owed, owed', between[k], interference) && Only(k, between, now)
    ensures Stepped(k, before, now, owed, owed', between[k], interference)
  {
    hide Meddled, OwedMoves;
  }

  /** A step without the others is one with them. */
  lemma SteppedLess(k: nat, before: Dirs, now: Dirs, owed: seq<Debts>, owed': seq<Debts>, mid: Dir, quiet: bool, interference: bool)
    requires Stepped(k, before, now, owed, owed', mid, quiet) && (quiet ==> interference)
    ensures Stepped(k, before, now, owed, owed', mid, interference)
  {
    hide OwedMoves;
  }

  lemma SteppedOn(k: nat, dirs: Dirs, owed: seq<Debts>, dirs': Dirs, owed': seq<Debts>,
                  dirs'': Dirs, owed'': seq<Debts>, mid: Dir, interference: bool)
    requires k < |dirs'| && Stepped(k, dirs, dirs', owed, owed', dirs'[k], interference)
    requires Stepped(k, dirs', dirs'', owed', owed'', mid, interference)
    ensures Stepped(k, dirs, dirs'', owed, owed'', mid, interference)
  {
    MeddledOn(dirs[k], dirs'[k], mid, interference);
  }

  lemma MayDropStays(s: Snapshot, d: Dir, owed: Debts, e: Dir, owed': Debts)
    requires DirOk(d) && MayDrop(s, d, owed) && Meddled(d, e, true) && OwedMoves(d, owed, e, owed')
    ensures MayDrop(s, e, owed')
  {
  }

  /** The verified content of the turn may be dropped. */
  lemma DropVerified(s: Snapshot, d: Dir, owed: Debts)
    requires DirOk(d) && Complete(s) && At(d, Quarantine) == Some(After(s))
    ensures MayDrop(s, d, owed)
  {
  }

  /** The quarantine name stands for a file that undo made itself. */
  ghost predicate OwnReservation(d: Dir, owed: Debts) {
    DirOk(d) && At(d, Quarantine) == Some(RESERVATION) && d.names[Quarantine] !in owed
  }

  lemma OwnMayDrop(s: Snapshot, d: Dir, owed: Debts)
    requires OwnReservation(d, owed)
    ensures MayDrop(s, d, owed)
  {
  }

  lemma OwnStays(d: Dir, owed: Debts, e: Dir, owed': Debts)
    requires OwnReservation(d, owed) && Meddled(d, e, true) && OwedMoves(d, owed, e, owed')
    ensures OwnReservation(e, owed')
  {
  }

  lemma OwnIsNew(s: Snapshot, d: Dir, owed: Debts)
    requires DirOk(d) && Kept(s, d, owed) && Quarantine !in d.names
    ensures OwnReservation(Created(d, Quarantine, RESERVATION), owed)
  {
  }

  /** A reservation found and given up is owed no more. */
  lemma ReservationGoes(s: Snapshot, d: Dir, owed: Debts)
    requires DirOk(d) && Kept(s, d, owed) && Quarantine in d.names
    ensures DirOk(Unlinked(d, Quarantine)) && Kept(s, Unlinked(d, Quarantine), owed - {d.names[Quarantine]})
  {
  }

  lemma DropKeeps(s: Snapshot, d: Dir, owed: Debts)
    requires DirOk(d) && Kept(s, d, owed) && MayDrop(s, d, owed)
    ensures DirOk(Unlinked(d, Quarantine)) && Kept(s, Unlinked(d, Quarantine), owed)
  {
  }

  lemma CreateKeeps(s: Snapshot, d: Dir, owed: Debts, n: Name, f: File)
    requires DirOk(d) && Kept(s, d, owed) && n != Target && n !in d.names && (n.Temp? ==> n.suffix <= d.next)
    ensures DirOk(Created(d, n, f)) && Kept(s, Created(d, n, f), owed)
  {
  }

  /** The reservation that a rename replaces is nobody's. */
  lemma RenameKeeps(s: Snapshot, d: Dir, owed: Debts)
    requires Kept(s, d, owed) && Target in d.names && OwnReservation(d, owed)
    ensures DirOk(Renamed(d, Target, Quarantine)) && Kept(s, Renamed(d, Target, Quarantine), owed)
  {
  }

  lemma LinkKeeps(s: Snapshot, d: Dir, owed: Debts, from: Name)
    requires DirOk(d) && Kept(s, d, owed) && from in d.names && Target !in d.names
    ensures DirOk(Linked(d, from, Target)) && Kept(s, Linked(d, from, Target), owed)
  {
  }

  lemma TempIsApart(s: Snapshot, d: Dir, temp: Name, f: File, interference: bool)
    requires DirOk(d) && temp.Temp? && temp !in d.names && temp.suffix <= d.next
    requires !interference ==> Complete(s) && Recoverable(s, d)
    ensures DirOk(Created(d, temp, f)) && (!interference ==> Recoverable(s, Created(d, temp, f)))
  {
  }

  lemma TempKeeps(s: Snapshot, d: Dir, owed: Debts, temp: Name, f: File, interference: bool)
    requires DirOk(d) && Kept(s, d, owed) && temp.Temp? && temp !in d.names && temp.suffix <= d.next
    requires !interference ==> Complete(s) && Recoverable(s, d)
    ensures DirOk(Created(d, temp, f)) && Kept(s, Created(d, temp, f), owed)
    ensures !interference ==> Recoverable(s, Created(d, temp, f))
  {
    CreateKeeps(s, d, owed, temp, f);
    TempIsApart(s, d, temp, f, interference);
    hide Kept, Recoverable;
  }

  // ----- The moves of both sides -----

  /** What happens to one directory: what others do to the target name, and the operations of undo. */
  datatype Op =
    | Others(file: Option<File>)
    | Reserve
    | MoveAside
    | PutBack
    | DropQuarantine
    | DropReservation
    | NewTemp(file_: File)
    | FillTemp(temp: Name, file_: File)
    | InstallTemp(temp: Name)
    | DropTemp(temp: Name)

  datatype Move = Move(k: nat, op: Op)

  function Applied(d: Dir, op: Op): Dir {
    match op
    case Others(file) => Meddle(d, file)
    case Reserve => Created(d, Quarantine, RESERVATION)
    case MoveAside => if Target in d.names then Renamed(d, Target, Quarantine) else d
    case PutBack => if Quarantine in d.names then Linked(d, Quarantine, Target) else d
    case DropQuarantine => Unlinked(d, Quarantine)
    case DropReservation => Unlinked(d, Quarantine)
    case NewTemp(file) => Created(d, Temp(d.next), file)
    case FillTemp(temp, file) => if temp in d.names then Filled(d, temp, file) else d
    case InstallTemp(temp) => if temp in d.names then Linked(d, temp, Target) else d
    case DropTemp(temp) => Unlinked(d, temp)
  }

  /** Where the moves lead. */
  function StateAfter(first: Dirs, moves: seq<Move>): (dirs: Dirs)
    ensures |dirs| == |first|
  {
    if moves == [] then first
    else
      var before, m := StateAfter(first, moves[..|moves| - 1]), moves[|moves| - 1];
      if m.k < |before| then before[m.k := Applied(before[m.k], m.op)] else before
  }

  /** What of others is in the way when undo starts. */
  function FoundForeign(s: Snapshot, d: Dir): Debts {
    map i | i in d.files && Foreign(s, d.files[i]) && Safe(d, i, d.files[i]) :: d.files[i]
  }

  /** What others have put under the names by these moves, and not taken away or replaced themselves. */
  function OwedBy(specs: seq<Snapshot>, first: Dirs, moves: seq<Move>): (owed: seq<Debts>)
    requires |first| == |specs|
    ensures |owed| == |specs|
  {
    if moves == [] then seq(|specs|, k requires 0 <= k < |specs| => FoundForeign(specs[k], first[k]))
    else
      var front, m := moves[..|moves| - 1], moves[|moves| - 1];
      var before := OwedBy(specs, first, front);
      if m.k < |specs| then before[m.k := OwedStep(specs[m.k], StateAfter(first, front)[m.k], before[m.k], m.op)] else before
  }

  /** What a move does to the debts: others install and take back, and a reservation that was found is given up. */
  function OwedStep(s: Snapshot, d: Dir, owed: Debts, op: Op): Debts {
    match op
    case Others(file) => OwedAfter(s, d, owed, file)
    case DropReservation => if Quarantine in d.names then owed - {d.names[Quarantine]} else owed
    case _ => owed
  }

  /** At some time this was under the target name. */
  ghost predicate TargetWas(first: Dirs, moves: seq<Move>, k: nat, what: Option<File>)
    requires k < |first|
  {
    exists j :: 0 <= j <= |moves| && HasTarget(StateAfter(first, moves[..j])[k], what)
  }

  predicate HasTarget(d: Dir, what: Option<File>) { DirOk(d) && At(d, Target) == what }

  /** At some time the turn's write was under the target name. */
  ghost predicate WriteSeen(s: Snapshot, first: Dirs, moves: seq<Move>, k: nat)
    requires k < |first|
  {
    Complete(s) && TargetWas(first, moves, k, Some(After(s)))
  }

  /** At some time the target was at its baseline. */
  ghost predicate BaselineSeen(s: Snapshot, first: Dirs, moves: seq<Move>, k: nat)
    requires k < |first|
  {
    Complete(s) && TargetWas(first, moves, k, Before(s))
  }

  /** What undo may take for a reservation of its own: a file that looks like one, found where one belongs. */
  ghost predicate MayGiveUp(s: Snapshot, first: Dirs, moves: seq<Move>, k: nat)
    requires k < |first|
  {
    var d := StateAfter(first, moves)[k];
    DirOk(d) && At(d, Quarantine) == Some(RESERVATION) && QuarantineStays(first[k], d) && WriteSeen(s, first, moves, k)
  }

  /** Nothing is removed from quarantine that may not be. */
  ghost predicate Careful(specs: seq<Snapshot>, first: Dirs, moves: seq<Move>)
    requires |first| == |specs|
  {
    forall j :: 0 <= j < |moves| && moves[j].k < |specs| ==> RightDrop(specs, first, moves[..j], moves[j])
  }

  ghost predicate RightDrop(specs: seq<Snapshot>, first: Dirs, moves: seq<Move>, m: Move)
    requires |first| == |specs| && m.k < |specs|
  {
    && (m.op.DropQuarantine? ==> MayDrop(specs[m.k], StateAfter(first, moves)[m.k], OwedBy(specs, first, moves)[m.k]))
    && (m.op.DropReservation? ==> MayGiveUp(specs[m.k], first, moves, m.k))
  }

  /** The fields are what the moves make of the first state; the history is every state on the way. */
  ghost predicate Told(specs: seq<Snapshot>, first: Dirs, moves: seq<Move>, history: seq<Dirs>, dirs: Dirs, owed: seq<Debts>) {
    && |first| == |specs| && dirs == StateAfter(first, moves) && owed == OwedBy(specs, first, moves) && Careful(specs, first, moves)
    && |history| == |moves| + 1 && forall j :: 0 <= j < |history| ==> history[j] == StateAfter(first, moves[..j])
  }

  lemma ToldFirst(specs: seq<Snapshot>, first: Dirs)
    requires |first| == |specs|
    ensures Told(specs, first, [], [first], first, seq(|specs|, k requires 0 <= k < |specs| => FoundForeign(specs[k], first[k])))
  {
  }

  lemma ToldMore(specs: seq<Snapshot>, first: Dirs, moves: seq<Move>, history: seq<Dirs>, dirs: Dirs, owed: seq<Debts>, m: Move)
    requires Told(specs, first, moves, history, dirs, owed) && m.k < |specs| && |owed| == |dirs| == |specs|
    requires RightDrop(specs, first, moves, m)
    ensures var dirs' := dirs[m.k := Applied(dirs[m.k], m.op)];
            Told(specs, first, moves + [m], history + [dirs'], dirs', owed[m.k := OwedStep(specs[m.k], dirs[m.k], owed[m.k], m.op)])
  {
    hide RightDrop, Applied, OwedStep, Careful, StateAfter, OwedBy;
    OneMoreState(first, moves, m);
    OneMoreDebt(specs, first, moves, m);
    MoreCareful(specs, first, moves, m);
    var more := moves + [m];
    var dirs' := dirs[m.k := Applied(dirs[m.k], m.op)];
    forall j | 0 <= j < |history| + 1 ensures (history + [dirs'])[j] == StateAfter(first, more[..j]) {
      if j < |history| {
        assert more[..j] == moves[..j];
      } else {
        assert more[..j] == more;
      }
    }
  }

  lemma OneMoreState(first: Dirs, moves: seq<Move>, m: Move)
    requires m.k < |first|
    ensures StateAfter(first, moves + [m]) == StateAfter(first, moves)[m.k := Applied(StateAfter(first, moves)[m.k], m.op)]
  {
    hide Applied;
    assert (moves + [m])[..|moves|] == moves;
  }

  lemma OneMoreDebt(specs: seq<Snapshot>, first: Dirs, moves: seq<Move>, m: Move)
    requires |first| == |specs| && m.k < |specs|
    ensures OwedBy(specs, first, moves + [m]) ==
            OwedBy(specs, first, moves)[m.k := OwedStep(specs[m.k], StateAfter(first, moves)[m.k], OwedBy(specs, first, moves)[m.k], m.op)]
  {
    hide OwedStep, StateAfter;
    assert (moves + [m])[..|moves|] == moves;
  }

  lemma MoreCareful(specs: seq<Snapshot>, first: Dirs, moves: seq<Move>, m: Move)
    requires |first| == |specs| && Careful(specs, first, moves) && m.k < |specs| && RightDrop(specs, first, moves, m)
    ensures Careful(specs, first, moves + [m])
  {
    hide RightDrop;
    var more := moves + [m];
    forall j | 0 <= j < |more| && more[j].k < |specs| ensures RightDrop(specs, first, more[..j], more[j]) {
      assert more[..j] == moves[..j];
      assert moves[..|moves|] == moves;
    }
  }

  lemma FrontCareful(specs: seq<Snapshot>, first: Dirs, moves: seq<Move>)
    requires |first| == |specs| && Careful(specs, first, moves) && moves != []
    ensures Careful(specs, first, moves[..|moves| - 1])
    ensures moves[|moves| - 1].k < |specs| ==> RightDrop(specs, first, moves[..|moves| - 1], moves[|moves| - 1])
  {
    hide RightDrop;
    var front := moves[..|moves| - 1];
    forall j | 0 <= j < |front| && front[j].k < |specs| ensures RightDrop(specs, first, front[..j], front[j]) {
      assert front[..j] == moves[..j] && front[j] == moves[j];
    }
  }

  /** From move `j` on, the others take the file away from the target name or replace it there. */
  ghost predicate TakenBack(first: Dirs, moves: seq<Move>, k: nat, i: Ino, j: nat)
    requires k < |first|
  {
    exists l :: j <= l < |moves| && Takes(first, moves, k, i, l)
  }

  ghost predicate Takes(first: Dirs, moves: seq<Move>, k: nat, i: Ino, l: nat)
    requires k < |first| && l < |moves|
  {
    && moves[l].k == k && moves[l].op.Others?
    && var d := StateAfter(first, moves[..l])[k]; Target in d.names && d.names[Target] == i
  }

  /** Move `j` puts content of others under a name. */
  predicate Installs(specs: seq<Snapshot>, moves: seq<Move>, j: nat)
    requires j < |moves|
  {
    moves[j].k < |specs| && moves[j].op.Others? && moves[j].op.file.Some? && Foreign(specs[moves[j].k], moves[j].op.file.value)
  }

  /** The file was found under the quarantine name, looks like a reservation, and the turn's write was in its place. */
  ghost predicate Mistaken(s: Snapshot, first: Dirs, moves: seq<Move>, k: nat, i: Ino)
    requires k < |first|
  {
    && Quarantine in first[k].names && first[k].names[Quarantine] == i && i in first[k].files && first[k].files[i] == RESERVATION
    && WriteSeen(s, first, moves, k)
  }

  /**
   Nothing of others is lost: what they install, and what was found in the way, is at the end under the target name
   or in quarantine with the same content, unless they took it away or replaced it themselves. Only an empty file found
   in quarantine may be mistaken for a reservation, while the turn's write is under the target name.
   */
  ghost predicate NothingLost(specs: seq<Snapshot>, first: Dirs, moves: seq<Move>)
    requires |first| == |specs|
  {
    && (forall j :: 0 <= j < |moves| && Installs(specs, moves, j) ==>
          var k := moves[j].k;
          var i := StateAfter(first, moves[..j])[k].next;
          TakenBack(first, moves, k, i, j + 1) || Safe(StateAfter(first, moves)[k], i, moves[j].op.file.value))
    && forall k, i :: 0 <= k < |specs| && i in FoundForeign(specs[k], first[k]) ==>
         TakenBack(first, moves, k, i, 0) || Safe(StateAfter(first, moves)[k], i, FoundForeign(specs[k], first[k])[i])
         || Mistaken(specs[k], first, moves, k, i)
  }

  lemma TargetWasLater(first: Dirs, moves: seq<Move>, more: seq<Move>, k: nat, what: Option<File>)
    requires k < |first| && moves <= more && TargetWas(first, moves, k, what)
    ensures TargetWas(first, more, k, what)
  {
    hide StateAfter, HasTarget;
    var j :| 0 <= j <= |moves| && HasTarget(StateAfter(first, moves[..j])[k], what);
    assert more[..j] == moves[..j];
  }

  lemma WriteSeenLater(s: Snapshot, first: Dirs, moves: seq<Move>, more: seq<Move>, k: nat)
    requires k < |first| && moves <= more && WriteSeen(s, first, moves, k)
    ensures WriteSeen(s, first, more, k)
  {
    TargetWasLater(first, moves, more, k, Some(After(s)));
    hide TargetWas;
  }

  /** Only such a file is given up. */
  lemma GivenUpMistaken(specs: seq<Snapshot>, first: Dirs, moves: seq<Move>, m: Move)
    requires |first| == |specs| && m.k < |specs| && RightDrop(specs, first, moves, m) && m.op.DropReservation?
    ensures var d := StateAfter(first, moves)[m.k];
            Quarantine in d.names && Mistaken(specs[m.k], first, moves, m.k, d.names[Quarantine])
  {
    hide StateAfter, WriteSeen, OwedBy;
  }

  /** A file that came later is not. */
  lemma {:induction false} LaterNotMistaken(s: Snapshot, first: Dirs, moves: seq<Move>, more: seq<Move>, k: nat)
    requires AllOk(first) && k < |first|
    ensures first[k].next <= StateAfter(first, moves)[k].next && !Mistaken(s, first, more, k, StateAfter(first, moves)[k].next)
    decreases |moves|
  {
    assert DirOk(first[k]);
    hide Applied, WriteSeen;
    if moves != [] {
      LaterNotMistaken(s, first, moves[..|moves| - 1], more, k);
      NextGrows(first, moves, k);
    }
  }

  lemma AppliedGrows(d: Dir, op: Op)
    ensures d.next <= Applied(d, op).next
  {
  }

  lemma {:induction false} NextGrows(first: Dirs, moves: seq<Move>, k: nat)
    requires k < |first| && moves != []
    ensures StateAfter(first, moves[..|moves| - 1])[k].next <= StateAfter(first, moves)[k].next
  {
    var before, m := StateAfter(first, moves[..|moves| - 1]), moves[|moves| - 1];
    assert StateAfter(first, moves) == if m.k < |before| then before[m.k := Applied(before[m.k], m.op)] else before;
    hide *;
    AppliedGrows(before[k], m.op);
  }

  lemma TakenBackLater(first: Dirs, moves: seq<Move>, k: nat, i: Ino, j: nat)
    requires k < |first| && moves != []
    ensures TakenBack(first, moves[..|moves| - 1], k, i, j) ==> TakenBack(first, moves, k, i, j)
    ensures j < |moves| && Takes(first, moves, k, i, |moves| - 1) ==> TakenBack(first, moves, k, i, j)
  {
    hide StateAfter;
    var front := moves[..|moves| - 1];
    if TakenBack(first, front, k, i, j) {
      var l :| j <= l < |front| && Takes(first, front, k, i, l);
      assert front[..l] == moves[..l];
      assert Takes(first, moves, k, i, l);
    }
  }

  /** What is owed stays owed until the others take it back, or it is mistaken for a reservation. */
  lemma {:induction false} OwedUntilTaken(specs: seq<Snapshot>, first: Dirs, moves: seq<Move>, k: nat, i: Ino, file: File, j: nat)
    requires |first| == |specs| && k < |specs| && j <= |moves| && Careful(specs, first, moves)
    requires i in OwedBy(specs, first, moves[..j])[k] && OwedBy(specs, first, moves[..j])[k][i] == file
    requires i < StateAfter(first, moves[..j])[k].next && !TakenBack(first, moves, k, i, j) && !Mistaken(specs[k], first, moves, k, i)
    ensures i in OwedBy(specs, first, moves)[k] && OwedBy(specs, first, moves)[k][i] == file && i < StateAfter(first, moves)[k].next
  {
    hide *;
    if j == |moves| {
      assert moves[..j] == moves;
    } else {
      var front := moves[..|moves| - 1];
      assert front[..j] == moves[..j];
      TakenBackLater(first, moves, k, i, j);
      FrontCareful(specs, first, moves);
      MistakenLater(specs[k], first, front, moves, k, i);
      OwedUntilTaken(specs, first, front, k, i, file, j);
      NextGrows(first, moves, k);
      OwedOneMore(specs, first, moves, k, i);
    }
  }

  lemma MistakenLater(s: Snapshot, first: Dirs, moves: seq<Move>, more: seq<Move>, k: nat, i: Ino)
    requires k < |first| && moves <= more
    ensures Mistaken(s, first, moves, k, i) ==> Mistaken(s, first, more, k, i)
  {
    hide WriteSeen;
    if Mistaken(s, first, moves, k, i) { WriteSeenLater(s, first, moves, more, k); }
  }

  /** A debt survives a move that neither takes it back nor gives it up. */
  lemma OwedOneMore(specs: seq<Snapshot>, first: Dirs, moves: seq<Move>, k: nat, i: Ino)
    requires |first| == |specs| && k < |specs| && moves != [] && i in OwedBy(specs, first, moves[..|moves| - 1])[k]
    requires i < StateAfter(first, moves[..|moves| - 1])[k].next && !Takes(first, moves, k, i, |moves| - 1)
    requires moves[|moves| - 1].k == k ==> RightDrop(specs, first, moves[..|moves| - 1], moves[|moves| - 1])
    requires !Mistaken(specs[k], first, moves[..|moves| - 1], k, i)
    ensures i in OwedBy(specs, first, moves)[k] && OwedBy(specs, first, moves)[k][i] == OwedBy(specs, first, moves[..|moves| - 1])[k][i]
  {
    var front, m := moves[..|moves| - 1], moves[|moves| - 1];
    if m.k == k && m.op.DropReservation? { GivenUpMistaken(specs, first, front, m); }
    hide StateAfter, Foreign, Mistaken, RightDrop;
  }

  lemma InstalledIsOwed(specs: seq<Snapshot>, first: Dirs, moves: seq<Move>, j: nat)
    requires |first| == |specs| && j < |moves| && Installs(specs, moves, j)
    ensures var k := moves[j].k;
            var i := StateAfter(first, moves[..j])[k].next;
            && i in OwedBy(specs, first, moves[..j + 1])[k] && OwedBy(specs, first, moves[..j + 1])[k][i] == moves[j].op.file.value
            && i < StateAfter(first, moves[..j + 1])[k].next
  {
    assert moves[..j + 1][..j] == moves[..j];
  }

  lemma KeptIsSafe(s: Snapshot, d: Dir, owed: Debts, i: Ino)
    requires Kept(s, d, owed) && i in owed
    ensures Safe(d, i, owed[i])
  {
  }

  lemma AllKeptLosesNothing(specs: seq<Snapshot>, first: Dirs, moves: seq<Move>)
    requires |first| == |specs| && AllOk(first) && Careful(specs, first, moves)
    requires forall k :: 0 <= k < |specs| ==> Kept(specs[k], StateAfter(first, moves)[k], OwedBy(specs, first, moves)[k])
    ensures NothingLost(specs, first, moves)
  {
    hide Kept, Safe, StateAfter, OwedBy, TakenBack, FoundForeign, Foreign, Careful, Mistaken;
    forall j | 0 <= j < |moves| && Installs(specs, moves, j)
      ensures var k := moves[j].k;
              var i := StateAfter(first, moves[..j])[k].next;
              TakenBack(first, moves, k, i, j + 1) || Safe(StateAfter(first, moves)[k], i, moves[j].op.file.value)
    {
      InstalledSafe(specs, first, moves, j);
    }
    forall k, i | 0 <= k < |specs| && i in FoundForeign(specs[k], first[k])
      ensures TakenBack(first, moves, k, i, 0) || Safe(StateAfter(first, moves)[k], i, FoundForeign(specs[k], first[k])[i])
              || Mistaken(specs[k], first, moves, k, i)
    {
      FoundSafe(specs, first, moves, k, i);
    }
  }

  lemma InstalledSafe(specs: seq<Snapshot>, first: Dirs, moves: seq<Move>, j: nat)
    requires |first| == |specs| && AllOk(first) && Careful(specs, first, moves) && j < |moves| && Installs(specs, moves, j)
    requires Kept(specs[moves[j].k], StateAfter(first, moves)[moves[j].k], OwedBy(specs, first, moves)[moves[j].k])
    ensures var k := moves[j].k;
            var i := StateAfter(first, moves[..j])[k].next;
            TakenBack(first, moves, k, i, j + 1) || Safe(StateAfter(first, moves)[k], i, moves[j].op.file.value)
  {
    InstalledIsOwed(specs, first, moves, j);
    LaterNotMistaken(specs[moves[j].k], first, moves[..j], moves, moves[j].k);
    hide *;
    var k := moves[j].k;
    var i := StateAfter(first, moves[..j])[k].next;
    if !TakenBack(first, moves, k, i, j + 1) {
      OwedUntilTaken(specs, first, moves, k, i, moves[j].op.file.value, j + 1);
      KeptIsSafe(specs[k], StateAfter(first, moves)[k], OwedBy(specs, first, moves)[k], i);
    }
  }

  lemma FoundIsThere(s: Snapshot, d: Dir, i: Ino)
    requires DirOk(d) && i in FoundForeign(s, d)
    ensures i < d.next
  {
  }

  lemma FoundSafe(specs: seq<Snapshot>, first: Dirs, moves: seq<Move>, k: nat, i: Ino)
    requires |first| == |specs| && AllOk(first) && Careful(specs, first, moves) && k < |specs| && i in FoundForeign(specs[k], first[k])
    requires Kept(specs[k], StateAfter(first, moves)[k], OwedBy(specs, first, moves)[k])
    ensures TakenBack(first, moves, k, i, 0) || Safe(StateAfter(first, moves)[k], i, FoundForeign(specs[k], first[k])[i])
            || Mistaken(specs[k], first, moves, k, i)
  {
    assert moves[..0] == [];
    assert OwedBy(specs, first, [])[k] == FoundForeign(specs[k], first[k]) && StateAfter(first, []) == first;
    assert DirOk(first[k]);
    FoundIsThere(specs[k], first[k], i);
    hide *;
    if !TakenBack(first, moves, k, i, 0) && !Mistaken(specs[k], first, moves, k, i) {
      OwedUntilTaken(specs, first, moves, k, i, FoundForeign(specs[k], first[k])[i], 0);
      KeptIsSafe(specs[k], StateAfter(first, moves)[k], OwedBy(specs, first, moves)[k], i);
    }
  }

  datatype Claimed = Verified(ino: Ino) | MayGoOn | Clash | Broke

  lemma NoDebtMoves(s: Snapshot, d: Dir, owed: Debts, op: Op)
    requires !op.Others? && !op.DropReservation?
    ensures OwedStep(s, d, owed, op) == owed
  {
  }

  lemma SameLength(k: nat, before: Dirs, now: Dirs)
    requires Only(k, before, now)
    ensures |now| == |before|
  {
  }

  lemma OnlySame(k: nat, dirs: Dirs)
    ensures Only(k, dirs, dirs)
  {
  }

  lemma OnlyOn(k: nat, before: Dirs, between: Dirs, now: Dirs)
    requires Only(k, before, between) && Only(k, between, now)
    ensures Only(k, before, now) && |now| == |before|
  {
  }

  lemma AtIs(d: Dir, n: Name)
    requires DirOk(d)
    ensures At(d, n) == if n in d.names then Some(d.files[d.names[n]]) else None
  {
  }

  lemma SightIs(d: Dir, max: nat, n: Name)
    requires DirOk(d)
    ensures var sight := Look(d, max, n);
            && (sight.Absent? <==> n !in d.names)
            && (n in d.names ==> At(d, n) == Some(d.files[d.names[n]]))
            && (n !in d.names ==> At(d, n) == None)
            && (sight.TooLarge? <==> At(d, n).Some? && |At(d, n).value.bytes| > max)
            && (sight.Seen? ==> At(d, n) == Some(sight.file) && d.names[n] == sight.ino)
  {
  }

  lemma MatchIs(t: Sight, f: File)
    ensures Matches(t, f) <==> t.Seen? && t.file == f
  {
  }

  /** What the names of a file under way stand for. */
  lemma UnderwaySights(s: Snapshot, max: nat, d: Dir)
    requires Underway(s, max, d)
    ensures Complete(s) && DirOk(d) && |RESERVATION.bytes| <= max && |After(s).bytes| <= max
    ensures Before(s).Some? ==> |Before(s).value.bytes| <= max
    ensures At(d, Quarantine) in {None, Some(RESERVATION), Some(After(s))}
    ensures At(d, Target) in {None, Before(s), Some(After(s))}
    ensures At(d, Quarantine).None? ==> At(d, Target) == Some(After(s))
    ensures At(d, Quarantine).Some? && At(d, Target) == Some(After(s)) ==> At(d, Quarantine) == Some(RESERVATION) || Before(s) == Some(After(s))
    ensures At(d, Quarantine).Some? && At(d, Target) != Some(After(s)) ==> At(d, Quarantine) == Some(After(s))
  {
  }

  lemma QuarantinedIs(s: Snapshot, d: Dir)
    requires InQuarantine(s, d)
    ensures DirOk(d) && Complete(s) && At(d, Target) == None && At(d, Quarantine) == Some(After(s))
  {
  }

  lemma StaysAre(d: Dir, e: Dir)
    requires OursStay(d, e)
    ensures QuarantineStays(d, e)
  {
    hide QuarantineStays;
  }

  lemma SameName(d: Dir, e: Dir)
    requires QuarantineStays(d, e)
    ensures Quarantine in d.names <==> Quarantine in e.names
  {
  }

  lemma FreshIsInPlace(s: Snapshot, max: nat, d: Dir)
    requires Underway(s, max, d) && Quarantine !in d.names
    ensures InPlace(s, d) && |After(s).bytes| <= max
  {
  }

  lemma OurNameStays(d: Dir, e: Dir, temp: Name)
    requires OursStay(d, e) && temp.Temp? && temp in d.names
    ensures temp in e.names
  {
    hide QuarantineStays;
  }

  /** A step of the others, and then one of undo on the same file. */
  lemma ChangedThen(k: nat, before: Dirs, between: Dirs, now: Dirs, owed: seq<Debts>, owed': seq<Debts>, interference: bool)
    requires k < |between| && Stepped(k, before, between, owed, owed', between[k], interference)
    requires |now| == |between| && now == between[k := now[k]]
    ensures Stepped(k, before, now, owed, owed', between[k], interference) && Only(k, before, now)
  {
    hide Meddled, OwedMoves;
  }

  lemma StepIs(k: nat, before: Dirs, now: Dirs, owed: seq<Debts>, owed': seq<Debts>, interference: bool)
    requires k < |now| && Stepped(k, before, now, owed, owed', now[k], interference)
    ensures k < |before| == |owed| == |owed'| && Meddled(before[k], now[k], true) && OwedMoves(before[k], owed[k], now[k], owed'[k])
  {
    hide OwedMoves;
  }

  lemma WithoutTemp(s: Snapshot, d: Dir, owed: Debts, temp: Name, interference: bool)
    requires DirOk(d) && Kept(s, d, owed) && (!interference ==> Complete(s) && Recoverable(s, d)) && temp.Temp?
    ensures Applied(d, DropTemp(temp)) == Unlinked(d, temp) && Fits(s, Unlinked(d, temp), owed, interference)
    ensures QuarantineStays(d, Unlinked(d, temp))
  {
  }

  lemma WithTemp(s: Snapshot, d: Dir, owed: Debts, temp: Name, interference: bool)
    requires DirOk(d) && Kept(s, d, owed) && temp.Temp? && temp in d.names && Target !in d.names
    requires !interference ==> Complete(s) && (DirOk(Linked(d, temp, Target)) ==> Recoverable(s, Linked(d, temp, Target)))
    ensures Applied(d, InstallTemp(temp)) == Linked(d, temp, Target) && Fits(s, Linked(d, temp, Target), owed, interference)
    ensures QuarantineStays(d, Linked(d, temp, Target))
  {
    LinkKeeps(s, d, owed, temp);
    hide Kept, Recoverable;
  }

  lemma MovedAside(s: Snapshot, d: Dir, owed: Debts, interference: bool)
    requires Kept(s, d, owed) && Target in d.names && OwnReservation(d, owed)
    requires !interference ==> Complete(s) && (DirOk(Renamed(d, Target, Quarantine)) ==> Recoverable(s, Renamed(d, Target, Quarantine)))
    ensures Applied(d, MoveAside) == Renamed(d, Target, Quarantine) && Fits(s, Renamed(d, Target, Quarantine), owed, interference)
  {
    RenameKeeps(s, d, owed);
    hide Kept, Recoverable;
  }

  /** A file in place can be moved to quarantine, and is there afterwards. */
  lemma InPlaceMoves(s: Snapshot, d: Dir)
    requires InPlace(s, d)
    ensures Complete(s) && Quarantine !in d.names && DirOk(Created(d, Quarantine, RESERVATION))
    ensures var e := Created(d, Quarantine, RESERVATION);
            Recoverable(s, e) && Target in e.names && DirOk(Renamed(e, Target, Quarantine))
            && Recoverable(s, Renamed(e, Target, Quarantine)) && InQuarantine(s, Renamed(e, Target, Quarantine))
  {
  }

  lemma RenamedIs(d: Dir)
    requires Target in d.names
    ensures Quarantine in Renamed(d, Target, Quarantine).names
  {
  }

  lemma OwnIs(d: Dir, owed: Debts)
    requires OwnReservation(d, owed)
    ensures DirOk(d) && Quarantine in d.names
  {
  }

  lemma LinkedIsBack(d: Dir, owed: Debts)
    requires DirOk(d) && Quarantine in d.names
    ensures DirOk(Linked(d, Quarantine, Target)) && LinkedBack(Linked(d, Quarantine, Target), owed)
  {
  }

  lemma DropLinked(s: Snapshot, d: Dir, owed: Debts)
    requires DirOk(d) && LinkedBack(d, owed)
    ensures MayDrop(s, d, owed)
  {
  }

  lemma UnlinkedIs(d: Dir, n: Name)
    ensures n !in Unlinked(d, n).names
  {
  }

  lemma CreatedIs(d: Dir)
    ensures var e := Created(d, Quarantine, RESERVATION); Quarantine in e.names && e.names[Quarantine] == d.next
  {
  }

  /** Others leave the quarantine name alone. */
  lemma OnlyTarget(k: nat, before: Dirs, now: Dirs, owed: seq<Debts>, owed': seq<Debts>, mid: Dir, interference: bool)
    requires Stepped(k, before, now, owed, owed', mid, interference)
    ensures k < |before| && (Quarantine in mid.names <==> Quarantine in before[k].names)
    ensures Quarantine in before[k].names ==> mid.names[Quarantine] == before[k].names[Quarantine]
  {
    hide OwedMoves;
  }

  lemma NoMeddling(k: nat, before: Dirs, now: Dirs, owed: seq<Debts>, owed': seq<Debts>, mid: Dir, interference: bool)
    requires Stepped(k, before, now, owed, owed', mid, interference)
    ensures k < |before| == |now| && Only(k, before, now) && (!interference ==> mid == before[k])
  {
    hide OwedMoves;
  }

  lemma Dropped(s: Snapshot, d: Dir, owed: Debts, interference: bool)
    requires DirOk(d) && Kept(s, d, owed) && MayDrop(s, d, owed)
    requires !interference ==> Complete(s) && (DirOk(Unlinked(d, Quarantine)) ==> Recoverable(s, Unlinked(d, Quarantine)))
    ensures Applied(d, DropQuarantine) == Unlinked(d, Quarantine) && Fits(s, Unlinked(d, Quarantine), owed, interference)
  {
    DropKeeps(s, d, owed);
    hide Kept, Recoverable;
  }

  lemma StaysOn(d: Dir, e: Dir, f: Dir)
    requires QuarantineStays(d, e) && QuarantineStays(e, f)
    ensures QuarantineStays(d, f)
  {
  }

  lemma BackInPlace(s: Snapshot, d: Dir)
    requires Complete(s) && DirOk(d) && At(d, Target) == Some(After(s))
    ensures InPlace(s, Unlinked(d, Quarantine)) && Recoverable(s, Unlinked(d, Quarantine))
  {
  }

  /** A new temporary file, empty and then written, fits. */
  lemma TempFits(s: Snapshot, d: Dir, owed: Debts, file: File, interference: bool)
    requires DirOk(d) && Kept(s, d, owed) && (!interference ==> Complete(s) && Recoverable(s, d))
    ensures var empty := Applied(d, NewTemp(File([], file.mode)));
            && Fits(s, empty, owed, interference) && Fits(s, Applied(empty, FillTemp(Temp(d.next), file)), owed, interference)
            && Applied(empty, FillTemp(Temp(d.next), file)) == Created(d, Temp(d.next), file) && Temp(d.next) !in d.names
            && Temp(d.next) in Created(d, Temp(d.next), file).names && QuarantineStays(d, Created(d, Temp(d.next), file))
  {
    TempKeeps(s, d, owed, Temp(d.next), File([], file.mode), interference);
    TempKeeps(s, d, owed, Temp(d.next), file, interference);
    hide Kept, Recoverable;
  }

  /** Nothing owed is lost in this state of one file, and a crash here is harmless. */
  ghost predicate Fits(s: Snapshot, d: Dir, owed: Debts, interference: bool) {
    DirOk(d) && Kept(s, d, owed) && (!interference ==> Complete(s) && Recoverable(s, d))
  }

  ghost predicate AllKept(specs: seq<Snapshot>, dirs: Dirs, owed: seq<Debts>) {
    |dirs| == |specs| == |owed| && AllOk(dirs) && forall k :: 0 <= k < |dirs| ==> Kept(specs[k], dirs[k], owed[k])
  }

  /** A file in a state that a turn or an interrupted undo leaves. */
  predicate Lawful(s: Snapshot, d: Dir) { Complete(s) && DirOk(d) && Recoverable(s, d) }

  /** The files on which others have moved, and those that were found in a state that neither a turn nor undo leaves. */
  function Noise(specs: seq<Snapshot>, first: Dirs, moves: seq<Move>): set<nat>
    requires |first| == |specs|
  {
    if moves == [] then set k | 0 <= k < |specs| && !Lawful(specs[k], first[k])
    else
      var m := moves[|moves| - 1];
      Noise(specs, first, moves[..|moves| - 1]) + if m.op.Others? then {m.k} else {}
  }

  /** Undo has done nothing yet. */
  predicate OnlyOthers(moves: seq<Move>) { forall j :: 0 <= j < |moves| ==> moves[j].op.Others? }

  lemma NothingYet(moves: seq<Move>)
    requires moves == []
    ensures OnlyOthers(moves)
  {
  }

  lemma OneMoreOfOthers(moves: seq<Move>, m: Move)
    requires OnlyOthers(moves) && m.op.Others?
    ensures OnlyOthers(moves + [m])
  {
  }

  /** Undo has put its own file under the target name. */
  predicate Installed(moves: seq<Move>, k: nat) { exists j :: 0 <= j < |moves| && moves[j].k == k && moves[j].op.InstallTemp? }

  /** Undo has removed a quarantined file. */
  predicate Cleared(moves: seq<Move>, k: nat) { exists j :: 0 <= j < |moves| && moves[j].k == k && moves[j].op.DropQuarantine? }

  /** A file reported restored was installed by undo, one reported deleted was removed by it. */
  predicate Acted(moves: seq<Move>, k: nat, v: Verdict) {
    (v.Restored? ==> Installed(moves, k)) && (v.Deleted? ==> Cleared(moves, k))
  }

  lemma ActedLater(moves: seq<Move>, more: seq<Move>, k: nat, v: Verdict)
    requires moves <= more && Acted(moves, k, v)
    ensures Acted(more, k, v)
  {
    if v.Restored? {
      var j :| 0 <= j < |moves| && moves[j].k == k && moves[j].op.InstallTemp?;
      assert more[j] == moves[j];
    }
    if v.Deleted? {
      var j :| 0 <= j < |moves| && moves[j].k == k && moves[j].op.DropQuarantine?;
      assert more[j] == moves[j];
    }
  }

  lemma InstalledLater(moves: seq<Move>, more: seq<Move>, k: nat)
    requires moves <= more && Installed(moves, k)
    ensures Installed(more, k)
  {
    ActedLater(moves, more, k, Restored);
  }

  lemma JustActed(moves: seq<Move>, k: nat, op: Op)
    requires moves != [] && moves[|moves| - 1] == Move(k, op)
    ensures op.InstallTemp? ==> Installed(moves, k)
    ensures op.DropQuarantine? ==> Cleared(moves, k)
  {
  }

  /** Others have moved on this file. */
  predicate Disturbed(moves: seq<Move>, k: nat) { exists j :: 0 <= j < |moves| && moves[j].k == k && moves[j].op.Others? }

  lemma {:induction false} NoiseIs(specs: seq<Snapshot>, first: Dirs, moves: seq<Move>, k: nat)
    requires |first| == |specs| && k < |specs|
    ensures k in Noise(specs, first, moves) <==> !Lawful(specs[k], first[k]) || Disturbed(moves, k)
  {
    hide Lawful;
    if moves != [] {
      var front, last := moves[..|moves| - 1], moves[|moves| - 1];
      NoiseIs(specs, first, front, k);
      if Disturbed(front, k) {
        var j :| 0 <= j < |front| && front[j].k == k && front[j].op.Others?;
        assert moves[j] == front[j];
      }
      if Disturbed(moves, k) && !(last.k == k && last.op.Others?) {
        var j :| 0 <= j < |moves| && moves[j].k == k && moves[j].op.Others?;
        assert front[j] == moves[j];
      }
    }
  }

  /** For the quiet files a crash is harmless in every state so far. */
  ghost predicate AllHarmless(specs: seq<Snapshot>, history: seq<Dirs>, noisy: set<nat>) {
    forall h, k :: h in history && 0 <= k < |specs| && k !in noisy ==> |h| == |specs| && Lawful(specs[k], h[k])
  }

  /** What holds of the fields of a disk between two moves. */
  ghost predicate Sound(specs: seq<Snapshot>, interference: bool, first: Dirs, dirs: Dirs, history: seq<Dirs>,
                        moves: seq<Move>, owed: seq<Debts>, noisy: set<nat>) {
    && AllKept(specs, dirs, owed) && AllHarmless(specs, history, noisy) && (!interference ==> noisy == {})
    && dirs in history && Told(specs, first, moves, history, dirs, owed) && AllOk(first) && noisy == Noise(specs, first, moves)
  }

  lemma AllKeptMore(specs: seq<Snapshot>, dirs: Dirs, owed: seq<Debts>, k: nat, d: Dir, debts: Debts)
    requires AllKept(specs, dirs, owed) && k < |specs| && DirOk(d) && Kept(specs[k], d, debts)
    ensures AllKept(specs, dirs[k := d], owed[k := debts])
  {
    hide Kept, DirOk;
  }

  lemma AllHarmlessMore(specs: seq<Snapshot>, history: seq<Dirs>, dirs: Dirs, k: nat, d: Dir, noisy: set<nat>)
    requires AllHarmless(specs, history, noisy) && dirs in history && |dirs| == |specs| && k < |specs|
    requires k !in noisy ==> Lawful(specs[k], d)
    ensures AllHarmless(specs, history + [dirs[k := d]], noisy)
  {
    hide Lawful;
  }

  lemma HarmlessWithMore(specs: seq<Snapshot>, history: seq<Dirs>, dirs: Dirs, k: nat, d: Dir, noisy: set<nat>)
    requires AllHarmless(specs, history, noisy) && dirs in history && |dirs| == |specs| && k < |specs|
    ensures AllHarmless(specs, history + [dirs[k := d]], noisy + {k})
  {
    hide Lawful;
  }

  lemma MoreNoise(specs: seq<Snapshot>, first: Dirs, moves: seq<Move>, m: Move)
    requires |first| == |specs|
    ensures Noise(specs, first, moves + [m]) == Noise(specs, first, moves) + if m.op.Others? then {m.k} else {}
  {
    hide Lawful;
    assert (moves + [m])[..|moves|] == moves;
  }

  lemma PerformKeeps(specs: seq<Snapshot>, interference: bool, first: Dirs, dirs: Dirs, history: seq<Dirs>, moves: seq<Move>,
                     owed: seq<Debts>, noisy: set<nat>, m: Move)
    requires Sound(specs, interference, first, dirs, history, moves, owed, noisy) && m.k < |specs| && |dirs| == |specs| == |owed| && !m.op.Others?
    requires Fits(specs[m.k], Applied(dirs[m.k], m.op), OwedStep(specs[m.k], dirs[m.k], owed[m.k], m.op), m.k in noisy)
    requires |first| == |specs| && RightDrop(specs, first, moves, m)
    ensures var now := dirs[m.k := Applied(dirs[m.k], m.op)];
            Sound(specs, interference, first, now, history + [now], moves + [m], owed[m.k := OwedStep(specs[m.k], dirs[m.k], owed[m.k], m.op)], noisy)
  {
    hide Told, Applied, OwedStep, Kept, RightDrop, DirOk, Recoverable, AllKept, AllHarmless, Complete, AllOk, Noise;
    ToldMore(specs, first, moves, history, dirs, owed, m);
    MoreNoise(specs, first, moves, m);
    var d := Applied(dirs[m.k], m.op);
    AllKeptMore(specs, dirs, owed, m.k, d, OwedStep(specs[m.k], dirs[m.k], owed[m.k], m.op));
    AllHarmlessMore(specs, history, dirs, m.k, d, noisy);
  }

  lemma MeddleKeepsAll(specs: seq<Snapshot>, first: Dirs, dirs: Dirs, history: seq<Dirs>, moves: seq<Move>, owed: seq<Debts>,
                       noisy: set<nat>, k: nat, f: Option<File>)
    requires Sound(specs, true, first, dirs, history, moves, owed, noisy) && k < |specs|
    ensures var now, owed' := dirs[k := Meddle(dirs[k], f)], owed[k := OwedAfter(specs[k], dirs[k], owed[k], f)];
            && Sound(specs, true, first, now, history + [now], moves + [Move(k, Others(f))], owed', noisy + {k})
            && Stepped(k, dirs, now, owed, owed', now[k], true)
  {
    MeddleKeeps(specs[k], dirs[k], owed[k], f);
    MeddleSteps(k, dirs, owed, f, specs[k]);
    assert RightDrop(specs, first, moves, Move(k, Others(f)));
    ToldMore(specs, first, moves, history, dirs, owed, Move(k, Others(f)));
    assert Applied(dirs[k], Others(f)) == Meddle(dirs[k], f);
    AllKeptMore(specs, dirs, owed, k, Meddle(dirs[k], f), OwedAfter(specs[k], dirs[k], owed[k], f));
    HarmlessWithMore(specs, history, dirs, k, Meddle(dirs[k], f), noisy);
    MoreNoise(specs, first, moves, Move(k, Others(f)));
    hide Kept, Meddled, Told, Applied, Stepped, OwedAfter, Meddle, DirOk, AllKept, AllHarmless, Noise;
  }

  /** A drop that the debts allow is right in the story told so far. */
  lemma DropIsRight(specs: seq<Snapshot>, interference: bool, first: Dirs, dirs: Dirs, history: seq<Dirs>, moves: seq<Move>,
                    owed: seq<Debts>, noisy: set<nat>, m: Move)
    requires Sound(specs, interference, first, dirs, history, moves, owed, noisy) && m.k < |specs| && |dirs| == |specs| == |owed|
    requires m.op.DropQuarantine? ==> MayDrop(specs[m.k], dirs[m.k], owed[m.k])
    requires m.op.DropReservation? ==>
      |first| == |specs| && DirOk(dirs[m.k]) && At(dirs[m.k], Quarantine) == Some(RESERVATION)
      && QuarantineStays(first[m.k], dirs[m.k]) && WriteSeen(specs[m.k], first, moves, m.k)
    ensures |first| == |specs| && RightDrop(specs, first, moves, m)
  {
    hide MayDrop, StateAfter, OwedBy, WriteSeen, Careful, AllKept, AllHarmless, QuarantineStays, DirOk, Noise;
  }

  /** What is under the target name now has been there. */
  lemma SeenNow(specs: seq<Snapshot>, interference: bool, first: Dirs, dirs: Dirs, history: seq<Dirs>, moves: seq<Move>,
                owed: seq<Debts>, noisy: set<nat>, k: nat)
    requires Sound(specs, interference, first, dirs, history, moves, owed, noisy) && k < |specs| && |dirs| == |specs|
    ensures |first| == |specs| && DirOk(dirs[k]) && TargetWas(first, moves, k, At(dirs[k], Target))
  {
    hide StateAfter, OwedBy, Careful, AllHarmless, Noise, Kept;
    assert moves[..|moves|] == moves;
  }

  class Disk {
    const specs: seq<Snapshot>
    const max: nat
    const interference: bool
    /** The state at the beginning. */
    const first: Dirs
    var dirs: Dirs
    /** The states between two moves so far, the present one last. */
    var history: seq<Dirs>
    /** All moves so far, of undo and of the others. */
    ghost var moves: seq<Move>
    /** For each file, what others have put under its name and not taken away themselves. */
    ghost var owed: seq<Debts>
    /** The files on which others have moved, and those found in a state that neither a turn nor undo leaves. */
    ghost var noisy: set<nat>

    ghost predicate Valid()
      reads this
    {
      Sound(specs, interference, first, dirs, history, moves, owed, noisy)
    }

    /** The state of one file may become this one: nothing owed is lost, and a crash here is harmless. */
    ghost predicate MayBecome(k: nat, d: Dir)
      reads this
      requires k < |specs| == |owed|
    {
      Fits(specs[k], d, owed[k], k in noisy)
    }

    constructor (specs: seq<Snapshot>, max: nat, interference: bool, dirs: Dirs)
      requires |dirs| == |specs| && AllOk(dirs) && (!interference ==> AllRecoverable(specs, dirs))
      ensures Valid() && this.specs == specs && this.max == max && this.interference == interference && this.dirs == dirs
      ensures first == dirs && moves == []
    {
      this.specs, this.max, this.interference, this.dirs, this.first := specs, max, interference, dirs, dirs;
      history := [dirs];
      moves := [];
      owed := seq(|specs|, k requires 0 <= k < |specs| => FoundForeign(specs[k], dirs[k]));
      noisy := Noise(specs, dirs, []);
      ToldFirst(specs, dirs);
    }

    /** One operation of undo. */
    method Perform(k: nat, op: Op)
      requires Valid() && k < |dirs| && !op.Others? && !op.DropReservation? && MayBecome(k, Applied(dirs[k], op))
      requires op.DropQuarantine? ==> MayDrop(specs[k], dirs[k], owed[k])
      modifies `dirs, `history, `moves
      ensures Valid() && dirs == old(dirs)[k := Applied(old(dirs)[k], op)] && moves == old(moves) + [Move(k, op)]
    {
      Sizes();
      NoDebtMoves(specs[k], dirs[k], owed[k], op);
      hide Sound, Applied, OwedStep, Fits, MayDrop, RightDrop;
      DropIsRight(specs, interference, first, dirs, history, moves, owed, noisy, Move(k, op));
      PerformKeeps(specs, interference, first, dirs, history, moves, owed, noisy, Move(k, op));
      assert owed[k := owed[k]] == owed;
      dirs := dirs[k := Applied(dirs[k], op)];
      history := history + [dirs];
      moves := moves + [Move(k, op)];
    }

    /** Give up a file that was found under the quarantine name and looks like a reservation. */
    method GiveUpReservation(k: nat)
      requires Valid() && k < |dirs| && Found(k) && At(dirs[k], Quarantine) == Some(RESERVATION) && SawWrite(k)
      requires k !in noisy ==> Recoverable(specs[k], Unlinked(dirs[k], Quarantine))
      modifies `dirs, `history, `owed, `moves, `noisy
      ensures Valid() && dirs == old(dirs)[k := Unlinked(old(dirs)[k], Quarantine)] && moves == old(moves) + [Move(k, DropReservation)]
    {
      ReservationGoes(specs[k], dirs[k], owed[k]);
      assert OwedStep(specs[k], dirs[k], owed[k], DropReservation) == owed[k] - {dirs[k].names[Quarantine]};
      assert k !in noisy ==> Lawful(specs[k], dirs[k]);
      assert Fits(specs[k], Unlinked(dirs[k], Quarantine), OwedStep(specs[k], dirs[k], owed[k], DropReservation), k in noisy);
      hide Sound, Fits, OwedStep, RightDrop, Kept, Recoverable, QuarantineStays, WriteSeen;
      DropIsRight(specs, interference, first, dirs, history, moves, owed, noisy, Move(k, DropReservation));
      PerformKeeps(specs, interference, first, dirs, history, moves, owed, noisy, Move(k, DropReservation));
      owed := owed[k := OwedStep(specs[k], dirs[k], owed[k], DropReservation)];
      dirs := dirs[k := Unlinked(dirs[k], Quarantine)];
      history := history + [dirs];
      moves := moves + [Move(k, DropReservation)];
    }

    /** The quarantine name stands for what it stood for at the beginning. */
    ghost predicate Found(k: nat)
      reads this
    {
      k < |first| && k < |dirs| && QuarantineStays(first[k], dirs[k])
    }

    ghost predicate SawWrite(k: nat)
      reads this
    {
      k < |specs| && k < |first| && WriteSeen(specs[k], first, moves, k)
    }

    /** Another process sets or removes the target once. */
    method MeddleOnce(k: nat)
      requires Valid() && k < |dirs| && interference
      modifies `dirs, `history, `owed, `moves, `noisy
      ensures Valid() && old(moves) <= moves && old(noisy) <= noisy
      ensures Stepped(k, old(dirs), dirs, old(owed), owed, dirs[k], k in noisy)
      ensures OnlyOthers(old(moves)) ==> OnlyOthers(moves)
      ensures k in noisy
    {
      var file: Option<File> := *;
      var d := dirs[k];
      MeddleKeepsAll(specs, first, dirs, history, moves, owed, noisy, k, file);
      if OnlyOthers(moves) { OneMoreOfOthers(moves, Move(k, Others(file))); }
      hide Sound, Stepped, OwedAfter, Meddle, OnlyOthers;
      owed := owed[k := OwedAfter(specs[k], d, owed[k], file)];
      dirs := dirs[k := Meddle(d, file)];
      history := history + [dirs];
      moves := moves + [Move(k, Others(file))];
      noisy := noisy + {k};
    }

    /** Another process may act, as often as it likes, on the target name of this file. */
    method Interfere(k: nat)
      requires Valid() && k < |dirs|
      modifies `dirs, `history, `owed, `moves, `noisy
      ensures Valid() && old(moves) <= moves && old(noisy) <= noisy
      ensures Stepped(k, old(dirs), dirs, old(owed), owed, dirs[k], k in noisy)
      ensures OnlyOthers(old(moves)) ==> OnlyOthers(moves)
      ensures Only(k, old(dirs), dirs) && OursStay(old(dirs)[k], dirs[k]) && (k !in noisy ==> dirs == old(dirs))
    {
      NoStep(k, dirs, owed, k in noisy);
      assert AllOk(dirs);
      hide Valid, Stepped, OnlyOthers;
      var times: nat := *;
      while interference && times > 0
        invariant Valid() && old(moves) <= moves && old(noisy) <= noisy && Stepped(k, old(dirs), dirs, old(owed), owed, dirs[k], k in noisy)
        invariant OnlyOthers(old(moves)) ==> OnlyOthers(moves)
      {
        ghost var d, o, quiet := dirs, owed, k in noisy;
        MeddleOnce(k);
        SteppedLess(k, old(dirs), d, old(owed), o, d[k], quiet, true);
        SteppedOn(k, old(dirs), old(owed), d, o, dirs, owed, dirs[k], true);
        times := times - 1;
      }
      SteppedStays(k, old(dirs), dirs, old(owed), owed, k in noisy);
    }

    /** Read a name without following it further. */
    method ReadAt(k: nat, n: Name) returns (sight: Sight)
      requires Valid() && k < |dirs|
      modifies `dirs, `history, `owed, `moves, `noisy
      ensures Valid() && old(moves) <= moves && old(noisy) <= noisy
      ensures Stepped(k, old(dirs), dirs, old(owed), owed, dirs[k], k in noisy)
      ensures OnlyOthers(old(moves)) ==> OnlyOthers(moves)
      ensures sight == Look(dirs[k], max, n)
      ensures Only(k, old(dirs), dirs) && OursStay(old(dirs)[k], dirs[k]) && (k !in noisy ==> dirs == old(dirs))
    {
      hide Kept, AllRecoverable, Told;
      Interfere(k);
      sight := Look(dirs[k], max, n);
    }

    method NameExists(k: nat, n: Name) returns (found: bool)
      requires Valid() && k < |dirs|
      modifies `dirs, `history, `owed, `moves, `noisy
      ensures Valid() && old(moves) <= moves && old(noisy) <= noisy
      ensures Stepped(k, old(dirs), dirs, old(owed), owed, dirs[k], k in noisy)
      ensures OnlyOthers(old(moves)) ==> OnlyOthers(moves)
      ensures found == (n in dirs[k].names)
      ensures Only(k, old(dirs), dirs) && OursStay(old(dirs)[k], dirs[k]) && (k !in noisy ==> dirs == old(dirs))
    {
      hide Valid, Stepped, OnlyOthers, OursStay;
      Interfere(k);
      found := n in dirs[k].names;
    }

    /** Whether a name still stands for this very file; `None` when it stands for nothing. */
    method SameEntry(k: nat, n: Name, ino: Ino) returns (same: Option<bool>)
      requires Valid() && k < |dirs|
      modifies `dirs, `history, `owed, `moves, `noisy
      ensures Valid() && old(moves) <= moves && old(noisy) <= noisy
      ensures Stepped(k, old(dirs), dirs, old(owed), owed, dirs[k], k in noisy)
      ensures OnlyOthers(old(moves)) ==> OnlyOthers(moves)
      ensures same == if n in dirs[k].names then Some(dirs[k].names[n] == ino) else None
      ensures Only(k, old(dirs), dirs) && OursStay(old(dirs)[k], dirs[k]) && (k !in noisy ==> dirs == old(dirs))
    {
      hide Valid, Stepped, OnlyOthers, OursStay;
      Interfere(k);
      same := if n in dirs[k].names then Some(dirs[k].names[n] == ino) else None;
    }

    method UnlinkQuarantine(k: nat) returns (ghost mid: Dir)
      requires Valid() && k < |dirs| && MayDrop(specs[k], dirs[k], owed[k])
      requires k !in noisy ==> Recoverable(specs[k], Unlinked(dirs[k], Quarantine))
      modifies `dirs, `history, `owed, `moves, `noisy
      ensures Valid() && old(moves) <= moves && old(noisy) <= noisy
      ensures Stepped(k, old(dirs), dirs, old(owed), owed, mid, k in noisy)
      ensures dirs[k] == Unlinked(mid, Quarantine)
      ensures |dirs| == |old(dirs)| && Quarantine !in dirs[k].names
      ensures Cleared(moves, k)
      ensures Only(k, old(dirs), dirs) && (k !in noisy ==> dirs[k] == Unlinked(old(dirs)[k], Quarantine))
    {
      hide *;
      MayMeddle(k);
      ghost var before, debts := dirs, owed;
      Interfere(k);
      SameLength(k, before, dirs);
      MayMeddle(k);
      mid := dirs[k];
      ghost var between := dirs;
      StepIs(k, before, dirs, debts, owed, k in noisy);
      MayDropStays(specs[k], before[k], debts[k], mid, owed[k]);
      Dropped(specs[k], mid, owed[k], k in noisy);
      FitsHere(k, Applied(mid, DropQuarantine));
      Perform(k, DropQuarantine);
      JustActed(moves, k, DropQuarantine);
      UnlinkedIs(mid, Quarantine);
      ChangedThen(k, before, between, dirs, debts, owed, k in noisy);
    }

    /** The quarantine of this file is left as it should be. */
    ghost predicate Tidy(k: nat)
      reads this
    {
      k < |specs| && k < |dirs| && Tidied(specs[k], first, moves, k, dirs[k])
    }

    lemma TidyNow(k: nat)
      requires Valid() && k < |dirs| && k < |first| && k < |specs|
      requires Quarantine in first[k].names || Quarantine !in dirs[k].names || Target in dirs[k].names
               || (Complete(specs[k]) && DirOk(dirs[k]) && At(dirs[k], Quarantine) == Some(After(specs[k])))
      ensures Tidy(k)
    {
      hide StateAfter, OwedBy, Careful, AllHarmless, Noise, Kept;
      assert moves[..|moves|] == moves;
    }

    lemma TidyFound(k: nat)
      requires Valid() && Found(k) && k < |specs|
      ensures Tidy(k)
    {
      FoundIs(k);
      hide Sound;
      TidyNow(k);
    }

    /** Reserve the quarantine name: `open` with `O_EXCL`. */
    method CreateQuarantine(k: nat) returns (ok: bool, ino: Ino, ghost mid: Dir)
      requires Valid() && k < |dirs|
      requires k !in noisy && Quarantine !in dirs[k].names ==> Recoverable(specs[k], Created(dirs[k], Quarantine, RESERVATION))
      modifies `dirs, `history, `owed, `moves, `noisy
      ensures Valid() && old(moves) <= moves && old(noisy) <= noisy
      ensures Stepped(k, old(dirs), dirs, old(owed), owed, mid, k in noisy)
      ensures ok == (Quarantine !in mid.names) && ino == mid.next
      ensures dirs[k] == if ok then Created(mid, Quarantine, RESERVATION) else mid
      ensures ok ==> OwnReservation(dirs[k], owed[k])
    {
      hide Told;
      Interfere(k);
      mid, ino := dirs[k], dirs[k].next;
      ok := Quarantine !in dirs[k].names;
      if ok {
        CreateKeeps(specs[k], dirs[k], owed[k], Quarantine, RESERVATION);
        OwnIsNew(specs[k], dirs[k], owed[k]);
        hide Kept, Recoverable, Told;
        Perform(k, Reserve);
      }
    }

    /** Move the target over the reservation: `rename` fails when the target is gone. */
    method MoveTarget(k: nat) returns (ok: bool, ghost mid: Dir)
      requires Valid() && k < |dirs| && OwnReservation(dirs[k], owed[k])
      requires k !in noisy && Target in dirs[k].names ==> Recoverable(specs[k], Renamed(dirs[k], Target, Quarantine))
      modifies `dirs, `history, `owed, `moves, `noisy
      ensures Valid() && old(moves) <= moves && old(noisy) <= noisy
      ensures Stepped(k, old(dirs), dirs, old(owed), owed, mid, k in noisy)
      ensures ok == (Target in mid.names) && dirs[k] == if ok then Renamed(mid, Target, Quarantine) else mid
      ensures !ok ==> OwnReservation(dirs[k], owed[k])
    {
      hide *;
      MayMeddle(k);
      ghost var before, debts := dirs, owed;
      Interfere(k);
      SameLength(k, before, dirs);
      MayMeddle(k);
      mid := dirs[k];
      ghost var between := dirs;
      StepIs(k, before, dirs, debts, owed, k in noisy);
      OwnStays(before[k], debts[k], mid, owed[k]);
      ok := Target in dirs[k].names;
      if ok {
        MovedAside(specs[k], mid, owed[k], k in noisy);
        FitsHere(k, Applied(mid, MoveAside));
        Perform(k, MoveAside);
      }
      ChangedThen(k, before, between, dirs, debts, owed, k in noisy);
    }

    /** Put the quarantined file under the target name again: `link` fails when there is a target. */
    method LinkBack(k: nat) returns (ok: bool, ghost mid: Dir)
      requires Valid() && k < |dirs| && k in noisy && Quarantine in dirs[k].names
      modifies `dirs, `history, `owed, `moves, `noisy
      ensures Valid() && old(moves) <= moves && old(noisy) <= noisy
      ensures Stepped(k, old(dirs), dirs, old(owed), owed, mid, k in noisy)
      ensures ok == (Target !in mid.names) && Quarantine in mid.names
      ensures dirs[k] == if ok then Linked(mid, Quarantine, Target) else mid
      ensures DirOk(mid)
    {
      hide Told;
      Interfere(k);
      mid := dirs[k];
      ok := Target !in dirs[k].names;
      if ok {
        LinkKeeps(specs[k], dirs[k], owed[k], Quarantine);
        hide Kept, Told;
        Perform(k, PutBack);
      }
    }

    /** Write the baseline to a new temporary file. */
    method WriteTemp(k: nat, file: File) returns (temp: Name, ghost mid: Dir)
      requires Valid() && k < |dirs|
      modifies `dirs, `history, `owed, `moves, `noisy
      ensures Valid() && old(moves) <= moves && old(noisy) <= noisy
      ensures Stepped(k, old(dirs), dirs, old(owed), owed, mid, k in noisy)
      ensures temp.Temp? && dirs[k] == Created(mid, temp, file) && temp !in mid.names
      ensures Only(k, old(dirs), dirs) && QuarantineStays(old(dirs)[k], dirs[k])
      ensures temp in dirs[k].names && (k !in noisy ==> dirs[k] == Created(old(dirs)[k], temp, file))
    {
      hide Told, AllHarmless, Kept, Recoverable, Stepped, Meddled;
      Interfere(k);
      mid := dirs[k];
      ghost var between := dirs;
      temp := Temp(dirs[k].next);
      MayMeddle(k);
      TempFits(specs[k], mid, owed[k], file, k in noisy);
      hide Sound, Fits, Applied, DirOk;
      Perform(k, NewTemp(File([], file.mode)));
      Perform(k, FillTemp(temp, file));
      SteppedThen(k, old(dirs), between, dirs, old(owed), owed, k in noisy);
    }

    lemma FitsHere(k: nat, d: Dir)
      requires k < |specs| == |owed| && Fits(specs[k], d, owed[k], k in noisy)
      ensures MayBecome(k, d)
    {
      hide Fits;
    }

    lemma MayMeddle(k: nat)
      requires Valid() && k < |dirs|
      ensures |dirs| == |specs| == |owed| && DirOk(dirs[k]) && Kept(specs[k], dirs[k], owed[k])
      ensures k !in noisy ==> Complete(specs[k]) && Recoverable(specs[k], dirs[k])
    {
      hide Told, Kept, DirOk, Recoverable, Complete;
      assert k !in noisy ==> Lawful(specs[k], dirs[k]);
    }

    /** Install the temporary file under the target name: `link` fails when there is a target. */
    method LinkTemp(k: nat, temp: Name) returns (ok: bool, ghost mid: Dir)
      requires Valid() && k < |dirs| && temp.Temp? && temp in dirs[k].names
      requires k !in noisy && Target !in dirs[k].names ==> Recoverable(specs[k], Linked(dirs[k], temp, Target))
      modifies `dirs, `history, `owed, `moves, `noisy
      ensures Valid() && old(moves) <= moves && old(noisy) <= noisy
      ensures Stepped(k, old(dirs), dirs, old(owed), owed, mid, k in noisy)
      ensures ok ==> Installed(moves, k)
      ensures ok == (Target !in mid.names) && temp in mid.names && dirs[k] == if ok then Linked(mid, temp, Target) else mid
      ensures Only(k, old(dirs), dirs) && QuarantineStays(old(dirs)[k], dirs[k])
      ensures k !in noisy ==> ok == (Target !in old(dirs)[k].names) && dirs[k] == if ok then Linked(old(dirs)[k], temp, Target) else old(dirs)[k]
    {
      hide *;
      ghost var before := dirs;
      Interfere(k);
      SameLength(k, before, dirs);
      MayMeddle(k);
      mid := dirs[k];
      ghost var between := dirs;
      OurNameStays(before[k], mid, temp);
      ok := Target !in dirs[k].names;
      StaysAre(before[k], mid);
      if ok {
        WithTemp(specs[k], mid, owed[k], temp, k in noisy);
        FitsHere(k, Applied(mid, InstallTemp(temp)));
        Perform(k, InstallTemp(temp));
        JustActed(moves, k, InstallTemp(temp));
        StaysOn(before[k], mid, dirs[k]);
      }
      ChangedThen(k, before, between, dirs, old(owed), owed, k in noisy);
    }

    method UnlinkTemp(k: nat, temp: Name) returns (ghost mid: Dir)
      requires Valid() && k < |dirs| && temp.Temp?
      modifies `dirs, `history, `owed, `moves, `noisy
      ensures Valid() && old(moves) <= moves && old(noisy) <= noisy
      ensures Stepped(k, old(dirs), dirs, old(owed), owed, mid, k in noisy)
      ensures dirs[k] == Unlinked(mid, temp)
      ensures Only(k, old(dirs), dirs) && QuarantineStays(old(dirs)[k], dirs[k])
      ensures k !in noisy ==> dirs[k] == Unlinked(old(dirs)[k], temp)
    {
      hide *;
      ghost var before := dirs;
      Interfere(k);
      SameLength(k, before, dirs);
      MayMeddle(k);
      mid := dirs[k];
      ghost var between := dirs;
      WithoutTemp(specs[k], mid, owed[k], temp, k in noisy);
      FitsHere(k, Applied(mid, DropTemp(temp)));
      Perform(k, DropTemp(temp));
      ChangedThen(k, before, between, dirs, old(owed), owed, k in noisy);
      StaysAre(before[k], mid);
      StaysOn(before[k], mid, dirs[k]);
    }

    /** Take the own reservation away, if it is still there. */
    method TakeReservation(k: nat, ino: Ino, ghost before: Dirs)
      requires Valid() && k < |dirs| && k < |owed| && k in noisy && OwnReservation(dirs[k], owed[k]) && Only(k, before, dirs)
      requires Quarantine in dirs[k].names && dirs[k].names[Quarantine] == ino
      modifies `dirs, `history, `owed, `moves, `noisy
      ensures Valid() && old(moves) <= moves && old(noisy) <= noisy && Only(k, before, dirs)
      ensures k < |dirs| && Quarantine !in dirs[k].names
    {
      hide *;
      Sizes();
      ghost var between, debts := dirs, owed;
      OwnIs(dirs[k], owed[k]);
      var same := SameEntry(k, Quarantine, ino);
      Stays(k, between);
      OnlyOn(k, before, between, dirs);
      if same == Some(true) {
        Sizes();
        StepIs(k, between, dirs, debts, owed, k in noisy);
        OwnStays(between[k], debts[k], dirs[k], owed[k]);
        OwnMayDrop(specs[k], dirs[k], owed[k]);
        between := dirs;
        var _ := UnlinkQuarantine(k);
        OnlyOn(k, before, between, dirs);
      }
    }

    /** Reserve the quarantine name, then move the target there; a failed move takes the reservation away. */
    method QuarantineTarget(k: nat) returns (r: Moved)
      requires Valid() && k < |dirs| && (k !in noisy ==> InPlace(specs[k], dirs[k]))
      modifies `dirs, `history, `owed, `moves, `noisy
      ensures Valid() && old(moves) <= moves && old(noisy) <= noisy && Only(k, old(dirs), dirs)
      ensures r.Done? ==> Quarantine in dirs[k].names
      ensures k !in noisy ==> r.Done? && InQuarantine(specs[k], dirs[k])
      ensures Quarantine !in old(dirs)[k].names ==> !r.Occupied?
      ensures r.Gone? ==> Quarantine !in dirs[k].names
    {
      hide *;
      Sizes();
      if k !in noisy { InPlaceMoves(specs[k], dirs[k]); }
      ghost var before := dirs;
      var created, ino, mid := CreateQuarantine(k);
      NoMeddling(k, before, dirs, old(owed), owed, mid, k in noisy);
      OnlyTarget(k, before, dirs, old(owed), owed, mid, k in noisy);
      if !created { return Occupied; }
      CreatedIs(mid);
      ghost var between, debts := dirs, owed;
      var moved;
      moved, mid := MoveTarget(k);
      NoMeddling(k, between, dirs, debts, owed, mid, k in noisy);
      OnlyTarget(k, between, dirs, debts, owed, mid, k in noisy);
      OnlyOn(k, before, between, dirs);
      if !moved {
        Sizes();
        TakeReservation(k, ino, before);
        return Gone;
      }
      RenamedIs(mid);
      return Done;
    }

    /** Give a quarantined file back to its name, unless the name is taken again. */
    method RestoreQuarantine(k: nat)
      requires Valid() && k < |dirs| && k in noisy && Quarantine in dirs[k].names
      modifies `dirs, `history, `owed, `moves, `noisy
      ensures Valid() && old(moves) <= moves && old(noisy) <= noisy && Only(k, old(dirs), dirs)
      ensures Tidy(k)
    {
      hide *;
      ghost var before, debts := dirs, owed;
      var linked;
      ghost var mid;
      linked, mid := LinkBack(k);
      NoMeddling(k, before, dirs, debts, owed, mid, k in noisy);
      Sizes();
      if linked {
        LinkedIsBack(mid, owed[k]);
        DropLinked(specs[k], dirs[k], owed[k]);
        ghost var between := dirs;
        var _ := UnlinkQuarantine(k);
        OnlyOn(k, before, between, dirs);
        Sizes();
      }
      TidyNow(k);
    }

    /** What was seen has been seen. */
    lemma SawWriteStill(k: nat, before: seq<Move>)
      requires before <= moves && k < |specs| && k < |first| && WriteSeen(specs[k], first, before, k)
      ensures SawWrite(k)
    {
      WriteSeenLater(specs[k], first, before, moves, k);
    }

    /** What stands under the quarantine name stays there while others act. */
    lemma FoundStill(k: nat, before: Dirs)
      requires k < |first| && k < |before| && k < |dirs| && QuarantineStays(first[k], before[k]) && QuarantineStays(before[k], dirs[k])
      ensures Found(k)
    {
    }

    lemma FoundNext(k: nat)
      requires k < |dirs| && StayFrom(first, dirs, k)
      ensures Found(k)
    {
    }

    /** The unlink of a reservation that was found. */
    method UnlinkReservation(k: nat)
      requires Valid() && k < |dirs| && Found(k) && At(dirs[k], Quarantine) == Some(RESERVATION) && SawWrite(k)
      requires k !in noisy ==> Recoverable(specs[k], Unlinked(dirs[k], Quarantine))
      modifies `dirs, `history, `owed, `moves, `noisy
      ensures Valid() && old(moves) <= moves && old(noisy) <= noisy && Only(k, old(dirs), dirs) && Quarantine !in dirs[k].names
      ensures k !in noisy ==> dirs[k] == Unlinked(old(dirs)[k], Quarantine)
    {
      hide Told, Kept, Recoverable, Stepped, WriteSeen;
      Interfere(k);
      FoundStill(k, old(dirs));
      SawWriteStill(k, old(moves));
      GiveUpReservation(k);
    }

    lemma WellFormed(k: nat)
      requires Valid() && k < |dirs|
      ensures k < |specs| == |dirs| == |first| && DirOk(dirs[k])
    {
      Sizes();
      hide Told, AllHarmless, Noise, Kept, DirOk;
    }

    lemma SeenAndFound(k: nat)
      requires Found(k) && SawWrite(k)
      ensures k < |first| && k < |dirs| && QuarantineStays(first[k], dirs[k]) && k < |specs| && WriteSeen(specs[k], first, moves, k)
    {
      hide QuarantineStays, WriteSeen;
    }

    /** The quarantine stands as before. */
    lemma Remains(k: nat, before: Dirs)
      requires Valid() && k < |before| && DirOk(before[k]) && Only(k, before, dirs) && QuarantineStays(before[k], dirs[k])
      ensures |dirs| == |before| == |specs| == |first| && DirOk(dirs[k])
      ensures At(dirs[k], Quarantine) == At(before[k], Quarantine)
      ensures Quarantine in before[k].names ==> Quarantine in dirs[k].names && dirs[k].names[Quarantine] == before[k].names[Quarantine]
    {
      WellFormed(k);
      hide Sound;
    }

    /** After a step of the others, and only that, the quarantine stands as before. */
    lemma Stays(k: nat, before: Dirs)
      requires Valid() && k < |before| && DirOk(before[k]) && Only(k, before, dirs) && OursStay(before[k], dirs[k])
      ensures |dirs| == |before| == |specs| == |first| && DirOk(dirs[k]) && QuarantineStays(before[k], dirs[k])
      ensures At(dirs[k], Quarantine) == At(before[k], Quarantine)
      ensures Quarantine in before[k].names ==> Quarantine in dirs[k].names && dirs[k].names[Quarantine] == before[k].names[Quarantine]
    {
      hide Sound, QuarantineStays;
      Remains(k, before);
    }

    /** With a reservation over the intact file, start over: drop the reservation and move the file. */
    method MoveAgain(k: nat, q: Ino, t: Ino) returns (r: Claimed)
      requires Valid() && k < |dirs| && At(dirs[k], Quarantine) == Some(RESERVATION) && dirs[k].names[Quarantine] == q
      requires Found(k) && SawWrite(k)
      requires k !in noisy ==> Complete(specs[k]) && At(dirs[k], Target) == Some(After(specs[k])) && dirs[k].names[Target] == t
      modifies `dirs, `history, `owed, `moves, `noisy
      ensures Valid() && old(moves) <= moves && old(noisy) <= noisy && Only(k, old(dirs), dirs) && !r.Verified?
      ensures r.MayGoOn? ==> Quarantine in dirs[k].names
      ensures k !in noisy ==> r.MayGoOn? && InQuarantine(specs[k], dirs[k])
    {
      hide *;
      WellFormed(k);
      AtIs(dirs[k], Quarantine);
      AtIs(dirs[k], Target);
      SeenAndFound(k);
      ghost var before, earlier := dirs, moves;
      var same := SameEntry(k, Quarantine, q);
      Stays(k, before);
      if same.None? { return Broke; }
      if same == Some(false) { return Clash; }
      ghost var between := dirs;
      same := SameEntry(k, Target, t);
      Stays(k, between);
      OnlyOn(k, before, between, dirs);
      if same.None? { return Broke; }
      if same == Some(false) { return Clash; }
      StaysOn(first[k], before[k], between[k]);
      FoundStill(k, between);
      SawWriteStill(k, earlier);
      if k !in noisy { BackInPlace(specs[k], dirs[k]); }
      between := dirs;
      UnlinkReservation(k);
      OnlyOn(k, before, between, dirs);
      between := dirs;
      Sizes();
      var moved := QuarantineTarget(k);
      OnlyOn(k, before, between, dirs);
      return match moved case Done => MayGoOn case Occupied => Clash case Gone => Broke;
    }

    lemma FoundIs(k: nat)
      requires Found(k)
      ensures k < |first| && k < |dirs| && QuarantineStays(first[k], dirs[k])
    {
      hide QuarantineStays;
    }

    /** The turn's write is under the target name now. */
    lemma WriteIsSeen(k: nat)
      requires Valid() && k < |dirs| && k < |specs| && Complete(specs[k]) && DirOk(dirs[k]) && At(dirs[k], Target) == Some(After(specs[k]))
      ensures SawWrite(k)
    {
      NowSeen(k);
      hide TargetWas, Sound;
    }

    /** With a quarantine left by an earlier undo: the turn's write must be in it, or get there. */
    method ClaimFound(k: nat) returns (r: Claimed)
      requires Valid() && k < |dirs| && Found(k) && Complete(specs[k]) && (k !in noisy ==> Underway(specs[k], max, dirs[k]))
      requires Quarantine in dirs[k].names
      modifies `dirs, `history, `owed, `moves, `noisy
      ensures Valid() && old(moves) <= moves && old(noisy) <= noisy && Only(k, old(dirs), dirs) && !r.MayGoOn?
      ensures r.Verified? ==> At(dirs[k], Quarantine) == Some(After(specs[k])) && dirs[k].names[Quarantine] == r.ino
      ensures k !in noisy ==> r.Verified? && (At(dirs[k], Target) == None || At(dirs[k], Target) == Before(specs[k]))
    {
      hide *;
      WellFormed(k);
      FoundIs(k);
      if k !in noisy { UnderwaySights(specs[k], max, dirs[k]); }
      ghost var before := dirs;
      var q := ReadAt(k, Quarantine);
      Stays(k, before);
      SightIs(dirs[k], max, Quarantine);
      if q.TooLarge? { return Broke; }
      ghost var between := dirs;
      var t := ReadAt(k, Target);
      Stays(k, between);
      StaysOn(before[k], between[k], dirs[k]);
      OnlyOn(k, before, between, dirs);
      SightIs(dirs[k], max, Target);
      if t.TooLarge? { return Broke; }
      MatchIs(t, After(specs[k]));
      if q.file == RESERVATION && Matches(t, After(specs[k])) {
        StaysOn(first[k], before[k], dirs[k]);
        FoundStill(k, dirs);
        between := dirs;
        WriteIsSeen(k);
        r := MoveAgain(k, q.ino, t.ino);
        OnlyOn(k, before, between, dirs);
        if !r.MayGoOn? { return; }
        WellFormed(k);
        if k !in noisy { QuarantinedIs(specs[k], dirs[k]); }
      }
      between := dirs;
      q := ReadAt(k, Quarantine);
      Stays(k, between);
      OnlyOn(k, before, between, dirs);
      SightIs(dirs[k], max, Quarantine);
      MatchIs(q, After(specs[k]));
      return if Matches(q, After(specs[k])) then Verified(q.ino) else Clash;
    }

    /** With no quarantine yet: move the target there, and give it back when it is not the turn's write. */
    method ClaimFresh(k: nat) returns (r: Claimed)
      requires Valid() && k < |dirs| && Complete(specs[k]) && (k !in noisy ==> InPlace(specs[k], dirs[k]) && |After(specs[k]).bytes| <= max)
      requires Quarantine !in dirs[k].names
      modifies `dirs, `history, `owed, `moves, `noisy
      ensures Valid() && old(moves) <= moves && old(noisy) <= noisy && Only(k, old(dirs), dirs) && !r.MayGoOn?
      ensures r.Verified? ==> At(dirs[k], Quarantine) == Some(After(specs[k])) && dirs[k].names[Quarantine] == r.ino
      ensures k !in noisy ==> r.Verified? && At(dirs[k], Target) == None
      ensures !r.Verified? ==> Tidy(k)
    {
      hide *;
      ghost var before := dirs;
      var moved := QuarantineTarget(k);
      SameLength(k, before, dirs);
      WellFormed(k);
      if moved.Occupied? { return Clash; }
      if moved.Gone? {
        TidyNow(k);
        return Broke;
      }
      if k !in noisy { QuarantinedIs(specs[k], dirs[k]); }
      ghost var between := dirs;
      var q := ReadAt(k, Quarantine);
      Stays(k, between);
      OnlyOn(k, before, between, dirs);
      SightIs(dirs[k], max, Quarantine);
      MatchIs(q, After(specs[k]));
      if Matches(q, After(specs[k])) { return Verified(q.ino); }
      between := dirs;
      RestoreQuarantine(k);
      OnlyOn(k, before, between, dirs);
      return Clash;
    }

    /** Get the turn's write into quarantine and verify it there, whatever an earlier undo has done. */
    method Claim(k: nat) returns (r: Claimed, resumed: bool)
      requires Valid() && k < |dirs| && Found(k) && Complete(specs[k]) && (k !in noisy ==> Underway(specs[k], max, dirs[k]))
      modifies `dirs, `history, `owed, `moves, `noisy
      ensures Valid() && old(moves) <= moves && old(noisy) <= noisy && Only(k, old(dirs), dirs) && !r.MayGoOn?
      ensures r.Verified? ==> At(dirs[k], Quarantine) == Some(After(specs[k])) && dirs[k].names[Quarantine] == r.ino
      ensures k !in noisy ==> r.Verified?
      ensures k !in noisy ==> At(dirs[k], Target) == None || (resumed && At(dirs[k], Target) == Before(specs[k]))
      ensures !resumed && !r.Verified? ==> Tidy(k)
      ensures k < |first| && (resumed ==> Quarantine in first[k].names)
    {
      hide *;
      FoundIs(k);
      WellFormed(k);
      if k !in noisy { UnderwaySights(specs[k], max, dirs[k]); }
      AtIs(dirs[k], Quarantine);
      ghost var before := dirs;
      resumed := NameExists(k, Quarantine);
      Stays(k, before);
      StaysOn(first[k], before[k], dirs[k]);
      SameName(first[k], dirs[k]);
      ghost var between := dirs;
      if resumed {
        FoundStill(k, dirs);
        r := ClaimFound(k);
      } else {
        if k !in noisy { FreshIsInPlace(specs[k], max, dirs[k]); }
        r := ClaimFresh(k);
      }
      OnlyOn(k, before, between, dirs);
    }

    /** After an unexpected error, give back whatever is in quarantine. */
    method GiveBack(k: nat)
      requires Valid() && k < |dirs| && k in noisy
      modifies `dirs, `history, `owed, `moves, `noisy
      ensures Valid() && old(moves) <= moves && old(noisy) <= noisy && Only(k, old(dirs), dirs)
      ensures Tidy(k)
    {
      hide *;
      ghost var before := dirs;
      var found := NameExists(k, Quarantine);
      SameLength(k, before, dirs);
      Sizes();
      if found {
        ghost var between := dirs;
        RestoreQuarantine(k);
        OnlyOn(k, before, between, dirs);
      } else {
        TidyNow(k);
      }
    }

    /** A result that is not well asks for nothing. */
    lemma NotWell(k: nat)
      requires Valid() && k < |dirs|
      ensures Reached(k, Conflicted) && Reached(k, UndoFailed)
    {
      Sizes();
      hide BaselineSeen, Sound;
    }

    /** The baseline was under the target name. */
    lemma WasThere(k: nat, earlier: seq<Move>, v: Verdict)
      requires k < |specs| && k < |first| && Complete(specs[k]) && TargetWas(first, earlier, k, Before(specs[k])) && earlier <= moves
      requires if specs[k].existedBefore then v in {Restored, AlreadyRestored} else v in {Deleted, AlreadyDeleted}
      requires (v.Restored? ==> Installed(moves, k)) && (v.Deleted? ==> Cleared(moves, k))
      ensures Reached(k, v)
    {
      TargetWasLater(first, earlier, moves, k, Before(specs[k]));
      hide TargetWas;
    }

    /** An earlier undo got this far: the baseline may be in place already. */
    method FinishResumed(k: nat, ino: Ino, t: Sight) returns (v: Verdict)
      requires Valid() && k < |dirs| && Complete(specs[k]) && specs[k].existedBefore && t.Seen?
      requires At(dirs[k], Quarantine) == Some(After(specs[k])) && dirs[k].names[Quarantine] == ino
      requires k !in noisy ==> At(dirs[k], Target) == Before(specs[k]) == Some(t.file)
      requires k < |first| && TargetWas(first, moves, k, Some(t.file))
      modifies `dirs, `history, `owed, `moves, `noisy
      ensures Valid() && old(moves) <= moves && old(noisy) <= noisy && Only(k, old(dirs), dirs) && Reached(k, v)
      ensures v in {Restored, AlreadyRestored, Deleted, AlreadyDeleted, Conflicted, UndoFailed}
      ensures k !in noisy ==> v.AlreadyRestored? && AtBaseline(specs[k], dirs[k])
      ensures v in {AlreadyRestored, Conflicted, UndoFailed}
    {
      hide *;
      WellFormed(k);
      NotWell(k);
      OnlySame(k, dirs);
      if Some(t.file) != Before(specs[k]) { return Conflicted; }
      AtIs(dirs[k], Quarantine);
      ghost var before, earlier := dirs, moves;
      var same := SameEntry(k, Quarantine, ino);
      Stays(k, before);
      NotWell(k);
      if same != Some(true) { return if same.None? then UndoFailed else Conflicted; }
      Sizes();
      DropVerified(specs[k], dirs[k], owed[k]);
      if k !in noisy { DroppedIs(specs[k], dirs[k]); }
      ghost var between := dirs;
      var _ := UnlinkQuarantine(k);
      OnlyOn(k, before, between, dirs);
      WasThere(k, earlier, AlreadyRestored);
      return AlreadyRestored;
    }

    /**
     With the verified file still in quarantine, link the written temporary file under the target name; drop it in any
     case, and after a link the quarantine too.
     */
    method LinkAndClear(k: nat, temp: Name, same: Option<bool>) returns (v: Verdict)
      requires Valid() && k < |dirs| && Complete(specs[k]) && specs[k].existedBefore
      requires At(dirs[k], Quarantine) == Some(After(specs[k])) && temp.Temp? && temp in dirs[k].names
      requires At(dirs[k], temp) == Before(specs[k]) && (k !in noisy ==> At(dirs[k], Target) == None && same == Some(true))
      modifies `dirs, `history, `owed, `moves, `noisy
      ensures Valid() && old(moves) <= moves && old(noisy) <= noisy && Only(k, old(dirs), dirs) && Reached(k, v)
      ensures v in {Restored, Conflicted, UndoFailed}
      ensures k !in noisy ==> v.Restored? && AtBaseline(specs[k], dirs[k])
      ensures Tidy(k)
    {
      hide *;
      WellFormed(k);
      ghost var before, debts := dirs, owed;
      if k !in noisy { LinkedRestores(specs[k], dirs[k], temp); }
      var installed := false;
      ghost var mid;
      if same == Some(true) {
        installed, mid := LinkTemp(k, temp);
        Remains(k, before);
        if installed { LinkedIs(k, before, dirs, debts, owed, mid, temp, k in noisy); }
      }
      NowSeen(k);
      ghost var between, earlier := dirs, moves;
      var _ := UnlinkTemp(k, temp);
      Remains(k, between);
      OnlyOn(k, before, between, dirs);
      NotWell(k);
      TidyNow(k);
      if !installed { return if same.None? then UndoFailed else Conflicted; }
      Sizes();
      DropVerified(specs[k], dirs[k], owed[k]);
      if k !in noisy {
        ClearedStays(between[k], temp);
        DroppedIs(specs[k], dirs[k]);
      }
      between := dirs;
      var _ := UnlinkQuarantine(k);
      OnlyOn(k, before, between, dirs);
      Sizes();
      TidyNow(k);
      InstalledLater(earlier, moves, k);
      WasThere(k, earlier, Restored);
      return Restored;
    }

    /** Install the baseline from a temporary file, then drop the verified quarantine. */
    method Install(k: nat, ino: Ino) returns (v: Verdict)
      requires Valid() && k < |dirs| && Complete(specs[k]) && specs[k].existedBefore
      requires At(dirs[k], Quarantine) == Some(After(specs[k])) && dirs[k].names[Quarantine] == ino
      requires k !in noisy ==> At(dirs[k], Target) == None
      modifies `dirs, `history, `owed, `moves, `noisy
      ensures Valid() && old(moves) <= moves && old(noisy) <= noisy && Only(k, old(dirs), dirs) && Reached(k, v)
      ensures v in {Restored, Conflicted, UndoFailed}
      ensures k !in noisy ==> v.Restored? && AtBaseline(specs[k], dirs[k])
      ensures Tidy(k)
    {
      hide *;
      WellFormed(k);
      AtIs(dirs[k], Quarantine);
      BeforeIs(specs[k]);
      ghost var before := dirs;
      var same := SameEntry(k, Quarantine, ino);
      Stays(k, before);
      NotWell(k);
      TidyNow(k);
      if same != Some(true) { return Conflicted; }
      ghost var between := dirs;
      var temp, mid := WriteTemp(k, Before(specs[k]).value);
      Remains(k, between);
      OnlyOn(k, before, between, dirs);
      TempElsewhere(between[k], temp, Before(specs[k]).value);
      ghost var debts := owed;
      between := dirs;
      same := SameEntry(k, Quarantine, ino);
      Stays(k, between);
      OnlyOn(k, before, between, dirs);
      TempStays(k, between, dirs, debts, owed, mid, temp, Before(specs[k]).value, k in noisy);
      between := dirs;
      v := LinkAndClear(k, temp, same);
      OnlyOn(k, before, between, dirs);
    }

    /** Give the quarantined file back after an unexpected error, which is the result. */
    method GiveUpOn(k: nat, ghost before: Dirs) returns (v: Verdict)
      requires Valid() && k < |dirs| && k in noisy && Only(k, before, dirs)
      modifies `dirs, `history, `owed, `moves, `noisy
      ensures Valid() && old(moves) <= moves && old(noisy) <= noisy && Only(k, before, dirs) && Reached(k, v) && v.UndoFailed?
      ensures Tidy(k)
    {
      hide *;
      ghost var between := dirs;
      GiveBack(k);
      OnlyOn(k, before, between, dirs);
      SameLength(k, between, dirs);
      NotWell(k);
      return UndoFailed;
    }

    /** Put the baseline back: `_atomic_restore`. */
    method AtomicRestore(k: nat) returns (v: Verdict)
      requires Valid() && k < |dirs| && Found(k) && Complete(specs[k]) && specs[k].existedBefore
      requires k !in noisy ==> Underway(specs[k], max, dirs[k])
      modifies `dirs, `history, `owed, `moves, `noisy
      ensures Valid() && old(moves) <= moves && old(noisy) <= noisy && Only(k, old(dirs), dirs) && Reached(k, v)
      ensures v in {Restored, AlreadyRestored, Deleted, AlreadyDeleted, Conflicted, UndoFailed}
      ensures k !in noisy ==> v in {Restored, AlreadyRestored} && AtBaseline(specs[k], dirs[k])
      ensures Tidy(k)
    {
      hide *;
      Sizes();
      if k !in noisy { UnderwaySights(specs[k], max, dirs[k]); }
      BeforeIs(specs[k]);
      ghost var before := dirs;
      var claim, resumed := Claim(k);
      Sizes();
      SameLength(k, before, dirs);
      NotWell(k);
      if resumed { TidyNow(k); }
      if claim.Clash? { return Conflicted; }
      if claim.Broke? {
        v := GiveUpOn(k, before);
        return;
      }
      ghost var between := dirs;
      WellFormed(k);
      AtIs(dirs[k], Quarantine);
      if resumed {
        var t := ReadAt(k, Target);
        Stays(k, between);
        OnlyOn(k, before, between, dirs);
        SightIs(dirs[k], max, Target);
        if t.TooLarge? {
          v := GiveUpOn(k, before);
          return;
        }
        between := dirs;
        if t.Seen? {
          NowSeen(k);
          v := FinishResumed(k, claim.ino, t);
          OnlyOn(k, before, between, dirs);
          Sizes();
          SameLength(k, before, dirs);
          TidyNow(k);
          return;
        }
      }
      v := Install(k, claim.ino);
      OnlyOn(k, before, between, dirs);
    }

    /** Remove the verified quarantine, unless its target has been created again. */
    method DropClaimed(k: nat, ino: Ino) returns (v: Verdict)
      requires Valid() && k < |dirs| && Complete(specs[k]) && !specs[k].existedBefore
      requires At(dirs[k], Quarantine) == Some(After(specs[k])) && dirs[k].names[Quarantine] == ino
      requires k !in noisy ==> At(dirs[k], Target) == None
      modifies `dirs, `history, `owed, `moves, `noisy
      ensures Valid() && old(moves) <= moves && old(noisy) <= noisy && Only(k, old(dirs), dirs) && Reached(k, v)
      ensures v in {Restored, AlreadyRestored, Deleted, AlreadyDeleted, Conflicted, UndoFailed}
      ensures k !in noisy ==> v.Deleted? && AtBaseline(specs[k], dirs[k])
      ensures Tidy(k)
    {
      hide *;
      WellFormed(k);
      AtIs(dirs[k], Quarantine);
      BeforeIs(specs[k]);
      ghost var before := dirs;
      var same := SameEntry(k, Quarantine, ino);
      Stays(k, before);
      NotWell(k);
      TidyNow(k);
      if same != Some(true) { return Conflicted; }
      ghost var between := dirs;
      var taken := NameExists(k, Target);
      Stays(k, between);
      OnlyOn(k, before, between, dirs);
      NotWell(k);
      AtIs(dirs[k], Target);
      TidyNow(k);
      if taken { return Conflicted; }
      NowSeen(k);
      ghost var earlier := moves;
      Sizes();
      DropVerified(specs[k], dirs[k], owed[k]);
      if k !in noisy { DroppedIs(specs[k], dirs[k]); }
      between := dirs;
      var _ := UnlinkQuarantine(k);
      OnlyOn(k, before, between, dirs);
      Sizes();
      TidyNow(k);
      WasThere(k, earlier, Deleted);
      return Deleted;
    }

    /** Remove a file that the turn created: `_verified_delete`. */
    method VerifiedDelete(k: nat) returns (v: Verdict)
      requires Valid() && k < |dirs| && Found(k) && Complete(specs[k]) && !specs[k].existedBefore
      requires k !in noisy ==> Underway(specs[k], max, dirs[k])
      modifies `dirs, `history, `owed, `moves, `noisy
      ensures Valid() && old(moves) <= moves && old(noisy) <= noisy && Only(k, old(dirs), dirs) && Reached(k, v)
      ensures v in {Restored, AlreadyRestored, Deleted, AlreadyDeleted, Conflicted, UndoFailed}
      ensures k !in noisy ==> v.Deleted? && AtBaseline(specs[k], dirs[k])
      ensures Tidy(k)
    {
      hide *;
      Sizes();
      BeforeIs(specs[k]);
      ghost var before := dirs;
      var claim, resumed := Claim(k);
      SameLength(k, before, dirs);
      NotWell(k);
      Sizes();
      if resumed { TidyNow(k); }
      if claim.Clash? { return Conflicted; }
      if claim.Broke? { return UndoFailed; }
      ghost var between := dirs;
      WellFormed(k);
      AtIs(dirs[k], Quarantine);
      AtIs(dirs[k], Target);
      if resumed {
        var taken := NameExists(k, Target);
        Stays(k, between);
        OnlyOn(k, before, between, dirs);
        NotWell(k);
        TidyNow(k);
        if taken { return Conflicted; }
        between := dirs;
      }
      v := DropClaimed(k, claim.ino);
      OnlyOn(k, before, between, dirs);
    }

    /** What is under the target name now has been there. */
    lemma NowSeen(k: nat)
      requires Valid() && k < |dirs|
      ensures k < |first| && DirOk(dirs[k]) && TargetWas(first, moves, k, At(dirs[k], Target))
    {
      SeenNow(specs, interference, first, dirs, history, moves, owed, noisy, k);
    }

    /** A verdict that the file is well has a moment of the run when the target was at its baseline. */
    ghost predicate Reached(k: nat, v: Verdict)
      reads this
    {
      k < |specs| && ReachedBy(specs[k], first, moves, k, v)
    }

    lemma OthersSame(before: Dirs, between: Dirs, now: Dirs, k: nat)
      requires Only(k, before, between) && Only(k, between, now)
      ensures |now| == |before| && forall j :: 0 <= j < |now| && j != k ==> now[j] == before[j]
    {
    }

    /** What a verdict of the first look means, when the file was `before` then. */
    ghost predicate LookedAt(before: Dirs, verdicts: seq<Verdict>, k: nat)
      reads this
    {
      && k < |specs| && k < |before| && k < |dirs| && k < |verdicts|
      && LookGave(specs[k], max, first, moves, k !in noisy, before[k], dirs[k], verdicts[k], k)
    }

    lemma LookedNow(before: Dirs, verdicts: seq<Verdict>, k: nat, q: Sight, t: Sight)
      requires Valid() && k < |dirs| && |before| == |dirs| && |verdicts| == k + 1
      requires k !in noisy ==> dirs[k] == before[k] && q == Look(dirs[k], max, Quarantine)
      requires t == Look(dirs[k], max, Target) && k < |specs| && verdicts[k] == Judge(specs[k], max, q, t)
      ensures LookedAt(before, verdicts, k)
    {
      WellFormed(k);
      NowSeen(k);
      JudgeOutcomes(specs[k], max, q, t);
      JudgeSees(specs[k], max, dirs[k], q, t);
      hide Judge, TargetWas, Sound, DirOk;
    }

    lemma LookedStill(before: Dirs, then_: Dirs, earlier: seq<Move>, quiet: set<nat>, verdicts: seq<Verdict>, more: seq<Verdict>, k: nat)
      requires k < |specs| && k < |before| && k < |then_| && k < |dirs| && k < |verdicts| && k < |more|
      requires more[k] == verdicts[k] && dirs[k] == then_[k] && earlier <= moves && quiet <= noisy
      requires LookGave(specs[k], max, first, earlier, k !in quiet, before[k], then_[k], verdicts[k], k)
      ensures LookedAt(before, more, k)
    {
      LookGaveLater(specs[k], max, first, earlier, moves, k !in quiet, k !in noisy, before[k], dirs[k], verdicts[k], k);
      hide LookGave;
    }

    /** The first look at every file, before any is touched. */
    method Preflight() returns (verdicts: seq<Verdict>)
      requires Valid()
      modifies `dirs, `history, `owed, `moves, `noisy
      ensures Valid() && old(moves) <= moves && old(noisy) <= noisy && |verdicts| == |dirs| == |old(dirs)|
      ensures StayFrom(old(dirs), dirs, 0) && (OnlyOthers(old(moves)) ==> OnlyOthers(moves))
      ensures forall k :: 0 <= k < |verdicts| ==> LookedAt(old(dirs), verdicts, k)
    {
      NothingMoved(dirs);
      Sizes();
      hide *;
      verdicts := [];
      for k := 0 to |specs|
        invariant Valid() && old(moves) <= moves && old(noisy) <= noisy && |verdicts| == k && |dirs| == |old(dirs)| == |specs|
        invariant StayFrom(old(dirs), dirs, 0) && (OnlyOthers(old(moves)) ==> OnlyOthers(moves))
        invariant forall j :: k <= j < |dirs| ==> dirs[j] == old(dirs)[j]
        invariant forall j :: 0 <= j < k ==> LookedAt(old(dirs), verdicts, j)
      {
        verdicts := LookAt(k, verdicts, old(dirs));
      }
    }

    lemma Sizes()
      requires Valid()
      ensures |dirs| == |specs| == |first| == |owed|
    {
      hide StateAfter, OwedBy, Careful, AllHarmless, Noise, Kept;
    }

    method LookAt(k: nat, verdicts: seq<Verdict>, ghost first_: Dirs) returns (more: seq<Verdict>)
      requires Valid() && |verdicts| == k < |dirs| == |first_| && StayFrom(first_, dirs, 0)
      requires forall j :: k <= j < |dirs| ==> dirs[j] == first_[j]
      requires forall j :: 0 <= j < k ==> LookedAt(first_, verdicts, j)
      modifies `dirs, `history, `owed, `moves, `noisy
      ensures Valid() && old(moves) <= moves && old(noisy) <= noisy && |more| == k + 1 && |dirs| == |old(dirs)| && StayFrom(first_, dirs, 0)
      ensures OnlyOthers(old(moves)) ==> OnlyOthers(moves)
      ensures forall j :: k + 1 <= j < |dirs| ==> dirs[j] == first_[j]
      ensures forall j :: 0 <= j < k + 1 ==> LookedAt(first_, more, j)
    {
      ghost var before, earlier, quiet := dirs, moves, noisy;
      Sizes();
      LookedParts(first_, verdicts, k);
      hide *;
      var q := ReadAt(k, Quarantine);
      ghost var between := dirs;
      var t := ReadAt(k, Target);
      Sizes();
      OthersSame(before, between, dirs, k);
      StaysAre(before[k], between[k]);
      StaysAre(between[k], dirs[k]);
      StayOn(first_, before, between, k);
      StayOn(first_, between, dirs, k);
      more := verdicts + [Judge(specs[k], max, q, t)];
      LookedNow(first_, more, k, q, t);
      forall j | 0 <= j < k ensures LookedAt(first_, more, j) {
        LookedStill(first_, before, earlier, quiet, verdicts, more, j);
      }
    }

    lemma LookedParts(first_: Dirs, verdicts: seq<Verdict>, n: nat)
      requires n <= |verdicts| && n <= |dirs| == |specs| == |first_|
      requires forall j :: 0 <= j < n ==> LookedAt(first_, verdicts, j)
      ensures forall j :: 0 <= j < n ==> LookGave(specs[j], max, first, moves, j !in noisy, first_[j], dirs[j], verdicts[j], j)
    {
      hide LookGave;
      forall j | 0 <= j < n ensures LookGave(specs[j], max, first, moves, j !in noisy, first_[j], dirs[j], verdicts[j], j) {
        assert LookedAt(first_, verdicts, j);
      }
    }

    lemma QuietIs(k: nat)
      requires Valid() && k < |dirs| && k !in noisy
      ensures k < |specs| && Complete(specs[k]) && DirOk(dirs[k]) && Recoverable(specs[k], dirs[k])
    {
      MayMeddle(k);
      hide Sound, Recoverable, DirOk, Complete;
    }

    /** Undo one file after the first look at all of them. */
    method UndoFile(k: nat, verdict: Verdict) returns (v: Verdict)
      requires Valid() && k < |dirs| && Found(k) && (verdict.Eligible? ==> Complete(specs[k]))
      requires verdict in {Eligible, AlreadyRestored, AlreadyDeleted} && Reached(k, verdict)
      requires k !in noisy ==> verdict == Judge(specs[k], max, Look(dirs[k], max, Quarantine), Look(dirs[k], max, Target))
      modifies `dirs, `history, `owed, `moves, `noisy
      ensures Valid() && old(moves) <= moves && old(noisy) <= noisy && Only(k, old(dirs), dirs) && Reached(k, v)
      ensures v in {Restored, AlreadyRestored, Deleted, AlreadyDeleted, Conflicted, UndoFailed}
      ensures k !in noisy ==> Fine(v) && Complete(specs[k]) && AtBaseline(specs[k], dirs[k])
      ensures Tidy(k)
    {
      hide *;
      Sizes();
      TidyFound(k);
      if !verdict.Eligible? {
        WellFormed(k);
        OnlySame(k, dirs);
        if k !in noisy {
          QuietIs(k);
          AlreadyIs(specs[k], max, dirs[k]);
        }
        return verdict;
      }
      if k !in noisy {
        QuietIs(k);
        EligibleIsUnderway(specs[k], max, dirs[k]);
      }
      if specs[k].existedBefore {
        v := AtomicRestore(k);
      } else {
        v := VerifiedDelete(k);
      }
      Sizes();
      FineIs(v);
    }

    /** Without interference a crash is harmless in every state so far. */
    lemma CrashIsHarmless(h: Dirs)
      requires Valid() && !interference && h in history
      ensures AllRecoverable(specs, h)
    {
      hide Lawful, StateAfter, OwedBy, Careful, Noise, Kept, DirOk;
      assert |h| == |specs|;
      forall k | 0 <= k < |specs| ensures Lawful(specs[k], h[k]) {}
      LawfulIsRecoverable(specs, h);
    }

    lemma PresentIsLast()
      requires Valid()
      ensures dirs in history
    {
      hide Told, Noise, Kept, AllHarmless, DirOk;
    }

    /** What the fields say of the moves. */
    lemma Accounted()
      requires Valid()
      ensures |first| == |specs| && dirs == StateAfter(first, moves)
      ensures Careful(specs, first, moves) && NothingLost(specs, first, moves)
    {
      hide Kept, StateAfter, OwedBy, Careful, NothingLost;
      AllKeptLosesNothing(specs, first, moves);
    }

    /** The files from `k` on wait to be undone, and those before it are done. */
    ghost predicate Between(results: seq<Verdict>, k: nat)
      reads this
    {
      && |results| == |dirs| == |specs| == |first| && StayFrom(first, dirs, k)
      && (forall j :: k <= j < |specs| ==> Pends(specs[j], max, first, moves, j !in noisy, dirs[j], results[j], j))
      && forall j :: 0 <= j < k && j < |specs| ==> Undone(specs[j], first, moves, j !in noisy, dirs[j], results[j], j)
    }

    lemma NextPends(results: seq<Verdict>, k: nat)
      requires Valid() && Between(results, k) && k < |specs|
      ensures Found(k) && Pends(specs[k], max, first, moves, k !in noisy, dirs[k], results[k], k) && |results| == |dirs| == |specs| == |first|
      ensures StayFrom(first, dirs, k)
    {
      hide Sound, Pends, Undone, QuarantineStays;
      FoundNext(k);
    }

    /** Undo the next file. */
    method UndoNext(k: nat, results: seq<Verdict>) returns (more: seq<Verdict>)
      requires Valid() && Between(results, k) && k < |specs|
      modifies `dirs, `history, `owed, `moves, `noisy
      ensures Valid() && old(moves) <= moves && old(noisy) <= noisy && Between(more, k + 1)
    {
      NextPends(results, k);
      PendsIs(specs[k], max, first, moves, k !in noisy, dirs[k], results[k], k);
      ghost var before, earlier, quiet := dirs, moves, noisy;
      BetweenParts(results, k);
      hide *;
      ReachedIs(k, results[k]);
      var v := UndoFile(k, results[k]);
      more := results[k := v];
      StayBehind(first, before, dirs, k);
      ReachedMeans(k, v);
      TidyMeans(k);
      NowUndone(k, v);
      StillBetween(results, more, k, before, earlier, quiet);
    }

    lemma BetweenParts(results: seq<Verdict>, k: nat)
      requires Between(results, k)
      ensures forall j :: k <= j < |specs| ==>
                j < |dirs| && j < |results| && j < |first| && Pends(specs[j], max, first, moves, j !in noisy, dirs[j], results[j], j)
      ensures forall j :: 0 <= j < k && j < |specs| ==>
                j < |dirs| && j < |results| && j < |first| && Undone(specs[j], first, moves, j !in noisy, dirs[j], results[j], j)
    {
      hide Pends, Undone;
    }

    lemma ReachedIs(k: nat, v: Verdict)
      requires k < |specs| && ReachedBy(specs[k], first, moves, k, v)
      ensures Reached(k, v)
    {
      hide ReachedBy;
    }

    lemma ReachedMeans(k: nat, v: Verdict)
      requires Reached(k, v)
      ensures k < |specs| && ReachedBy(specs[k], first, moves, k, v)
    {
      hide ReachedBy;
    }

    lemma TidyMeans(k: nat)
      requires Tidy(k)
      ensures k < |specs| && k < |dirs| && Tidied(specs[k], first, moves, k, dirs[k])
    {
      hide Tidied;
    }

    lemma NowUndone(k: nat, v: Verdict)
      requires Valid() && k < |specs| && k < |dirs| && ReachedBy(specs[k], first, moves, k, v)
      requires v in {Restored, AlreadyRestored, Deleted, AlreadyDeleted, Conflicted, UndoFailed}
      requires k !in noisy ==> Fine(v) && Complete(specs[k]) && AtBaseline(specs[k], dirs[k])
      requires Tidied(specs[k], first, moves, k, dirs[k])
      ensures DirOk(dirs[k]) && Undone(specs[k], first, moves, k !in noisy, dirs[k], v, k)
    {
      hide ReachedBy, Told, AtBaseline, Kept, Noise, AllHarmless, Tidied;
    }

    lemma StillBetween(results: seq<Verdict>, more: seq<Verdict>, k: nat, before: Dirs, earlier: seq<Move>, quiet: set<nat>)
      requires k < |specs| == |results| == |more| == |dirs| == |first| && Only(k, before, dirs) && earlier <= moves && quiet <= noisy
      requires forall j :: k < j < |specs| ==> Pends(specs[j], max, first, earlier, j !in quiet, before[j], results[j], j)
      requires forall j :: 0 <= j < k ==> Undone(specs[j], first, earlier, j !in quiet, before[j], results[j], j)
      requires StayFrom(first, dirs, k + 1) && more == results[k := more[k]] && Undone(specs[k], first, moves, k !in noisy, dirs[k], more[k], k)
      ensures Between(more, k + 1)
    {
      hide Pends, Undone, StayFrom;
      forall j | k + 1 <= j < |specs| ensures Pends(specs[j], max, first, moves, j !in noisy, dirs[j], more[j], j) {
        PendsLater(specs[j], max, first, earlier, moves, j !in quiet, j !in noisy, dirs[j], more[j], j);
      }
      forall j | 0 <= j < k + 1 ensures Undone(specs[j], first, moves, j !in noisy, dirs[j], more[j], j) {
        if j < k { UndoneLater(specs[j], first, earlier, moves, j !in quiet, j !in noisy, dirs[j], more[j], j); }
      }
    }

    /**
     Undo a turn: nothing is touched if one file is rejected, otherwise every file is undone. Whatever others do, a file
     that is reported well was at its baseline at some moment of the run, and one that is not was found so or disturbed.
     */
    method UndoTurn() returns (status: UndoStatus, results: seq<Verdict>)
      requires Valid() && dirs == first && moves == []
      modifies `dirs, `history, `owed, `moves, `noisy
      ensures Valid() && old(moves) <= moves && old(noisy) <= noisy && |results| == |specs| && status == ReduceStatus(results)
      ensures dirs == StateAfter(first, moves) && |first| == |specs| && Careful(specs, first, moves) && NothingLost(specs, first, moves)
      ensures AllReported(specs, max, first, moves, dirs, results)
      ensures !interference ==> (status.UndoSucceeded? <==> !AnyRejected(specs, max, old(dirs)))
      ensures !interference && status.UndoSucceeded? ==> forall k :: 0 <= k < |specs| ==> Complete(specs[k]) && AtBaseline(specs[k], dirs[k])
      ensures !interference && !status.UndoSucceeded? ==> status.UndoConflict? && dirs == old(dirs)
    {
      hide *;
      Sizes();
      NothingYet(moves);
      results := Preflight();
      Sizes();
      if exists k :: 0 <= k < |results| && Rejected(results[k]) {
        results := GiveUp(results);
        status := ReduceStatus(results);
        Accounted();
        return;
      }
      StartUndoing(results);
      for k := 0 to |specs|
        invariant Valid() && old(moves) <= moves && old(noisy) <= noisy && Between(results, k)
      {
        results := UndoNext(k, results);
      }
      Accounted();
      status := ReduceStatus(results);
      AllDone(results);
    }

    /** One file is rejected: nothing is touched. */
    method GiveUp(verdicts: seq<Verdict>) returns (results: seq<Verdict>)
      requires Valid() && |verdicts| == |dirs| == |specs| == |first| && exists k :: 0 <= k < |verdicts| && Rejected(verdicts[k])
      requires forall j :: 0 <= j < |verdicts| ==> LookedAt(first, verdicts, j)
      requires OnlyOthers(moves) && StayFrom(first, dirs, 0)
      ensures |results| == |specs| && ReduceStatus(results).UndoConflict? && AllReported(specs, max, first, moves, dirs, results)
      ensures !interference ==> dirs == first && AnyRejected(specs, max, first)
    {
      results := seq(|verdicts|, k requires 0 <= k < |verdicts| => if Rejected(verdicts[k]) then verdicts[k] else NotModified);
      Aborted(verdicts);
      Sizes();
      forall k | 0 <= k < |specs| ensures Reported(specs[k], max, first, moves, dirs[k], results[k], k) { GivenUpReported(verdicts, k); }
      Fields();
      if !interference { NothingDone(verdicts); }
      hide Reported;
    }

    lemma Fields()
      requires Valid()
      ensures AllOk(first) && AllOk(dirs) && |first| == |specs| && (!interference ==> noisy == {})
    {
      hide Told, Kept, Noise, AllHarmless;
      Sizes();
    }

    lemma NothingDone(verdicts: seq<Verdict>)
      requires Valid() && |verdicts| == |dirs| == |specs| == |first| && exists k :: 0 <= k < |verdicts| && Rejected(verdicts[k])
      requires forall j :: 0 <= j < |verdicts| ==> LookedAt(first, verdicts, j)
      requires !interference
      ensures dirs == first && AllOk(first) && AnyRejected(specs, max, first)
    {
      hide *;
      Fields();
      Sizes();
      LookedParts(first, verdicts, |verdicts|);
      forall k | 0 <= k < |specs|
        ensures dirs[k] == first[k] && DirOk(first[k]) && verdicts[k] == Judge(specs[k], max, Look(first[k], max, Quarantine), Look(first[k], max, Target))
      {
        WellFormed(k);
        QuietLook(specs[k], max, first, moves, first[k], dirs[k], verdicts[k], k);
      }
      SomeRejected(specs, max, first, verdicts);
    }

    lemma GivenUpReported(verdicts: seq<Verdict>, k: nat)
      requires Valid() && k < |verdicts| && k < |specs| && LookedAt(first, verdicts, k) && k < |first| && DirOk(dirs[k])
      requires OnlyOthers(moves) && QuarantineStays(first[k], dirs[k])
      ensures Reported(specs[k], max, first, moves, dirs[k], if Rejected(verdicts[k]) then verdicts[k] else NotModified, k)
    {
      NoisyMeans(k);
      hide Judge, BaselineSeen, Valid, Lawful, Disturbed, OnlyOthers, Installed, Cleared, Beside, HoldsWrite;
    }

    lemma NoisyIs()
      requires Valid()
      ensures |first| == |specs| && noisy == Noise(specs, first, moves)
    {
      hide StateAfter, OwedBy, Careful, AllHarmless, Noise, Kept;
    }

    lemma FirstIsOk(k: nat)
      requires Valid() && k < |specs|
      ensures k < |first| && DirOk(first[k])
    {
      hide StateAfter, OwedBy, Careful, AllHarmless, Noise, Kept, DirOk;
    }

    /** Why a file is noisy. */
    lemma NoisyMeans(k: nat)
      requires Valid() && k < |specs|
      ensures k < |first| && DirOk(first[k]) && (k in noisy <==> !Lawful(specs[k], first[k]) || Disturbed(moves, k))
      ensures !Lawful(specs[k], first[k]) ==> Rejected(Judge(specs[k], max, Look(first[k], max, Quarantine), Look(first[k], max, Target)))
    {
      hide *;
      NoisyIs();
      Fields();
      FirstIsOk(k);
      NoiseIs(specs, first, moves, k);
      if !Lawful(specs[k], first[k]) { LawlessIsRejected(specs[k], max, first[k]); }
    }

    lemma IsBetween(verdicts: seq<Verdict>)
      requires |verdicts| == |dirs| == |specs| == |first| && StayFrom(first, dirs, 0)
      requires forall j :: 0 <= j < |specs| ==> Pends(specs[j], max, first, moves, j !in noisy, dirs[j], verdicts[j], j)
      ensures Between(verdicts, 0)
    {
      hide Pends, StayFrom, Undone;
    }

    lemma StartUndoing(verdicts: seq<Verdict>)
      requires Valid() && |verdicts| == |dirs| == |specs| == |first| && StayFrom(first, dirs, 0)
      requires forall j :: 0 <= j < |verdicts| ==> LookedAt(first, verdicts, j)
      requires !exists k :: 0 <= k < |verdicts| && Rejected(verdicts[k])
      ensures Between(verdicts, 0) && AllOk(first) && (!interference ==> !AnyRejected(specs, max, first))
    {
      hide *;
      LookedParts(first, verdicts, |verdicts|);
      forall j | 0 <= j < |specs| ensures Pends(specs[j], max, first, moves, j !in noisy, dirs[j], verdicts[j], j) {
        WellFormed(j);
        NowPends(specs[j], max, first, moves, j !in noisy, first[j], dirs[j], verdicts[j], j);
      }
      IsBetween(verdicts);
      Fields();
      if !interference {
        forall k | 0 <= k < |specs|
          ensures dirs[k] == first[k] && DirOk(first[k]) && verdicts[k] == Judge(specs[k], max, Look(first[k], max, Quarantine), Look(first[k], max, Target))
        {
          WellFormed(k);
          QuietLook(specs[k], max, first, moves, first[k], dirs[k], verdicts[k], k);
        }
        SomeRejected(specs, max, first, verdicts);
      }
    }

    lemma BetweenLengths(results: seq<Verdict>)
      requires Between(results, |specs|)
      ensures |results| == |dirs| == |specs| == |first|
    {
      hide Pends, StayFrom, Undone;
    }

    /** All files are done. */
    lemma AllDone(results: seq<Verdict>)
      requires Valid() && Between(results, |specs|)
      ensures |results| == |specs| && AllReported(specs, max, first, moves, dirs, results)
      ensures !interference ==> ReduceStatus(results).UndoSucceeded?
      ensures !interference ==> forall k :: 0 <= k < |specs| ==> Complete(specs[k]) && AtBaseline(specs[k], dirs[k])
    {
      hide *;
      BetweenLengths(results);
      BetweenParts(results, |specs|);
      Fields();
      forall k | 0 <= k < |specs|
        ensures DirOk(first[k]) && DirOk(dirs[k]) && Reported(specs[k], max, first, moves, dirs[k], results[k], k)
      {
        FirstIsOk(k);
        WellFormed(k);
        UndoneReported(results[k], k);
      }
      AllReportedIs(specs, max, first, moves, dirs, results);
      if !interference {
        forall k | 0 <= k < |specs| ensures Fine(results[k]) && Complete(specs[k]) && DirOk(dirs[k]) && AtBaseline(specs[k], dirs[k]) {
          UndoneIs(specs[k], first, moves, k !in noisy, dirs[k], results[k], k);
        }
        AllFine(results);
      }
    }

    lemma UndoneReported(v: Verdict, k: nat)
      requires Valid() && k < |specs| && k < |dirs| && Undone(specs[k], first, moves, k !in noisy, dirs[k], v, k)
      ensures Reported(specs[k], max, first, moves, dirs[k], v, k)
    {
      NoisyMeans(k);
      hide Judge, BaselineSeen, Valid, Lawful, Disturbed, AtBaseline, OnlyOthers, Acted, Tidied;
    }
  }

  lemma TempStays(k: nat, before: Dirs, now: Dirs, owed: seq<Debts>, owed': seq<Debts>, mid: Dir, temp: Name, f: File, interference: bool)
    requires k < |before| && k < |now| && Stepped(k, before, now, owed, owed', now[k], interference)
    requires DirOk(before[k]) && before[k] == Created(mid, temp, f) && temp.Temp?
    ensures DirOk(now[k]) && temp in now[k].names && At(now[k], temp) == Some(f)
  {
    hide OwedMoves;
  }

  lemma TempElsewhere(d: Dir, temp: Name, f: File)
    requires DirOk(d) && temp.Temp?
    ensures DirOk(Created(d, temp, f)) ==> At(Created(d, temp, f), Target) == At(d, Target)
  {
  }

  lemma LinkedIs(k: nat, before: Dirs, now: Dirs, owed: seq<Debts>, owed': seq<Debts>, mid: Dir, temp: Name, interference: bool)
    requires k < |before| && k < |now| && Stepped(k, before, now, owed, owed', mid, interference) && DirOk(before[k])
    requires temp.Temp? && temp in before[k].names && temp in mid.names && now[k] == Linked(mid, temp, Target)
    ensures DirOk(now[k]) && At(now[k], Target) == At(before[k], temp)
  {
    hide OwedMoves;
  }

  /** With the baseline under the target name, dropping the quarantine ends the undo. */
  lemma DroppedIs(s: Snapshot, d: Dir)
    requires Complete(s) && DirOk(d) && At(d, Target) == Before(s)
    ensures Recoverable(s, Unlinked(d, Quarantine)) && AtBaseline(s, Unlinked(d, Quarantine))
  {
  }

  lemma LinkedRestores(s: Snapshot, d: Dir, temp: Name)
    requires Complete(s) && DirOk(d) && temp.Temp? && temp in d.names && At(d, temp) == Before(s)
    requires At(d, Quarantine) == Some(After(s)) && At(d, Target) == None
    ensures Target !in d.names && DirOk(Linked(d, temp, Target)) && Recoverable(s, Linked(d, temp, Target))
  {
  }

  lemma ClearedStays(d: Dir, temp: Name)
    requires DirOk(d) && temp.Temp?
    ensures DirOk(Unlinked(d, temp)) && At(Unlinked(d, temp), Target) == At(d, Target)
  {
  }

  lemma BeforeIs(s: Snapshot)
    requires Complete(s)
    ensures Before(s).Some? <==> s.existedBefore
  {
  }

  predicate Unwell(v: Verdict) { v in {Conflicted, Ineligible, UndoFailed} }

  /** Restored files existed before the turn, deleted ones did not. */
  predicate RightKind(s: Snapshot, v: Verdict) {
    (v in {Restored, AlreadyRestored} ==> s.existedBefore) && (v in {Deleted, AlreadyDeleted} ==> !s.existedBefore)
  }

  /** At some time this file was in quarantine while its target name was taken. */
  ghost predicate Beside(first: Dirs, moves: seq<Move>, k: nat, i: Ino)
    requires k < |first|
  {
    exists j :: 0 <= j <= |moves| && BothNames(StateAfter(first, moves[..j])[k], i)
  }

  predicate BothNames(d: Dir, i: Ino) { Target in d.names && Quarantine in d.names && d.names[Quarantine] == i }

  predicate HoldsWrite(s: Snapshot, d: Dir) { Complete(s) && DirOk(d) && At(d, Quarantine) == Some(After(s)) }

  /**
   Where nothing was in quarantine, undo leaves nothing there but the turn's write, or a file whose target name was taken
   when it was to go back.
   */
  ghost predicate Tidied(s: Snapshot, first: Dirs, moves: seq<Move>, k: nat, d: Dir) {
    k < |first|
    && (Quarantine in first[k].names || Quarantine !in d.names || HoldsWrite(s, d) || Beside(first, moves, k, d.names[Quarantine]))
  }

  lemma TidiedLater(s: Snapshot, first: Dirs, moves: seq<Move>, more: seq<Move>, k: nat, d: Dir)
    requires Tidied(s, first, moves, k, d) && moves <= more
    ensures Tidied(s, first, more, k, d)
  {
    hide StateAfter, BothNames, HoldsWrite;
    if Quarantine in d.names && Beside(first, moves, k, d.names[Quarantine]) {
      var j :| 0 <= j <= |moves| && BothNames(StateAfter(first, moves[..j])[k], d.names[Quarantine]);
      assert more[..j] == moves[..j];
    }
  }

  predicate OfTheLook(s: Snapshot, v: Verdict) {
    v in {Eligible, AlreadyRestored, AlreadyDeleted, Conflicted, Ineligible} && (v.Eligible? ==> Complete(s))
  }

  ghost predicate ReachedBy(s: Snapshot, first: Dirs, moves: seq<Move>, k: nat, v: Verdict) {
    k < |first| && (Fine(v) ==> BaselineSeen(s, first, moves, k)) && RightKind(s, v) && Acted(moves, k, v)
  }

  /** The file has passed the first look. */
  ghost predicate Pends(s: Snapshot, max: nat, first: Dirs, moves: seq<Move>, quiet: bool, d: Dir, v: Verdict, k: nat) {
    && OfTheLook(s, v) && !Rejected(v) && DirOk(d) && ReachedBy(s, first, moves, k, v)
    && (quiet ==> v == Judge(s, max, Look(d, max, Quarantine), Look(d, max, Target)))
  }

  ghost predicate Undone(s: Snapshot, first: Dirs, moves: seq<Move>, quiet: bool, d: Dir, v: Verdict, k: nat) {
    DirOk(d) && v in {Restored, AlreadyRestored, Deleted, AlreadyDeleted, Conflicted, UndoFailed}
    && Tidied(s, first, moves, k, d) && ReachedBy(s, first, moves, k, v) && (quiet ==> Fine(v) && Complete(s) && AtBaseline(s, d))
  }

  lemma PendsIs(s: Snapshot, max: nat, first: Dirs, moves: seq<Move>, quiet: bool, d: Dir, v: Verdict, k: nat)
    requires Pends(s, max, first, moves, quiet, d, v, k)
    ensures v in {Eligible, AlreadyRestored, AlreadyDeleted} && (v.Eligible? ==> Complete(s)) && DirOk(d) && ReachedBy(s, first, moves, k, v)
    ensures quiet ==> v == Judge(s, max, Look(d, max, Quarantine), Look(d, max, Target))
  {
    hide Judge, ReachedBy;
  }

  lemma UndoneIs(s: Snapshot, first: Dirs, moves: seq<Move>, quiet: bool, d: Dir, v: Verdict, k: nat)
    requires Undone(s, first, moves, quiet, d, v, k) && quiet
    ensures Fine(v) && Complete(s) && DirOk(d) && AtBaseline(s, d)
  {
    hide ReachedBy, AtBaseline, DirOk;
  }

  lemma NowPends(s: Snapshot, max: nat, first: Dirs, moves: seq<Move>, quiet: bool, was: Dir, d: Dir, v: Verdict, k: nat)
    requires LookGave(s, max, first, moves, quiet, was, d, v, k) && !Rejected(v) && DirOk(d)
    ensures Pends(s, max, first, moves, quiet, d, v, k)
  {
    hide Judge, ReachedBy, OfTheLook, DirOk, Rejected;
  }

  lemma QuietLook(s: Snapshot, max: nat, first: Dirs, moves: seq<Move>, was: Dir, d: Dir, v: Verdict, k: nat)
    requires LookGave(s, max, first, moves, true, was, d, v, k)
    ensures d == was && DirOk(was) && v == Judge(s, max, Look(was, max, Quarantine), Look(was, max, Target))
  {
    hide Judge, ReachedBy, OfTheLook, DirOk;
  }

  lemma SomeRejected(specs: seq<Snapshot>, max: nat, dirs: Dirs, verdicts: seq<Verdict>)
    requires |specs| == |dirs| == |verdicts| && AllOk(dirs)
    requires forall k :: 0 <= k < |specs| ==> DirOk(dirs[k]) && verdicts[k] == Judge(specs[k], max, Look(dirs[k], max, Quarantine), Look(dirs[k], max, Target))
    ensures AnyRejected(specs, max, dirs) <==> exists k :: 0 <= k < |verdicts| && Rejected(verdicts[k])
  {
    hide Judge, Rejected, DirOk;
  }

  lemma ReachedLater(s: Snapshot, first: Dirs, moves: seq<Move>, more: seq<Move>, k: nat, v: Verdict)
    requires ReachedBy(s, first, moves, k, v) && moves <= more
    ensures ReachedBy(s, first, more, k, v)
  {
    if Fine(v) { TargetWasLater(first, moves, more, k, Before(s)); }
    ActedLater(moves, more, k, v);
    hide TargetWas, Acted;
  }

  lemma PendsLater(s: Snapshot, max: nat, first: Dirs, moves: seq<Move>, more: seq<Move>, quiet: bool, still: bool, d: Dir, v: Verdict, k: nat)
    requires Pends(s, max, first, moves, quiet, d, v, k) && moves <= more && (still ==> quiet)
    ensures Pends(s, max, first, more, still, d, v, k)
  {
    ReachedLater(s, first, moves, more, k, v);
    hide Judge, ReachedBy;
  }

  lemma UndoneLater(s: Snapshot, first: Dirs, moves: seq<Move>, more: seq<Move>, quiet: bool, still: bool, d: Dir, v: Verdict, k: nat)
    requires Undone(s, first, moves, quiet, d, v, k) && moves <= more && (still ==> quiet)
    ensures Undone(s, first, more, still, d, v, k)
  {
    ReachedLater(s, first, moves, more, k, v);
    TidiedLater(s, first, moves, more, k, d);
    hide ReachedBy, Tidied;
  }

  /**
   What a result says, whatever others do: a file reported well was at its baseline at some moment, and is there now if
   it was found lawful and nobody else moved on it; a file reported otherwise was disturbed, or rejected as it was found.
   */
  ghost predicate Reported(s: Snapshot, max: nat, first: Dirs, moves: seq<Move>, d: Dir, v: Verdict, k: nat)
    requires k < |first| && DirOk(first[k]) && DirOk(d)
  {
    && (Fine(v) ==> BaselineSeen(s, first, moves, k)) && RightKind(s, v) && Acted(moves, k, v)
    && !v.Eligible? && (v in {NotModified, Ineligible} ==> OnlyOthers(moves)) && Tidied(s, first, moves, k, d)
    && (Fine(v) && Lawful(s, first[k]) && !Disturbed(moves, k) ==> AtBaseline(s, d))
    && (Unwell(v) ==> Disturbed(moves, k) || Rejected(Judge(s, max, Look(first[k], max, Quarantine), Look(first[k], max, Target))))
  }

  ghost predicate AllReported(specs: seq<Snapshot>, max: nat, first: Dirs, moves: seq<Move>, dirs: Dirs, results: seq<Verdict>) {
    && |specs| == |first| == |dirs| == |results| && AllOk(first) && AllOk(dirs)
    && forall k :: 0 <= k < |specs| ==> Reported(specs[k], max, first, moves, dirs[k], results[k], k)
  }

  lemma AllReportedIs(specs: seq<Snapshot>, max: nat, first: Dirs, moves: seq<Move>, dirs: Dirs, results: seq<Verdict>)
    requires |specs| == |first| == |dirs| == |results| && AllOk(first) && AllOk(dirs)
    requires forall k :: 0 <= k < |specs| ==> DirOk(first[k]) && DirOk(dirs[k]) && Reported(specs[k], max, first, moves, dirs[k], results[k], k)
    ensures AllReported(specs, max, first, moves, dirs, results)
  {
    hide Reported, DirOk;
  }

  /** The first look rejects every file in a state that neither a turn nor undo leaves. */
  lemma LawlessIsRejected(s: Snapshot, max: nat, d: Dir)
    requires DirOk(d) && !Lawful(s, d)
    ensures Rejected(Judge(s, max, Look(d, max, Quarantine), Look(d, max, Target)))
  {
  }

  /** What the first look says of a file that was `was` when the run began. */
  ghost predicate LookGave(s: Snapshot, max: nat, first: Dirs, moves: seq<Move>, quiet: bool, was: Dir, d: Dir, v: Verdict, k: nat) {
    && ReachedBy(s, first, moves, k, v) && OfTheLook(s, v)
    && (quiet ==> d == was && DirOk(d) && v == Judge(s, max, Look(d, max, Quarantine), Look(d, max, Target)))
  }

  lemma LookGaveLater(s: Snapshot, max: nat, first: Dirs, moves: seq<Move>, more: seq<Move>, quiet: bool, still: bool,
                      was: Dir, d: Dir, v: Verdict, k: nat)
    requires LookGave(s, max, first, moves, quiet, was, d, v, k) && moves <= more && (still ==> quiet)
    ensures LookGave(s, max, first, more, still, was, d, v, k)
  {
    ReachedLater(s, first, moves, more, k, v);
    hide Judge, ReachedBy;
  }

  /** What a well verdict of the first look has seen. */
  lemma JudgeSees(s: Snapshot, max: nat, d: Dir, q: Sight, t: Sight)
    requires DirOk(d) && t == Look(d, max, Target)
    ensures Fine(Judge(s, max, q, t)) ==> Complete(s) && At(d, Target) == Before(s)
    ensures RightKind(s, Judge(s, max, q, t))
  {
  }

  /** From file `k` on, the quarantine names stand for what they stood for. */
  ghost predicate StayFrom(first: Dirs, now: Dirs, k: nat) {
    |now| == |first| && forall j :: k <= j < |now| ==> QuarantineStays(first[j], now[j])
  }

  lemma NothingMoved(dirs: Dirs)
    requires AllOk(dirs)
    ensures StayFrom(dirs, dirs, 0)
  {
  }

  lemma StayOn(first: Dirs, before: Dirs, now: Dirs, k: nat)
    requires k < |before| && StayFrom(first, before, 0) && Only(k, before, now) && QuarantineStays(before[k], now[k])
    ensures StayFrom(first, now, 0)
  {
  }

  lemma StayBehind(first: Dirs, before: Dirs, now: Dirs, k: nat)
    requires k < |before| && StayFrom(first, before, k) && Only(k, before, now)
    ensures StayFrom(first, now, k + 1)
  {
    hide QuarantineStays;
  }

  predicate Rejected(v: Verdict) { v.Conflicted? || v.Ineligible? }

  predicate Fine(v: Verdict) { v in {Restored, Deleted, AlreadyRestored, AlreadyDeleted} }

  lemma FineIs(v: Verdict)
    ensures Fine(v) <==> v in {Restored, Deleted, AlreadyRestored, AlreadyDeleted}
  {
  }

  datatype UndoStatus = UndoSucceeded | UndoConflict | UndoPartial

  /** `reduce_undo_status`. */
  function ReduceStatus(verdicts: seq<Verdict>): UndoStatus {
    if forall v :: v in verdicts ==> Fine(v) then UndoSucceeded
    else if (forall v :: v in verdicts ==> Rejected(v) || v.NotModified?) && exists v :: v in verdicts && Rejected(v) then UndoConflict
    else UndoPartial
  }

  lemma AllFine(verdicts: seq<Verdict>)
    requires forall k :: 0 <= k < |verdicts| ==> Fine(verdicts[k])
    ensures ReduceStatus(verdicts).UndoSucceeded?
  {
  }

  /** An eligible file in a state that a crash may leave is one with something left to undo. */
  lemma EligibleIsUnderway(s: Snapshot, max: nat, d: Dir)
    requires Complete(s) && DirOk(d) && Recoverable(s, d)
    requires Judge(s, max, Look(d, max, Quarantine), Look(d, max, Target)).Eligible?
    ensures Underway(s, max, d)
  {
  }

  /** A file that needs nothing is at its baseline. */
  lemma AlreadyIs(s: Snapshot, max: nat, d: Dir)
    requires Complete(s) && DirOk(d) && Recoverable(s, d)
    requires Judge(s, max, Look(d, max, Quarantine), Look(d, max, Target)) in {AlreadyRestored, AlreadyDeleted}
    ensures Fine(Judge(s, max, Look(d, max, Quarantine), Look(d, max, Target))) && AtBaseline(s, d)
  {
    AlreadyIsBaseline(s, max, d);
  }

  lemma AlreadyIsBaseline(s: Snapshot, max: nat, d: Dir)
    requires Complete(s) && DirOk(d) && Recoverable(s, d)
    requires Fine(Judge(s, max, Look(d, max, Quarantine), Look(d, max, Target)))
    ensures AtBaseline(s, d)
  {
  }

  lemma JudgeOutcomes(s: Snapshot, max: nat, q: Sight, t: Sight)
    ensures Judge(s, max, q, t) in {Eligible, AlreadyRestored, AlreadyDeleted, Conflicted, Ineligible}
    ensures Judge(s, max, q, t).Eligible? ==> Complete(s)
  {
  }

  /** Something is left to undo, and it is not over the size limit. */
  predicate Underway(s: Snapshot, max: nat, d: Dir) {
    Complete(s) && |s.beforeBytes.value| <= max && |s.afterBytes.value| <= max
    && DirOk(d) && Recoverable(s, d) && (At(d, Quarantine).None? ==> At(d, Target) == Some(After(s)))
  }

  datatype Moved = Done | Occupied | Gone

  /** Only the turn's write is there. */
  predicate InPlace(s: Snapshot, d: Dir) {
    Complete(s) && DirOk(d) && At(d, Target) == Some(After(s)) && At(d, Quarantine) == None
  }

  /** The turn's write is in quarantine, and nothing has taken its name. */
  predicate InQuarantine(s: Snapshot, d: Dir) {
    Complete(s) && DirOk(d) && At(d, Target) == None && At(d, Quarantine) == Some(After(s))
  }

  /** Whether the first look rejects some file. */
  ghost predicate AnyRejected(specs: seq<Snapshot>, max: nat, dirs: Dirs)
    requires |specs| == |dirs| && AllOk(dirs)
  {
    exists k :: 0 <= k < |dirs| && Rejected(Judge(specs[k], max, Look(dirs[k], max, Quarantine), Look(dirs[k], max, Target)))
  }

  lemma Aborted(verdicts: seq<Verdict>)
    requires exists k :: 0 <= k < |verdicts| && Rejected(verdicts[k])
    ensures ReduceStatus(seq(|verdicts|, k requires 0 <= k < |verdicts| => if Rejected(verdicts[k]) then verdicts[k] else NotModified)).UndoConflict?
  {
    var normal := seq(|verdicts|, k requires 0 <= k < |verdicts| => if Rejected(verdicts[k]) then verdicts[k] else NotModified);
    var k :| 0 <= k < |verdicts| && Rejected(verdicts[k]);
    assert normal[k] in normal && !Fine(normal[k]);
  }

  /** The first look rejects no file of a turn whose snapshots can be undone, wherever a crash struck. */
  lemma NoneRejected(specs: seq<Snapshot>, max: nat, dirs: Dirs)
    requires AllRecoverable(specs, dirs) && forall k :: 0 <= k < |specs| ==> Undoable(specs[k], max)
    ensures !AnyRejected(specs, max, dirs)
  {
    forall k | 0 <= k < |dirs| ensures !Rejected(Judge(specs[k], max, Look(dirs[k], max, Quarantine), Look(dirs[k], max, Target))) {
      RecoverablePasses(specs[k], max, dirs[k]);
    }
    hide Judge, Recoverable;
  }

  lemma LawfulIsRecoverable(specs: seq<Snapshot>, dirs: Dirs)
    requires |dirs| == |specs| && forall k :: 0 <= k < |specs| ==> Lawful(specs[k], dirs[k])
    ensures AllRecoverable(specs, dirs)
  {
    hide Recoverable, DirOk;
  }

  lemma SucceededIs(results: seq<Verdict>)
    ensures ReduceStatus(results).UndoSucceeded? <==> forall v :: v in results ==> Fine(v)
  {
    hide Fine, Rejected;
  }

  lemma ReportedFine(specs: seq<Snapshot>, max: nat, first: Dirs, moves: seq<Move>, dirs: Dirs, results: seq<Verdict>, k: nat)
    requires AllReported(specs, max, first, moves, dirs, results) && k < |specs| && Fine(results[k])
    ensures BaselineSeen(specs[k], first, moves, k)
  {
    hide BaselineSeen, Fine, Rejected, Judge, Lawful, Disturbed, OnlyOthers, AtBaseline;
  }

  lemma RecoverableIsOk(specs: seq<Snapshot>, dirs: Dirs)
    requires AllRecoverable(specs, dirs)
    ensures |dirs| == |specs| && AllOk(dirs)
  {
    hide Recoverable, DirOk;
  }

  /**
   Undo converges: start from any states that a crash may leave, run undo and let it crash between any two
   operations, as often as it likes, then run it once more: every target is at its baseline, and nothing is
   in quarantine.
   */
  method UndoAfterCrashes(specs: seq<Snapshot>, max: nat, dirs: Dirs, crashes: seq<nat>) returns (status: UndoStatus, final: Dirs)
    requires AllRecoverable(specs, dirs) && forall k :: 0 <= k < |specs| ==> Undoable(specs[k], max)
    ensures status.UndoSucceeded? && |final| == |specs| && AllOk(final)
    ensures forall k :: 0 <= k < |specs| ==> AtBaseline(specs[k], final[k])
  {
    hide *;
    final := dirs;
    for i := 0 to |crashes|
      invariant AllRecoverable(specs, final)
    {
      RecoverableIsOk(specs, final);
      var disk := new Disk(specs, max, false, final);
      var _, _ := disk.UndoTurn();
      final := if crashes[i] < |disk.history| then disk.history[crashes[i]] else disk.dirs;
      disk.PresentIsLast();
      disk.CrashIsHarmless(final);
    }
    RecoverableIsOk(specs, final);
    var disk := new Disk(specs, max, false, final);
    NoneRejected(specs, max, final);
    var results;
    status, results := disk.UndoTurn();
    final := disk.dirs;
    disk.Fields();
  }

  /**
   Undo destroys no concurrent work: whatever others do to the target names between any two operations, what they
   install, and what was in the way, ends under the target name or in quarantine unless they take it back, and nothing
   leaves quarantine that may not.
   */
  method UndoAmongOthers(specs: seq<Snapshot>, max: nat, dirs: Dirs) returns (results: seq<Verdict>, final: Dirs, ghost moves: seq<Move>)
    requires |dirs| == |specs| && AllOk(dirs)
    ensures |results| == |specs| && final == StateAfter(dirs, moves)
    ensures Careful(specs, dirs, moves) && NothingLost(specs, dirs, moves)
    ensures AllReported(specs, max, dirs, moves, final, results)
    ensures ReduceStatus(results).UndoSucceeded? <==> forall v :: v in results ==> Fine(v)
    ensures ReduceStatus(results).UndoSucceeded? ==> forall k :: 0 <= k < |specs| ==> BaselineSeen(specs[k], dirs, moves, k)
  {
    hide *;
    var disk := new Disk(specs, max, true, dirs);
    var _, verdicts := disk.UndoTurn();
    results, final, moves := verdicts, disk.dirs, disk.moves;
    SucceededIs(results);
    if ReduceStatus(results).UndoSucceeded? {
      forall k | 0 <= k < |specs| ensures BaselineSeen(specs[k], dirs, moves, k) {
        ReportedFine(specs, max, dirs, moves, final, results, k);
      }
    }
  }
}
