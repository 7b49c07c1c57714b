/**
 Undo of managed file writes over a directory that other processes may change: the state of the
 directory, its atomic operations, and what may be found after a crash.
 */
module UndoFiles {
  import opened Domain

  /** A file as undo sees it: its bytes and its permission bits. */
  datatype File = File(bytes: string, mode: nat)

  datatype Name = Target | Quarantine | Temp(suffix: nat)

  type Ino = nat

  datatype Dir = Dir(names: map<Name, Ino>, files: map<Ino, File>, next: Ino)

  /** The recorded baseline of a managed file and the state that the managed write left. */
  datatype Snapshot = Snapshot(existedBefore: bool, beforeBytes: Option<string>, beforeMode: Option<nat>,
                               afterBytes: Option<string>, afterMode: Option<nat>)

  /** What `open(O_EXCL, 0o600)` leaves under the quarantine name until the rename replaces it. */
  const RESERVATION := File([], 384)

  predicate DirOk(d: Dir) {
    && (forall n :: n in d.names ==> d.names[n] in d.files)
    && (forall i :: i in d.files ==> i < d.next)
    && forall n :: n in d.names && n.Temp? ==> n.suffix < d.next
  }

  function At(d: Dir, n: Name): Option<File>
    requires DirOk(d)
  {
    if n in d.names then Some(d.files[d.names[n]]) else None
  }

  // ----- The atomic operations -----

  function Created(d: Dir, n: Name, f: File): Dir {
    Dir(d.names[n := d.next], d.files[d.next := f], d.next + 1)
  }

  function Filled(d: Dir, n: Name, f: File): Dir
    requires n in d.names
  {
    d.(files := d.files[d.names[n] := f])
  }

  function Renamed(d: Dir, a: Name, b: Name): Dir
    requires a in d.names
  {
    d.(names := (d.names - {a})[b := d.names[a]])
  }

  function Linked(d: Dir, a: Name, b: Name): Dir
    requires a in d.names
  {
    d.(names := d.names[b := d.names[a]])
  }

  function Unlinked(d: Dir, n: Name): Dir { d.(names := d.names - {n}) }

  // ----- What a crash may leave -----

  predicate Complete(s: Snapshot) {
    s.beforeBytes.Some? && s.afterBytes.Some? && s.afterMode.Some? && (s.existedBefore ==> s.beforeMode.Some?)
  }

  function After(s: Snapshot): File
    requires Complete(s)
  {
    File(s.afterBytes.value, s.afterMode.value)
  }

  function Before(s: Snapshot): Option<File>
    requires Complete(s)
  {
    if s.existedBefore then Some(File(s.beforeBytes.value, s.beforeMode.value)) else None
  }

  /** The turn's write is in place, the undo is somewhere on its way, or it is finished. */
  predicate Recoverable(s: Snapshot, d: Dir)
    requires Complete(s) && DirOk(d)
  {
    var t, q := At(d, Target), At(d, Quarantine);
    || (t == Some(After(s)) && (q == None || q == Some(RESERVATION)))
    || (t == None && q == Some(After(s)))
    || (t == Before(s) && (q == None || q == Some(After(s))))
  }

  predicate AtBaseline(s: Snapshot, d: Dir)
    requires Complete(s) && DirOk(d)
  {
    At(d, Target) == Before(s) && At(d, Quarantine) == None
  }

  // ----- The first look at every file -----

  datatype Verdict = Eligible | AlreadyDeleted | AlreadyRestored | Restored | Deleted | Conflicted | Ineligible | UndoFailed | NotModified

  /** What reading a name gives; a file over the size limit is an error. */
  datatype Sight = Absent | Seen(file: File, ino: Ino) | TooLarge

  function Matches(t: Sight, f: File): bool { t.Seen? && t.file == f }

  /** `_preflight` on one file, with its checks in their order. */
  function Judge(s: Snapshot, max: nat, q: Sight, t: Sight): Verdict {
    if s.beforeBytes.None? || |s.beforeBytes.value| > max || s.afterBytes.None? || s.afterMode.None?
       || (s.existedBefore && s.beforeMode.None?) then Ineligible
    else if q.TooLarge? || t.TooLarge? then Ineligible
    else if q.Seen? then
      if q.file == RESERVATION && Matches(t, After(s)) then Eligible
      else if q.file != After(s) then Conflicted
      else if t.Absent? then Eligible
      else if s.existedBefore && Some(t.file) == Before(s) then Eligible
      else Conflicted
    else if t.Absent? then (if s.existedBefore then Conflicted else AlreadyDeleted)
    else if s.existedBefore && t.file.bytes == s.beforeBytes.value then
      if Some(t.file) == Before(s) then AlreadyRestored else Conflicted
    else if t.file != After(s) then Conflicted
    else Eligible
  }

  /** The snapshots whose untouched post-write file the first look does not reject. */
  predicate Undoable(s: Snapshot, max: nat) {
    && Complete(s) && |s.beforeBytes.value| <= max && |s.afterBytes.value| <= max
    && !(s.existedBefore && s.beforeBytes == s.afterBytes && s.beforeMode != s.afterMode)
  }

  function Look(d: Dir, max: nat, n: Name): Sight
    requires DirOk(d)
  {
    if n !in d.names then Absent
    else if |d.files[d.names[n]].bytes| > max then TooLarge
    else Seen(d.files[d.names[n]], d.names[n])
  }

  /** The intact file passes exactly when the snapshot is complete, small, and not a pure mode change. */
  lemma IntactPasses(s: Snapshot, max: nat, d: Dir)
    requires Complete(s) && DirOk(d) && At(d, Target) == Some(After(s)) && Quarantine !in d.names
    ensures Judge(s, max, Look(d, max, Quarantine), Look(d, max, Target)) in {Eligible, AlreadyRestored} <==> Undoable(s, max)
  {
  }

  /** Whatever a crash leaves passes the first look; a file that needs nothing is at its baseline. */
  lemma RecoverablePasses(s: Snapshot, max: nat, d: Dir)
    requires Undoable(s, max) && DirOk(d) && Recoverable(s, d)
    ensures var v := Judge(s, max, Look(d, max, Quarantine), Look(d, max, Target));
            v in {Eligible, AlreadyRestored, AlreadyDeleted} && (v != Eligible ==> AtBaseline(s, d))
  {
  }
}
