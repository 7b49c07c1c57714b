/**
 Shared parent directories of concurrent file mutations: reservations, creation, adoption by one successful
 mutation, and the cleanup of failed ones, as a state machine over what each thread does under the guard.
 */
module ParentDirectories {
  import opened Domain

  type Tid = nat

  datatype Phase = Outside | Reserved | Reported | Gone

  /** A lease: the parents it reserves, and those it has created itself. */
  datatype Lease = Lease(parents: set<string>, created: set<string>, phase: Phase)
  {
    predicate Live() { phase.Reserved? || phase.Reported? }
  }

  /** One creation of a directory; the same path may be created again later. */
  datatype Birth = Birth(path: string, number: nat)

  datatype Report = Report(tid: Tid, birth: Birth)

  datatype System = System(
    leases: map<Tid, Lease>, disk: set<string>, users: map<string, nat>,
    unowned: set<string>, claimed: set<string>,
    births: map<string, nat>, nextBirth: nat, reports: seq<Report>)

  // ----- The steps, each under the guard -----

  function SetLease(s: System, t: Tid, l: Lease): System { s.(leases := s.leases[t := l]) }

  function UsersOf(s: System, d: string): nat { if d in s.users then s.users[d] else 0 }

  function Reserve(s: System, t: Tid): System
    requires t in s.leases
  {
    var l := s.leases[t];
    SetLease(s.(users := map d | d in s.users.Keys + l.parents :: UsersOf(s, d) + if d in l.parents then 1 else 0),
             t, l.(phase := Reserved))
  }

  /** `mkdir`, which fails when the name exists. */
  function Create(s: System, t: Tid, d: string): System
    requires t in s.leases
  {
    if d in s.disk then s
    else
      SetLease(s.(disk := s.disk + {d}, unowned := s.unowned + {d}, births := s.births[d := s.nextBirth], nextBirth := s.nextBirth + 1),
               t, s.leases[t].(created := s.leases[t].created + {d}))
  }

  /** The directories that a successful mutation may report. */
  function Adopted(s: System, l: Lease): set<string> {
    set d | d in l.parents && d in s.unowned && d !in s.claimed && d in s.disk
  }

  function ReportsOf(s: System, t: Tid, adopted: seq<string>): seq<Report> {
    if adopted == [] then []
    else
      var d := adopted[|adopted| - 1];
      ReportsOf(s, t, adopted[..|adopted| - 1]) + [Report(t, Birth(d, if d in s.births then s.births[d] else 0))]
  }

  /** `_successful_provenance`; `order` lists the adopted directories once each. */
  function Succeed(s: System, t: Tid, order: seq<string>): System
    requires t in s.leases
  {
    var adopted := Adopted(s, s.leases[t]);
    SetLease(s.(claimed := s.claimed + adopted, unowned := s.unowned - adopted, reports := s.reports + ReportsOf(s, t, order)),
             t, s.leases[t].(phase := Reported))
  }

  /** Whether the cleanup of this lease may remove the directory. */
  predicate MayRemove(s: System, l: Lease, d: string) {
    && (d in l.created || (d in l.parents && d in s.unowned))
    && d !in s.claimed && UsersOf(s, d) <= 1 && d in s.disk
  }

  /** `_cleanup_failed`: `empty` are the directories for which `rmdir` succeeds. */
  function Cleanup(s: System, t: Tid, empty: set<string>): System
    requires t in s.leases
  {
    var removed := set d | d in empty && MayRemove(s, s.leases[t], d);
    s.(disk := s.disk - removed, unowned := s.unowned - removed)
  }

  function Release(s: System, t: Tid): System
    requires t in s.leases
  {
    var l := s.leases[t];
    var idle := set d | d in l.parents && UsersOf(s, d) <= 1;
    SetLease(s.(users := map d | d in s.users && d !in idle :: s.users[d] - if d in l.parents && s.users[d] > 0 then 1 else 0,
                unowned := s.unowned - idle, claimed := s.claimed - idle),
             t, l.(phase := Gone))
  }

  datatype Move =
    | Enter(tid: Tid)
    | MakeDirectory(tid: Tid, path: string)
    | Finish(tid: Tid, order: seq<string>)
    | CleanUp(tid: Tid, empty: set<string>)
    | Leave(tid: Tid)

  predicate Lists(order: seq<string>, all: set<string>) {
    Distinct(order) && (forall d :: d in order ==> d in all) && forall d :: d in all ==> d in order
  }

  /** A thread reserves, then creates; it reports once, or cleans up any number of times; then it leaves. */
  function Step(s: System, m: Move): System {
    if m.tid !in s.leases then s
    else
      var l := s.leases[m.tid];
      match m
      case Enter(t) => if l.phase.Outside? then Reserve(s, t) else s
      case MakeDirectory(t, d) => if l.phase.Reserved? && d in l.parents then Create(s, t, d) else s
      case Finish(t, order) => if l.phase.Reserved? && Lists(order, Adopted(s, l)) then Succeed(s, t, order) else s
      case CleanUp(t, empty) => if l.phase.Reserved? then Cleanup(s, t, empty) else s
      case Leave(t) => if l.Live() then Release(s, t) else s
  }

  function Run(s: System, moves: seq<Move>): System {
    if moves == [] then s else Step(Run(s, moves[..|moves| - 1]), moves[|moves| - 1])
  }

  // ----- The invariant -----

  function Users(leases: map<Tid, Lease>, d: string): set<Tid> {
    set t | t in leases && leases[t].Live() && d in leases[t].parents
  }

  /** The counts are right; what is created or claimed is on disk and in use; nothing is both. */
  ghost predicate CountsOk(s: System) {
    && (forall d :: UsersOf(s, d) == |Users(s.leases, d)|)
    && (forall d :: d in s.unowned || d in s.claimed ==> d in s.disk && UsersOf(s, d) > 0)
    && s.unowned !! s.claimed
    && forall t :: t in s.leases ==> s.leases[t].created <= s.leases[t].parents
  }

  /** Each birth is reported at most once; an unowned directory's birth has not been reported. */
  ghost predicate ReportsOk(s: System) {
    && (forall d :: d in s.unowned ==> d in s.births)
    && (forall d :: d in s.births ==> s.births[d] < s.nextBirth)
    && (forall i :: 0 <= i < |s.reports| ==> s.reports[i].birth.number < s.nextBirth)
    && (forall i, d :: 0 <= i < |s.reports| && d in s.unowned ==> s.reports[i].birth != Birth(d, s.births[d]))
    && (forall i, j :: 0 <= i < j < |s.reports| ==> s.reports[i].birth != s.reports[j].birth)
  }

  ghost predicate Inv(s: System) { CountsOk(s) && ReportsOk(s) }

  // ----- Counting the users -----

  lemma UserComes(leases: map<Tid, Lease>, t: Tid, l: Lease)
    requires t in leases && !leases[t].Live() && l.Live()
    ensures forall d :: |Users(leases[t := l], d)| == |Users(leases, d)| + if d in l.parents then 1 else 0
  {
    forall d ensures |Users(leases[t := l], d)| == |Users(leases, d)| + if d in l.parents then 1 else 0 {
      assert Users(leases[t := l], d) == if d in l.parents then Users(leases, d) + {t} else Users(leases, d);
    }
  }

  lemma UserStays(leases: map<Tid, Lease>, t: Tid, l: Lease)
    requires t in leases && leases[t].Live() == l.Live() && leases[t].parents == l.parents
    ensures forall d :: Users(leases[t := l], d) == Users(leases, d)
  {
    forall d ensures Users(leases[t := l], d) == Users(leases, d) {
    }
  }

  lemma UserGoes(leases: map<Tid, Lease>, t: Tid, l: Lease)
    requires t in leases && leases[t].Live() && !l.Live()
    ensures forall d :: |Users(leases, d)| == |Users(leases[t := l], d)| + if d in leases[t].parents then 1 else 0
  {
    forall d ensures |Users(leases, d)| == |Users(leases[t := l], d)| + if d in leases[t].parents then 1 else 0 {
      assert Users(leases, d) == if d in leases[t].parents then Users(leases[t := l], d) + {t} else Users(leases[t := l], d);
    }
  }

  /** A live lease counts as a user of each directory that it reserves. */
  lemma LiveUses(s: System, t: Tid, d: string)
    requires CountsOk(s) && t in s.leases && s.leases[t].Live() && d in s.leases[t].parents
    ensures UsersOf(s, d) > 0
  {
    assert t in Users(s.leases, d);
  }

  // ----- Every step keeps the invariant -----

  lemma ReserveKeeps(s: System, t: Tid)
    requires CountsOk(s) && t in s.leases && s.leases[t].phase.Outside?
    ensures CountsOk(Reserve(s, t))
  {
    var u := Reserve(s, t);
    UserComes(s.leases, t, u.leases[t]);
    hide Users;
    assert forall d :: UsersOf(u, d) == UsersOf(s, d) + if d in s.leases[t].parents then 1 else 0;
  }

  lemma CreateKeeps(s: System, t: Tid, d: string)
    requires Inv(s) && t in s.leases && s.leases[t].Live() && d in s.leases[t].parents
    ensures Inv(Create(s, t, d))
  {
    if d !in s.disk {
      var u := Create(s, t, d);
      UserStays(s.leases, t, u.leases[t]);
      LiveUses(s, t, d);
      hide Users;
      assert forall x :: UsersOf(u, x) == UsersOf(s, x);
    }
  }

  lemma {:induction false} ReportsAre(s: System, t: Tid, adopted: seq<string>)
    ensures |ReportsOf(s, t, adopted)| == |adopted|
    ensures forall i :: 0 <= i < |adopted| ==>
              ReportsOf(s, t, adopted)[i] == Report(t, Birth(adopted[i], if adopted[i] in s.births then s.births[adopted[i]] else 0))
  {
    if adopted != [] { ReportsAre(s, t, adopted[..|adopted| - 1]); }
  }

  lemma SucceedCounts(s: System, t: Tid, order: seq<string>)
    requires CountsOk(s) && t in s.leases && s.leases[t].phase.Reserved?
    ensures CountsOk(Succeed(s, t, order))
  {
    var u := Succeed(s, t, order);
    UserStays(s.leases, t, u.leases[t]);
    hide Users;
    assert forall x :: UsersOf(u, x) == UsersOf(s, x);
  }

  /** What is adopted was unowned, so its birth was not reported before, and is reported once now. */
  lemma SucceedReports(s: System, t: Tid, order: seq<string>)
    requires ReportsOk(s) && t in s.leases && Lists(order, Adopted(s, s.leases[t]))
    ensures ReportsOk(Succeed(s, t, order))
  {
    var more := ReportsOf(s, t, order);
    ReportsAre(s, t, order);
    forall i | 0 <= i < |order| ensures order[i] in s.unowned && more[i].birth == Birth(order[i], s.births[order[i]]) {
      assert order[i] in order;
    }
    var all := s.reports + more;
    forall i, j | 0 <= i < j < |all| ensures all[i].birth != all[j].birth {
      if j >= |s.reports| {
        var d := order[j - |s.reports|];
        assert d in s.unowned;
        if i < |s.reports| { assert s.reports[i].birth != Birth(d, s.births[d]); }
      }
    }
    hide ReportsOf, Lists;
    assert Succeed(s, t, order).reports == all;
    forall i, d | 0 <= i < |all| && d in Succeed(s, t, order).unowned ensures all[i].birth != Birth(d, s.births[d]) {
      if i >= |s.reports| { assert order[i - |s.reports|] in Adopted(s, s.leases[t]); }
    }
  }

  lemma CleanupKeeps(s: System, t: Tid, empty: set<string>)
    requires Inv(s) && t in s.leases
    ensures Inv(Cleanup(s, t, empty))
  {
    hide Users;
    assert forall x :: UsersOf(Cleanup(s, t, empty), x) == UsersOf(s, x);
  }

  lemma ReleaseCounts(s: System, t: Tid)
    requires CountsOk(s) && t in s.leases && s.leases[t].Live()
    ensures CountsOk(Release(s, t))
  {
    var u := Release(s, t);
    UserGoes(s.leases, t, u.leases[t]);
    forall d | d in s.leases[t].parents ensures UsersOf(s, d) > 0 { LiveUses(s, t, d); }
    hide Users;
    assert forall d :: UsersOf(u, d) == UsersOf(s, d) - if d in s.leases[t].parents then 1 else 0;
  }

  lemma StepKeeps(s: System, m: Move)
    requires Inv(s)
    ensures Inv(Step(s, m))
  {
    if m.tid in s.leases {
      var l := s.leases[m.tid];
      hide CountsOk, ReportsOk;
      match m
      case Enter(t) => if l.phase.Outside? { ReserveKeeps(s, t); SameReports(s, Reserve(s, t)); }
      case MakeDirectory(t, d) => if l.phase.Reserved? && d in l.parents { CreateKeeps(s, t, d); }
      case Finish(t, order) => if l.phase.Reserved? && Lists(order, Adopted(s, l)) { SucceedCounts(s, t, order); SucceedReports(s, t, order); }
      case CleanUp(t, empty) => if l.phase.Reserved? { CleanupKeeps(s, t, empty); }
      case Leave(t) => if l.Live() { ReleaseCounts(s, t); SameReports(s, Release(s, t)); }
    }
  }

  lemma SameReports(s: System, u: System)
    requires ReportsOk(s) && u.reports == s.reports && u.births == s.births && u.nextBirth == s.nextBirth && u.unowned <= s.unowned
    ensures ReportsOk(u)
  {
  }

  ghost predicate Initial(s: System) {
    && (forall t :: t in s.leases ==> s.leases[t].phase.Outside? && s.leases[t].created == {})
    && s.users == map[] && s.unowned == {} && s.claimed == {} && s.births == map[] && s.reports == []
  }

  /** Over every interleaving: the counts are right, and each directory created is reported at most once. */
  lemma {:induction false} RunKeeps(s: System, moves: seq<Move>)
    requires Initial(s)
    ensures Inv(Run(s, moves))
  {
    if moves == [] {
      assert forall d :: Users(s.leases, d) == {};
    } else {
      RunKeeps(s, moves[..|moves| - 1]);
      StepKeeps(Run(s, moves[..|moves| - 1]), moves[|moves| - 1]);
    }
  }

  /** A cleanup never removes a directory that another live lease reserves, or that a successful mutation has claimed. */
  lemma CleanupSpares(s: System, t: Tid, empty: set<string>, d: string)
    requires Inv(s) && t in s.leases && s.leases[t].phase.Reserved? && d in s.disk && d !in Cleanup(s, t, empty).disk
    ensures d !in s.claimed && d in s.leases[t].parents
    ensures forall x :: x in s.leases && s.leases[x].Live() && d in s.leases[x].parents ==> x == t
  {
    assert MayRemove(s, s.leases[t], d);
    forall x | x in s.leases && s.leases[x].Live() && d in s.leases[x].parents ensures x == t { OneUser(s, t, x, d); }
  }

  /** It removes every empty directory that the lease created, or found created by a failed one, and that nobody else uses. */
  lemma CleanupRemoves(s: System, t: Tid, empty: set<string>, d: string)
    requires Inv(s) && t in s.leases && s.leases[t].phase.Reserved? && d in empty && d in s.disk && d !in s.claimed
    requires d in s.leases[t].created || (d in s.leases[t].parents && d in s.unowned)
    requires forall x :: x in s.leases && s.leases[x].Live() && d in s.leases[x].parents ==> x == t
    ensures d !in Cleanup(s, t, empty).disk && d !in Cleanup(s, t, empty).unowned
  {
    assert Users(s.leases, d) <= {t};
    AtMostOne(Users(s.leases, d), t);
    hide Users, ReportsOk;
    assert UsersOf(s, d) <= 1;
  }

  lemma AtMostOne(all: set<Tid>, t: Tid)
    requires all <= {t}
    ensures |all| <= 1
  {
    if all != {} { assert all == {t}; }
  }

  /** A success reports every creation among its parents that no report has named, and claims the directory. */
  lemma SuccessReports(s: System, t: Tid, order: seq<string>, d: string)
    requires Inv(s) && t in s.leases && s.leases[t].phase.Reserved? && Lists(order, Adopted(s, s.leases[t]))
    requires d in s.leases[t].parents && d in s.unowned
    ensures var u := Step(s, Finish(t, order));
            Report(t, Birth(d, s.births[d])) in u.reports && d in u.claimed && d !in u.unowned
  {
    ReportsAre(s, t, order);
    hide Users;
    assert d in Adopted(s, s.leases[t]);
    var i :| 0 <= i < |order| && order[i] == d;
    assert ReportsOf(s, t, order)[i] == Report(t, Birth(d, s.births[d]));
    var u := Succeed(s, t, order);
    assert u.reports[|s.reports| + i] == ReportsOf(s, t, order)[i];
  }

  /** Where the count is one, there is one live lease. */
  lemma OneUser(s: System, t: Tid, x: Tid, d: string)
    requires CountsOk(s) && t in s.leases && s.leases[t].Live() && d in s.leases[t].parents
    requires x in s.leases && s.leases[x].Live() && d in s.leases[x].parents
    requires UsersOf(s, d) <= 1
    ensures x == t
  {
    assert x in Users(s.leases, d) && t in Users(s.leases, d);
    Single(Users(s.leases, d), x, t);
  }

  lemma Single(all: set<Tid>, a: Tid, b: Tid)
    requires a in all && b in all && |all| <= 1
    ensures a == b
  {
    assert |all - {a}| == 0;
  }

  /** A claim lasts, and its directory stays, as long as somebody uses the directory. */
  lemma ClaimLasts(s: System, m: Move, d: string)
    requires Inv(s) && d in s.claimed && UsersOf(Step(s, m), d) > 0
    ensures d in Step(s, m).claimed && d in Step(s, m).disk
  {
    StepKeeps(s, m);
    if m.tid in s.leases && m.Leave? && s.leases[m.tid].Live() {
      var u := Release(s, m.tid);
      assert UsersOf(u, d) > 0;
    }
    hide CountsOk, ReportsOk;
    assert d in Step(s, m).claimed;
    ClaimOnDisk(Step(s, m), d);
  }

  lemma ClaimOnDisk(s: System, d: string)
    requires CountsOk(s) && d in s.claimed
    ensures d in s.disk
  {
  }

  /** Of two reports in one run, no two name the same creation. */
  lemma ReportedOnce(s: System, moves: seq<Move>, i: nat, j: nat)
    requires Initial(s) && i < j < |Run(s, moves).reports|
    ensures Run(s, moves).reports[i].birth != Run(s, moves).reports[j].birth
  {
    RunKeeps(s, moves);
  }

  /** No directory comes before one that is in it. */
  predicate DeepestFirst(candidates: seq<string>, within: map<string, string>) {
    forall i, j :: 0 <= i <= j < |candidates| && candidates[j] in within ==> within[candidates[j]] != candidates[i]
  }

  /** Every directory in this one is gone. */
  predicate HoldsOnly(s: System, d: string, within: map<string, string>, removed: set<string>) {
    forall c :: c in s.disk && c in within && within[c] == d ==> c in removed
  }

  /** What is removed after a directory was in none that came before it. */
  lemma OneMoreRemoved(s: System, candidates: seq<string>, within: map<string, string>, i: nat, before: set<string>, now: set<string>)
    requires i < |candidates| && DeepestFirst(candidates, within) && (now == before || now == before + {candidates[i]})
    ensures forall d :: d in candidates[..i + 1] ==> (HoldsOnly(s, d, within, now) <==> HoldsOnly(s, d, within, before))
  {
  }

  // ----- The loops that take these steps -----

  /** The guarded fields of the coordinator, with the directories on disk. */
  class FileMutationCoordinator {
    var users: map<string, nat>
    var unowned: set<string>
    var claimed: set<string>
    var disk: set<string>

    ghost predicate Shows(s: System)
      reads this
    {
      users == s.users && unowned == s.unowned && claimed == s.claimed && disk == s.disk
    }

    constructor (disk: set<string>)
      ensures forall s: System :: Initial(s) && s.disk == disk ==> Shows(s)
    {
      users, unowned, claimed, this.disk := map[], {}, {}, disk;
    }

    method EnterMutation(directories: seq<string>, ghost s: System, ghost t: Tid)
      requires Shows(s) && t in s.leases && Lists(directories, s.leases[t].parents)
      modifies this
      ensures Shows(Reserve(s, t))
    {
      for i := 0 to |directories|
        invariant unowned == s.unowned && claimed == s.claimed && disk == s.disk
        invariant forall d :: d in users <==> d in s.users || d in directories[..i]
        invariant forall d :: d in users ==> users[d] == UsersOf(s, d) + if d in directories[..i] then 1 else 0
      {
        var directory := directories[i];
        users := users[directory := (if directory in users then users[directory] else 0) + 1];
      }
      assert directories[..|directories|] == directories;
      assert users == Reserve(s, t).users;
    }

    method CreateDirectory(directory: string, ghost s: System, ghost t: Tid) returns (created: bool)
      requires Shows(s) && t in s.leases
      modifies this
      ensures Shows(Create(s, t, directory)) && created == (directory !in old(disk))
    {
      if directory in disk { return false; }
      disk, unowned := disk + {directory}, unowned + {directory};
      created := true;
    }

    method SuccessfulProvenance(reserved: seq<string>, ghost s: System, ghost t: Tid) returns (adopted: seq<string>)
      requires Shows(s) && t in s.leases && Lists(reserved, s.leases[t].parents)
      modifies this
      ensures Lists(adopted, Adopted(s, s.leases[t])) && Shows(Succeed(s, t, adopted))
    {
      adopted := [];
      for i := 0 to |reserved|
        invariant Distinct(adopted)
        invariant forall d :: d in adopted <==> d in reserved[..i] && d in unowned && d !in claimed && d in disk
      {
        var directory := reserved[i];
        assert directory !in reserved[..i];
        if directory in unowned && directory !in claimed && directory in disk {
          adopted := adopted + [directory];
        }
      }
      assert reserved[..|reserved|] == reserved;
      claimed := claimed + set d | d in adopted;
      unowned := unowned - set d | d in adopted;
    }

    /** `rmdir` succeeds: the directory is there, with nothing in it. */
    predicate IsEmpty(directory: string, within: map<string, string>, holding: set<string>)
      reads this
    {
      directory in disk && directory !in holding && forall c :: c in disk && c in within ==> within[c] != directory
    }

    /**
     The candidates come deepest first. `within` gives the directory that a directory is in, and `holding` are those that
     hold something other than directories. Removed is exactly what may be removed and holds nothing but what is removed.
     */
    method CleanupFailed(candidates: seq<string>, within: map<string, string>, holding: set<string>, ghost s: System, ghost t: Tid)
      returns (ghost removed: set<string>)
      requires Shows(s) && t in s.leases && DeepestFirst(candidates, within)
      requires forall d :: d in candidates <==> d in s.leases[t].created || (d in s.leases[t].parents && d in s.unowned)
      modifies this
      ensures Shows(Cleanup(s, t, removed)) && disk == old(disk) - removed
      ensures forall d :: d in removed <==> MayRemove(s, s.leases[t], d) && d !in holding && HoldsOnly(s, d, within, removed)
    {
      removed := {};
      for i := 0 to |candidates|
        invariant users == s.users && claimed == s.claimed
        invariant disk == s.disk - removed && unowned == s.unowned - removed
        invariant forall d :: d in removed ==> d in candidates[..i]
        invariant forall d :: d in candidates[..i] ==>
                    (d in removed <==> MayRemove(s, s.leases[t], d) && d !in holding && HoldsOnly(s, d, within, removed))
      {
        var directory := candidates[i];
        ghost var before := removed;
        if directory !in claimed && !(directory in users && users[directory] > 1) && IsEmpty(directory, within, holding) {
          disk, unowned := disk - {directory}, unowned - {directory};
          removed := removed + {directory};
        }
        OneMoreRemoved(s, candidates, within, i, before, removed);
      }
      assert candidates[..|candidates|] == candidates;
    }

    /** The fields once the directories in `done` have been given up. */
    ghost predicate LeftSoFar(s: System, done: seq<string>)
      reads this
    {
      && disk == s.disk
      && (forall d :: d in users <==> d in s.users && !(d in done && s.users[d] <= 1))
      && (forall d :: d in users ==> users[d] == s.users[d] - if d in done then 1 else 0)
      && (forall d :: d in unowned <==> d in s.unowned && !(d in done && UsersOf(s, d) <= 1))
      && (forall d :: d in claimed <==> d in s.claimed && !(d in done && UsersOf(s, d) <= 1))
    }

    method LeaveOne(directory: string, ghost s: System, ghost done: seq<string>)
      requires LeftSoFar(s, done) && directory in s.users && s.users[directory] > 0 && directory !in done
      modifies this
      ensures LeftSoFar(s, done + [directory])
    {
      var left := users[directory] - 1;
      if left > 0 {
        users := users[directory := left];
      } else {
        users := users - {directory};
        unowned, claimed := unowned - {directory}, claimed - {directory};
      }
    }

    lemma AllLeft(s: System, t: Tid, directories: seq<string>)
      requires t in s.leases && Lists(directories, s.leases[t].parents) && LeftSoFar(s, directories)
      requires forall d :: d in directories ==> d in s.users && s.users[d] > 0
      ensures Shows(Release(s, t))
    {
      assert users == Release(s, t).users;
    }

    method LeaveMutation(directories: seq<string>, ghost s: System, ghost t: Tid)
      requires Shows(s) && t in s.leases && Lists(directories, s.leases[t].parents)
      requires CountsOk(s) && s.leases[t].Live()
      modifies this
      ensures Shows(Release(s, t))
    {
      forall d | d in directories ensures d in s.users && s.users[d] > 0 { LiveUses(s, t, d); }
      assert LeftSoFar(s, directories[..0]);
      hide LeftSoFar, CountsOk, Shows;
      for i := 0 to |directories|
        invariant LeftSoFar(s, directories[..i])
      {
        assert directories[..i + 1] == directories[..i] + [directories[i]];
        LeaveOne(directories[i], s, directories[..i]);
      }
      assert directories[..|directories|] == directories;
      AllLeft(s, t, directories);
    }
  }
}
