/**
 Whole-file compare-and-swap under a ticket queue per path, as a state machine: any number of threads, each
 step what one thread does while it holds one lock, in any order.
 */
module FileLock {
  import opened Domain

  type Tid = nat

  type Qid = nat

  /** A whole-file version; a commit installs one that was never there before. */
  type Version = nat

  datatype Stage = Entered | Staged | Checked | Finished

  datatype Phase =
    | Outside
    | Joined(queue: Qid)
    | Waiting(queue: Qid, ticket: nat)
    | Holding(queue: Qid, ticket: nat, stage: Stage)
    | Leaving(queue: Qid)
    | Gone
  {
    predicate Live() { !Outside? && !Gone? }

    predicate HasTicket() { Waiting? || Holding? }
  }

  datatype Outcome = Pending | Committed | Stale | Broken

  datatype Thread = Thread(path: string, expected: Version, phase: Phase, outcome: Outcome)

  /** The shared queue object of a path; `arrivals` and `entered` are only remembered. */
  datatype Queue = Queue(path: string, nextTicket: nat, serving: nat, users: nat, arrivals: seq<Tid>, entered: seq<Tid>)

  datatype Commit = Commit(tid: Tid, path: string, from: Version, to: Version)

  datatype System = System(
    threads: map<Tid, Thread>, paths: map<string, Qid>, queues: map<Qid, Queue>, nextQueue: Qid,
    files: map<string, Version>, nextVersion: Version, commits: seq<Commit>)

  // ----- The steps -----

  function SetThread(s: System, t: Tid, th: Thread): System { s.(threads := s.threads[t := th]) }

  /** Join the queue of the path, creating it if nobody uses it. */
  function Join(s: System, t: Tid): System
    requires t in s.threads
  {
    var p := s.threads[t].path;
    if p in s.paths then
      var q := s.paths[p];
      if q in s.queues then
        SetThread(s.(queues := s.queues[q := s.queues[q].(users := s.queues[q].users + 1)]), t, s.threads[t].(phase := Joined(q)))
      else s
    else
      SetThread(s.(paths := s.paths[p := s.nextQueue], queues := s.queues[s.nextQueue := Queue(p, 0, 0, 1, [], [])], nextQueue := s.nextQueue + 1),
                t, s.threads[t].(phase := Joined(s.nextQueue)))
  }

  function TakeTicket(s: System, t: Tid, q: Qid): System
    requires t in s.threads && q in s.queues
  {
    var queue := s.queues[q];
    SetThread(s.(queues := s.queues[q := queue.(nextTicket := queue.nextTicket + 1, arrivals := queue.arrivals + [t])]),
              t, s.threads[t].(phase := Waiting(q, queue.nextTicket)))
  }

  /** A waiting thread enters when its ticket is served; otherwise it goes on waiting. */
  function Enter(s: System, t: Tid, q: Qid, ticket: nat): System
    requires t in s.threads && q in s.queues
  {
    if ticket != s.queues[q].serving then s
    else SetThread(s.(queues := s.queues[q := s.queues[q].(entered := s.queues[q].entered + [t])]), t, s.threads[t].(phase := Holding(q, ticket, Entered)))
  }

  function Observed(s: System, path: string): Version { if path in s.files then s.files[path] else 0 }

  /** `_assert_unchanged`, then on to the next stage, or out with a stale version. */
  function Check(s: System, t: Tid, next: Stage): System
    requires t in s.threads && s.threads[t].phase.Holding?
  {
    var th := s.threads[t];
    if Observed(s, th.path) == th.expected then SetThread(s, t, th.(phase := th.phase.(stage := next)))
    else SetThread(s, t, th.(phase := th.phase.(stage := Finished), outcome := Stale))
  }

  /** `os.replace`: the path has a version that no file had before. */
  function Replace(s: System, t: Tid): System
    requires t in s.threads && s.threads[t].phase.Holding?
  {
    var th := s.threads[t];
    SetThread(s.(files := s.files[th.path := s.nextVersion], nextVersion := s.nextVersion + 1,
                 commits := s.commits + [Commit(t, th.path, th.expected, s.nextVersion)]),
              t, th.(phase := th.phase.(stage := Finished), outcome := Committed))
  }

  function Fail(s: System, t: Tid): System
    requires t in s.threads && s.threads[t].phase.Holding?
  {
    var th := s.threads[t];
    SetThread(s, t, th.(phase := th.phase.(stage := Finished), outcome := Broken))
  }

  function Serve(s: System, t: Tid, q: Qid): System
    requires t in s.threads && q in s.queues
  {
    SetThread(s.(queues := s.queues[q := s.queues[q].(serving := s.queues[q].serving + 1)]), t, s.threads[t].(phase := Leaving(q)))
  }

  /** The last user forgets an idle queue, if the path still stands for it. */
  function Release(s: System, t: Tid, q: Qid): System
    requires t in s.threads && q in s.queues
  {
    var queue := s.queues[q];
    var left := if queue.users == 0 then 0 else queue.users - 1;
    var u := SetThread(s.(queues := s.queues[q := queue.(users := left)]), t, s.threads[t].(phase := Gone));
    if left == 0 && queue.path in s.paths && s.paths[queue.path] == q then u.(paths := s.paths - {queue.path}) else u
  }

  /** What one thread does next; `fails` is an error while it prepares the new content. */
  function ThreadStep(s: System, t: Tid, fails: bool): System
    requires t in s.threads
  {
    match s.threads[t].phase
    case Outside => Join(s, t)
    case Joined(q) => if q in s.queues then TakeTicket(s, t, q) else s
    case Waiting(q, k) => if q in s.queues then Enter(s, t, q, k) else s
    case Holding(q, _, stage) =>
      (match stage
       case Entered => Check(s, t, Staged)
       case Staged => if fails then Fail(s, t) else Check(s, t, Checked)
       case Checked => Replace(s, t)
       case Finished => if q in s.queues then Serve(s, t, q) else s)
    case Leaving(q) => if q in s.queues then Release(s, t, q) else s
    case Gone => s
  }

  datatype Move = ByThread(tid: Tid, fails: bool) | ByOthers(path: string)

  /** One step of the whole: a thread's, or another program gives a file a new version. */
  function Step(s: System, m: Move): System {
    match m
    case ByThread(t, fails) => if t in s.threads then ThreadStep(s, t, fails) else s
    case ByOthers(p) => s.(files := s.files[p := s.nextVersion], nextVersion := s.nextVersion + 1)
  }

  function Run(s: System, moves: seq<Move>): System {
    if moves == [] then s else Step(Run(s, moves[..|moves| - 1]), moves[|moves| - 1])
  }

  // ----- The invariant -----

  function Users(threads: map<Tid, Thread>, q: Qid): set<Tid> {
    set t | t in threads && threads[t].phase.Live() && threads[t].phase.queue == q
  }

  /** Every live thread uses the one queue object of its path, and the object counts its users. */
  ghost predicate QueuesOk(s: System) {
    && (forall t :: t in s.threads && s.threads[t].phase.Live() ==>
          s.threads[t].path in s.paths && s.paths[s.threads[t].path] == s.threads[t].phase.queue)
    && (forall p :: p in s.paths ==> s.paths[p] in s.queues && s.queues[s.paths[p]].path == p)
    && (forall q :: q in s.queues ==> q < s.nextQueue && s.queues[q].users == |Users(s.threads, q)|)
  }

  predicate TicketAt(threads: map<Tid, Thread>, t: Tid, q: Qid, k: nat) {
    t in threads && threads[t].phase.HasTicket() && threads[t].phase.queue == q && threads[t].phase.ticket == k
  }

  /** Tickets are served in order of arrival: the threads from `serving` on hold theirs, and only the first may be inside. */
  ghost predicate TicketsOk(threads: map<Tid, Thread>, q: Qid, queue: Queue) {
    && queue.serving <= queue.nextTicket == |queue.arrivals|
    && (forall k :: queue.serving <= k < queue.nextTicket ==> TicketAt(threads, queue.arrivals[k], q, k))
    && (forall t :: t in threads && threads[t].phase.HasTicket() && threads[t].phase.queue == q ==>
          queue.serving <= threads[t].phase.ticket < queue.nextTicket && queue.arrivals[threads[t].phase.ticket] == t)
    && (forall t :: t in threads && threads[t].phase.Holding? && threads[t].phase.queue == q ==> threads[t].phase.ticket == queue.serving)
    && queue.entered == queue.arrivals[..queue.serving + if Inside(threads, queue) then 1 else 0]
  }

  /** The thread that is being served has entered. */
  predicate Inside(threads: map<Tid, Thread>, queue: Queue) {
    && queue.serving < |queue.arrivals| && queue.arrivals[queue.serving] in threads
    && threads[queue.arrivals[queue.serving]].phase.Holding?
  }

  ghost predicate AllTicketsOk(s: System) {
    forall q :: q in s.queues ==> TicketsOk(s.threads, q, s.queues[q])
  }

  predicate PastCheck(p: Phase) { p.Holding? && (p.stage.Staged? || p.stage.Checked?) }

  /** A version that was replaced never comes back, and nobody who holds the path still expects it. */
  ghost predicate VersionsOk(s: System) {
    && (forall p :: p in s.files ==> s.files[p] < s.nextVersion) && s.nextVersion > 0
    && (forall t :: t in s.threads && PastCheck(s.threads[t].phase) ==> s.threads[t].expected < s.nextVersion)
    && (forall i :: 0 <= i < |s.commits| ==> s.commits[i].from < s.nextVersion && Observed(s, s.commits[i].path) != s.commits[i].from)
    && (forall i, t :: 0 <= i < |s.commits| && t in s.threads && PastCheck(s.threads[t].phase) && s.threads[t].path == s.commits[i].path ==>
          s.threads[t].expected != s.commits[i].from)
    && (forall i, j :: 0 <= i < j < |s.commits| && s.commits[i].path == s.commits[j].path ==> s.commits[i].from != s.commits[j].from)
  }

  ghost predicate Inv(s: System) { QueuesOk(s) && AllTicketsOk(s) && VersionsOk(s) }

  // ----- Tickets -----

  predicate TicketOn(th: Thread, q: Qid) { th.phase.HasTicket() && th.phase.queue == q }

  /** A thread without a ticket on this queue, before and after, does not matter to it. */
  lemma OtherQueue(threads: map<Tid, Thread>, q: Qid, queue: Queue, t: Tid, th: Thread)
    requires TicketsOk(threads, q, queue) && t in threads && !TicketOn(threads[t], q) && !TicketOn(th, q)
    ensures TicketsOk(threads[t := th], q, queue)
  {
  }

  lemma TicketTaken(threads: map<Tid, Thread>, q: Qid, queue: Queue, t: Tid, th: Thread)
    requires TicketsOk(threads, q, queue) && t in threads && !TicketOn(threads[t], q) && th.phase == Waiting(q, queue.nextTicket)
    ensures TicketsOk(threads[t := th], q, queue.(nextTicket := queue.nextTicket + 1, arrivals := queue.arrivals + [t]))
  {
    var later := queue.arrivals + [t];
    assert forall k :: 0 <= k < queue.nextTicket ==> later[k] == queue.arrivals[k];
    assert later[..queue.serving] == queue.arrivals[..queue.serving];
    if queue.serving < queue.nextTicket {
      assert TicketAt(threads, queue.arrivals[queue.serving], q, queue.serving);
      assert later[..queue.serving + 1] == queue.arrivals[..queue.serving + 1];
    }
  }

  lemma TurnEntered(threads: map<Tid, Thread>, q: Qid, queue: Queue, t: Tid, th: Thread)
    requires TicketsOk(threads, q, queue) && t in threads && threads[t].phase == Waiting(q, queue.serving)
    requires th.phase.Holding? && th.phase.queue == q && th.phase.ticket == queue.serving
    ensures TicketsOk(threads[t := th], q, queue.(entered := queue.entered + [t]))
  {
    assert queue.arrivals[queue.serving] == t;
    assert queue.arrivals[..queue.serving + 1] == queue.arrivals[..queue.serving] + [t];
  }

  lemma StageMoves(threads: map<Tid, Thread>, q: Qid, queue: Queue, t: Tid, th: Thread)
    requires TicketsOk(threads, q, queue) && t in threads && threads[t].phase.Holding? && threads[t].phase.queue == q
    requires th.phase.Holding? && th.phase.queue == q && th.phase.ticket == threads[t].phase.ticket
    ensures TicketsOk(threads[t := th], q, queue)
  {
  }

  lemma TurnOver(threads: map<Tid, Thread>, q: Qid, queue: Queue, t: Tid, th: Thread)
    requires TicketsOk(threads, q, queue) && t in threads && threads[t].phase.Holding? && threads[t].phase.queue == q
    requires !th.phase.HasTicket()
    ensures TicketsOk(threads[t := th], q, queue.(serving := queue.serving + 1))
  {
    assert queue.arrivals[queue.serving] == t && TicketAt(threads, t, q, queue.serving);
    var more := queue.(serving := queue.serving + 1);
    forall k | more.serving <= k < queue.nextTicket ensures queue.arrivals[k] != t {
      assert TicketAt(threads, queue.arrivals[k], q, k);
    }
    if more.serving < queue.nextTicket {
      assert TicketAt(threads, queue.arrivals[more.serving], q, more.serving);
      assert !threads[queue.arrivals[more.serving]].phase.Holding?;
    }
  }

  // ----- Users -----

  lemma UserComes(threads: map<Tid, Thread>, t: Tid, th: Thread, q: Qid)
    requires t in threads && !threads[t].phase.Live() && th.phase.Live() && th.phase.queue == q
    ensures |Users(threads[t := th], q)| == |Users(threads, q)| + 1
    ensures forall r :: r != q ==> Users(threads[t := th], r) == Users(threads, r)
  {
    assert Users(threads[t := th], q) == Users(threads, q) + {t};
  }

  lemma UserStays(threads: map<Tid, Thread>, t: Tid, th: Thread)
    requires t in threads && threads[t].phase.Live() && th.phase.Live() && th.phase.queue == threads[t].phase.queue
    ensures forall r :: Users(threads[t := th], r) == Users(threads, r)
  {
  }

  lemma UserGoes(threads: map<Tid, Thread>, t: Tid, th: Thread)
    requires t in threads && threads[t].phase.Live() && !th.phase.Live()
    ensures |Users(threads[t := th], threads[t].phase.queue)| == |Users(threads, threads[t].phase.queue)| - 1
    ensures forall r :: r != threads[t].phase.queue ==> Users(threads[t := th], r) == Users(threads, r)
  {
    assert Users(threads, threads[t].phase.queue) == Users(threads[t := th], threads[t].phase.queue) + {t};
  }

  // ----- Every step keeps the invariant -----

  lemma JoinQueues(s: System, t: Tid)
    requires QueuesOk(s) && t in s.threads && s.threads[t].phase.Outside?
    ensures QueuesOk(Join(s, t))
  {
    var p := s.threads[t].path;
    var q := if p in s.paths then s.paths[p] else s.nextQueue;
    UserComes(s.threads, t, s.threads[t].(phase := Joined(q)), q);
    if p !in s.paths { assert Users(s.threads, q) == {}; }
    hide Users;
  }

  lemma JoinTickets(s: System, t: Tid)
    requires AllTicketsOk(s) && t in s.threads && s.threads[t].phase.Outside? && s.nextQueue !in s.queues
    requires forall x :: x in s.threads && s.threads[x].phase.Live() ==> s.threads[x].phase.queue != s.nextQueue
    ensures AllTicketsOk(Join(s, t))
  {
    hide TicketsOk, Join;
    var u := Join(s, t);
    forall r | r in u.queues ensures TicketsOk(u.threads, r, u.queues[r]) {
      if r in s.queues {
        JoinOther(s, t, r);
      } else {
        JoinNew(s, t, r);
      }
    }
  }

  lemma JoinOther(s: System, t: Tid, r: Qid)
    requires AllTicketsOk(s) && t in s.threads && s.threads[t].phase.Outside? && s.nextQueue !in s.queues && r in s.queues
    ensures r in Join(s, t).queues && TicketsOk(Join(s, t).threads, r, Join(s, t).queues[r])
  {
    hide TicketsOk;
    var u := Join(s, t);
    if u != s {
      OtherQueue(s.threads, r, s.queues[r], t, u.threads[t]);
      SameTickets(u.threads, r, s.queues[r], u.queues[r]);
    }
  }

  /** Nobody has a ticket of a new queue. */
  lemma JoinNew(s: System, t: Tid, r: Qid)
    requires t in s.threads && s.threads[t].phase.Outside? && r in Join(s, t).queues && r !in s.queues
    requires forall x :: x in s.threads && s.threads[x].phase.Live() ==> s.threads[x].phase.queue != s.nextQueue
    ensures TicketsOk(Join(s, t).threads, r, Join(s, t).queues[r])
  {
  }

  lemma JoinKeeps(s: System, t: Tid)
    requires QueuesOk(s) && AllTicketsOk(s) && t in s.threads && s.threads[t].phase.Outside?
    ensures QueuesOk(Join(s, t)) && AllTicketsOk(Join(s, t))
  {
    JoinQueues(s, t);
    forall x | x in s.threads && s.threads[x].phase.Live() ensures s.threads[x].phase.queue != s.nextQueue { LiveQueue(s, x); }
    assert s.nextQueue !in s.queues;
    hide Join, QueuesOk, AllTicketsOk;
    JoinTickets(s, t);
  }

  /** The phase moves on the same queue; the queue objects keep their paths and users. */
  lemma SameUsers(s: System, u: System, t: Tid, th: Thread)
    requires QueuesOk(s) && t in s.threads && s.threads[t].phase.Live() && th.phase.Live() && th.path == s.threads[t].path
    requires th.phase.queue == s.threads[t].phase.queue && u.threads == s.threads[t := th]
    requires u.paths == s.paths && u.nextQueue == s.nextQueue && u.queues.Keys == s.queues.Keys
    requires forall q :: q in s.queues ==> u.queues[q].path == s.queues[q].path && u.queues[q].users == s.queues[q].users
    ensures QueuesOk(u)
  {
    UserStays(s.threads, t, th);
    hide Users;
  }

  lemma OthersKeepTickets(s: System, u: System, t: Tid, th: Thread, q: Qid)
    requires AllTicketsOk(s) && t in s.threads && u.threads == s.threads[t := th] && q in s.queues && q in u.queues && u.queues == s.queues[q := u.queues[q]]
    requires TicketsOk(u.threads, q, u.queues[q])
    requires (s.threads[t].phase.HasTicket() ==> s.threads[t].phase.queue == q) && (th.phase.HasTicket() ==> th.phase.queue == q)
    ensures AllTicketsOk(u)
  {
    forall r | r in u.queues ensures TicketsOk(u.threads, r, u.queues[r]) {
      if r != q { OtherQueue(s.threads, r, s.queues[r], t, th); }
    }
  }

  lemma QueueTickets(s: System, q: Qid)
    requires AllTicketsOk(s) && q in s.queues
    ensures TicketsOk(s.threads, q, s.queues[q])
  {
  }

  lemma LiveQueue(s: System, t: Tid)
    requires QueuesOk(s) && t in s.threads && s.threads[t].phase.Live()
    ensures s.threads[t].phase.queue in s.queues && s.queues[s.threads[t].phase.queue].path == s.threads[t].path
  {
  }

  lemma TakeTicketKeeps(s: System, t: Tid)
    requires QueuesOk(s) && AllTicketsOk(s) && t in s.threads && s.threads[t].phase.Joined?
    ensures var u := ThreadStep(s, t, false); QueuesOk(u) && AllTicketsOk(u)
  {
    hide QueuesOk, AllTicketsOk, TicketsOk, Users;
    LiveQueue(s, t);
    var q := s.threads[t].phase.queue;
    var th, u := s.threads[t].(phase := Waiting(q, s.queues[q].nextTicket)), TakeTicket(s, t, q);
    QueueTickets(s, q);
    SameUsers(s, u, t, th);
    TicketTaken(s.threads, q, s.queues[q], t, th);
    OthersKeepTickets(s, u, t, th, q);
  }

  lemma EnterKeeps(s: System, t: Tid)
    requires QueuesOk(s) && AllTicketsOk(s) && t in s.threads && s.threads[t].phase.Waiting?
    ensures var u := ThreadStep(s, t, false); QueuesOk(u) && AllTicketsOk(u)
  {
    hide QueuesOk, AllTicketsOk, TicketsOk, Users;
    LiveQueue(s, t);
    var q, k := s.threads[t].phase.queue, s.threads[t].phase.ticket;
    if k == s.queues[q].serving {
      var th, u := s.threads[t].(phase := Holding(q, k, Entered)), Enter(s, t, q, k);
      QueueTickets(s, q);
      SameUsers(s, u, t, th);
      TurnEntered(s.threads, q, s.queues[q], t, th);
      OthersKeepTickets(s, u, t, th, q);
    }
  }

  lemma ServeKeeps(s: System, t: Tid)
    requires QueuesOk(s) && AllTicketsOk(s) && t in s.threads && s.threads[t].phase.Holding?
    ensures s.threads[t].phase.queue in s.queues
    ensures var u := Serve(s, t, s.threads[t].phase.queue); QueuesOk(u) && AllTicketsOk(u)
  {
    hide QueuesOk, AllTicketsOk, TicketsOk, Users;
    LiveQueue(s, t);
    var q := s.threads[t].phase.queue;
    var th, u := s.threads[t].(phase := Leaving(q)), Serve(s, t, q);
    QueueTickets(s, q);
    SameUsers(s, u, t, th);
    TurnOver(s.threads, q, s.queues[q], t, th);
    OthersKeepTickets(s, u, t, th, q);
  }

  /** Inside its turn a thread touches no queue. */
  lemma HoldingKeeps(s: System, u: System, t: Tid, th: Thread)
    requires QueuesOk(s) && AllTicketsOk(s) && t in s.threads && s.threads[t].phase.Holding? && th.path == s.threads[t].path
    requires th.phase.Holding? && th.phase.queue == s.threads[t].phase.queue && th.phase.ticket == s.threads[t].phase.ticket
    requires u.threads == s.threads[t := th] && u.paths == s.paths && u.queues == s.queues && u.nextQueue == s.nextQueue
    ensures QueuesOk(u) && AllTicketsOk(u)
  {
    hide QueuesOk, AllTicketsOk, TicketsOk, Users;
    LiveQueue(s, t);
    var q := s.threads[t].phase.queue;
    QueueTickets(s, q);
    SameUsers(s, u, t, th);
    StageMoves(s.threads, q, s.queues[q], t, th);
    OthersKeepTickets(s, u, t, th, q);
  }

  lemma ReleaseQueues(s: System, t: Tid)
    requires QueuesOk(s) && t in s.threads && s.threads[t].phase.Leaving? && s.threads[t].phase.queue in s.queues
    ensures QueuesOk(Release(s, t, s.threads[t].phase.queue))
  {
    var q := s.threads[t].phase.queue;
    var u := Release(s, t, q);
    UserGoes(s.threads, t, s.threads[t].(phase := Gone));
    forall x | x in u.threads && u.threads[x].phase.Live() ensures u.threads[x].path in u.paths {
      if u.threads[x].phase.queue == q { assert x in Users(u.threads, q); }
    }
    hide Users;
  }

  lemma ReleaseTickets(s: System, t: Tid, q: Qid)
    requires AllTicketsOk(s) && t in s.threads && s.threads[t].phase == Leaving(q) && q in s.queues
    ensures AllTicketsOk(Release(s, t, q))
  {
    var u := Release(s, t, q);
    forall r | r in u.queues ensures TicketsOk(u.threads, r, u.queues[r]) {
      OtherQueue(s.threads, r, s.queues[r], t, u.threads[t]);
      SameTickets(u.threads, r, s.queues[r], u.queues[r]);
    }
  }

  lemma ReleaseKeeps(s: System, t: Tid)
    requires QueuesOk(s) && AllTicketsOk(s) && t in s.threads && s.threads[t].phase.Leaving?
    ensures s.threads[t].phase.queue in s.queues
    ensures var u := Release(s, t, s.threads[t].phase.queue); QueuesOk(u) && AllTicketsOk(u)
  {
    LiveQueue(s, t);
    hide QueuesOk, AllTicketsOk, Release;
    ReleaseQueues(s, t);
    ReleaseTickets(s, t, s.threads[t].phase.queue);
  }

  lemma SameTickets(threads: map<Tid, Thread>, q: Qid, queue: Queue, other: Queue)
    requires TicketsOk(threads, q, queue) && other == queue.(users := other.users)
    ensures TicketsOk(threads, q, other)
  {
  }

  // ----- Versions -----

  /** Two threads are never inside the turn of one path at once. */
  lemma MutualExclusion(s: System, a: Tid, b: Tid)
    requires QueuesOk(s) && AllTicketsOk(s) && a in s.threads && b in s.threads
    requires s.threads[a].phase.Holding? && s.threads[b].phase.Holding? && s.threads[a].path == s.threads[b].path
    ensures a == b
  {
    LiveQueue(s, a);
    LiveQueue(s, b);
    var q := s.threads[a].phase.queue;
    assert s.threads[b].phase.queue == q;
    hide QueuesOk;
    assert TicketsOk(s.threads, q, s.queues[q]);
  }

  lemma VersionsFrame(s: System, u: System, t: Tid, th: Thread)
    requires VersionsOk(s) && t in s.threads && u.threads == s.threads[t := th]
    requires u.files == s.files && u.nextVersion == s.nextVersion && u.commits == s.commits
    requires PastCheck(th.phase) ==> PastCheck(s.threads[t].phase) && th.path == s.threads[t].path && th.expected == s.threads[t].expected
    ensures VersionsOk(u)
  {
  }

  lemma CheckVersions(s: System, t: Tid, next: Stage)
    requires VersionsOk(s) && t in s.threads && s.threads[t].phase.Holding?
    ensures VersionsOk(Check(s, t, next))
  {
  }

  /** At most one thread is inside the turn of a path. */
  ghost predicate OneInside(s: System) {
    forall a, b :: (a in s.threads && b in s.threads && s.threads[a].phase.Holding? && s.threads[b].phase.Holding?
                    && s.threads[a].path == s.threads[b].path) ==> a == b
  }

  lemma InsideAlone(s: System)
    requires QueuesOk(s) && AllTicketsOk(s)
    ensures OneInside(s)
  {
    forall a, b | a in s.threads && b in s.threads && s.threads[a].phase.Holding? && s.threads[b].phase.Holding?
                  && s.threads[a].path == s.threads[b].path ensures a == b
    {
      MutualExclusion(s, a, b);
    }
  }

  lemma ReplaceVersions(s: System, t: Tid)
    requires VersionsOk(s) && OneInside(s) && t in s.threads && s.threads[t].phase.Holding? && s.threads[t].phase.stage.Checked?
    ensures VersionsOk(Replace(s, t))
  {
  }

  /** The steps before and after the turn leave files and commits alone, and no thread gets past a check. */
  lemma QueueStepVersions(s: System, t: Tid)
    requires VersionsOk(s) && t in s.threads && !s.threads[t].phase.Holding?
    ensures VersionsOk(ThreadStep(s, t, false))
  {
    hide VersionsOk;
    var u := ThreadStep(s, t, false);
    if u != s {
      VersionsFrame(s, u, t, u.threads[t]);
    }
  }

  lemma QueueStepKeeps(s: System, t: Tid)
    requires Inv(s) && t in s.threads && !s.threads[t].phase.Holding?
    ensures Inv(ThreadStep(s, t, false))
  {
    if s.threads[t].phase.Live() { LiveQueue(s, t); }
    hide QueuesOk, AllTicketsOk, VersionsOk, Join, TakeTicket, Enter, Release;
    QueueStepVersions(s, t);
    match s.threads[t].phase
    case Outside => JoinKeeps(s, t);
    case Joined(q) => TakeTicketKeeps(s, t);
    case Waiting(q, k) => EnterKeeps(s, t);
    case Leaving(q) => ReleaseKeeps(s, t);
    case Gone =>
  }

  lemma ServeVersions(s: System, t: Tid, q: Qid)
    requires VersionsOk(s) && t in s.threads && q in s.queues
    ensures VersionsOk(Serve(s, t, q))
  {
    hide VersionsOk;
    var u := Serve(s, t, q);
    VersionsFrame(s, u, t, u.threads[t]);
  }

  lemma FinishedStepKeeps(s: System, t: Tid)
    requires Inv(s) && t in s.threads && s.threads[t].phase.Holding? && s.threads[t].phase.stage.Finished?
    ensures Inv(ThreadStep(s, t, false))
  {
    hide QueuesOk, AllTicketsOk, VersionsOk, Serve, TicketsOk, Users;
    ServeKeeps(s, t);
    ServeVersions(s, t, s.threads[t].phase.queue);
  }

  lemma TurnStepKeeps(s: System, t: Tid, fails: bool)
    requires Inv(s) && t in s.threads && s.threads[t].phase.Holding? && !s.threads[t].phase.stage.Finished?
    ensures Inv(ThreadStep(s, t, fails))
  {
    hide QueuesOk, AllTicketsOk, VersionsOk;
    var u := ThreadStep(s, t, fails);
    HoldingKeeps(s, u, t, u.threads[t]);
    match s.threads[t].phase.stage
    case Checked =>
      InsideAlone(s);
      ReplaceVersions(s, t);
    case Entered => CheckVersions(s, t, Staged);
    case Staged => if fails { VersionsFrame(s, u, t, u.threads[t]); } else { CheckVersions(s, t, Checked); }
  }

  lemma ThreadStepKeeps(s: System, t: Tid, fails: bool)
    requires Inv(s) && t in s.threads
    ensures Inv(ThreadStep(s, t, fails))
  {
    hide Inv, Join, TakeTicket, Enter, Release, Serve, Check, Replace, Fail;
    if !s.threads[t].phase.Holding? {
      QueueStepKeeps(s, t);
    } else if s.threads[t].phase.stage.Finished? {
      FinishedStepKeeps(s, t);
    } else {
      TurnStepKeeps(s, t, fails);
    }
  }

  lemma OthersKeep(s: System, p: string)
    requires Inv(s)
    ensures Inv(Step(s, ByOthers(p)))
  {
  }

  lemma StepKeeps(s: System, m: Move)
    requires Inv(s)
    ensures Inv(Step(s, m))
  {
    hide Inv, ThreadStep;
    match m
    case ByThread(t, fails) => if t in s.threads { ThreadStepKeeps(s, t, fails); }
    case ByOthers(p) => OthersKeep(s, p);
  }

  /** Nobody has come yet. */
  ghost predicate Initial(s: System) {
    && (forall t :: t in s.threads ==> s.threads[t].phase.Outside?) && s.paths == map[] && s.queues == map[] && s.commits == []
    && s.nextVersion > 0 && forall p :: p in s.files ==> s.files[p] < s.nextVersion
  }

  /**
   In every run of every number of threads: live users of a path share one queue object, only one is inside,
   they enter in order of their tickets, and of the changes prepared against one version at most one commits.
   */
  lemma {:induction false} RunKeeps(s: System, moves: seq<Move>)
    requires Initial(s)
    ensures Inv(Run(s, moves))
  {
    if moves != [] {
      RunKeeps(s, moves[..|moves| - 1]);
      StepKeeps(Run(s, moves[..|moves| - 1]), moves[|moves| - 1]);
    }
  }

  /** Live users of one path use one queue object. */
  ghost predicate SharedQueue(s: System) {
    forall a, b :: (a in s.threads && b in s.threads && s.threads[a].phase.Live() && s.threads[b].phase.Live()
                    && s.threads[a].path == s.threads[b].path) ==> s.threads[a].phase.queue == s.threads[b].phase.queue
  }

  /** Threads enter in the order in which they took their tickets. */
  ghost predicate FirstComeFirstServed(s: System) {
    forall q :: q in s.queues ==> s.queues[q].entered <= s.queues[q].arrivals
  }

  /** Of the changes prepared against one version of a path, at most one is committed. */
  ghost predicate OncePerVersion(s: System) {
    forall i, j :: 0 <= i < j < |s.commits| && s.commits[i].path == s.commits[j].path ==> s.commits[i].from != s.commits[j].from
  }

  lemma NoLostUpdate(s: System, moves: seq<Move>)
    requires Initial(s)
    ensures var u := Run(s, moves); SharedQueue(u) && OneInside(u) && FirstComeFirstServed(u) && OncePerVersion(u)
  {
    var u := Run(s, moves);
    RunKeeps(s, moves);
    hide Run;
    InsideAlone(u);
    assert FirstComeFirstServed(u) by {
      forall q | q in u.queues ensures u.queues[q].entered <= u.queues[q].arrivals {
        assert TicketsOk(u.threads, q, u.queues[q]);
      }
    }
    hide AllTicketsOk;
  }

  /** Whoever comes with a version that has been replaced is told so. */
  lemma LaterIsStale(s: System, t: Tid, i: nat, fails: bool)
    requires Inv(s) && i < |s.commits| && t in s.threads && s.threads[t].phase.Holding? && s.threads[t].phase.stage.Entered?
    requires s.threads[t].path == s.commits[i].path && s.threads[t].expected == s.commits[i].from
    ensures ThreadStep(s, t, fails).threads[t].outcome.Stale? && ThreadStep(s, t, fails).threads[t].phase.stage.Finished?
    ensures ThreadStep(s, t, fails).files == s.files
  {
  }

  // ----- Whoever comes with the current version and is left in peace commits -----

  /** No other program moves on the path, and this thread does not fail; the other threads do what they like. */
  predicate Peaceful(moves: seq<Move>, t: Tid, path: string) {
    forall i :: 0 <= i < |moves| ==> moves[i] != ByOthers(path) && moves[i] != ByThread(t, true)
  }

  function OwnSteps(moves: seq<Move>, t: Tid): nat {
    if moves == [] then 0 else OwnSteps(moves[..|moves| - 1], t) + if moves[|moves| - 1] == ByThread(t, false) then 1 else 0
  }

  /** How far a thread has got in its turn after some steps of its own. */
  predicate Along(s: System, t: Tid, path: string, expected: Version, steps: nat) {
    && t in s.threads && s.threads[t].path == path && s.threads[t].expected == expected
    && if steps < 3 then
         && s.threads[t].phase.Holding? && Observed(s, path) == expected
         && s.threads[t].phase.stage == (if steps == 0 then Entered else if steps == 1 then Staged else Checked)
       else
         && (s.threads[t].phase.Leaving? || s.threads[t].phase.Gone? || (s.threads[t].phase.Holding? && s.threads[t].phase.stage.Finished?))
         && s.threads[t].outcome.Committed? && exists i :: 0 <= i < |s.commits| && IsCommit(s.commits[i], t, path, expected)
  }

  predicate IsCommit(c: Commit, t: Tid, path: string, from: Version) { c.tid == t && c.path == path && c.from == from }

  lemma OwnStepMoves(s: System, t: Tid, path: string, expected: Version, steps: nat)
    requires QueuesOk(s) && Along(s, t, path, expected, steps)
    ensures Along(ThreadStep(s, t, false), t, path, expected, steps + 1)
  {
    if steps == 2 { assert IsCommit(Replace(s, t).commits[|s.commits|], t, path, expected); }
    if s.threads[t].phase.Live() { LiveQueue(s, t); }
    hide QueuesOk, IsCommit;
  }

  /** This thread, the commits and the file that it has in its turn are as they were. */
  predicate Left(s: System, u: System, t: Tid) {
    && t in s.threads && t in u.threads && u.threads[t] == s.threads[t] && s.commits <= u.commits
    && (s.threads[t].phase.Holding? ==> Observed(u, s.threads[t].path) == Observed(s, s.threads[t].path))
  }

  lemma TurnLeaves(s: System, x: Tid, fails: bool, t: Tid)
    requires t in s.threads && x in s.threads && x != t && s.threads[x].phase.Holding?
    requires s.threads[t].phase.Holding? ==> s.threads[x].path != s.threads[t].path
    ensures Left(s, ThreadStep(s, x, fails), t)
  {
  }

  lemma QueueLeaves(s: System, x: Tid, fails: bool, t: Tid)
    requires t in s.threads && x in s.threads && x != t && !s.threads[x].phase.Holding?
    ensures Left(s, ThreadStep(s, x, fails), t)
  {
  }

  lemma OtherPath(s: System, x: Tid, t: Tid)
    requires OneInside(s) && t in s.threads && x in s.threads && x != t && s.threads[x].phase.Holding? && s.threads[t].phase.Holding?
    ensures s.threads[x].path != s.threads[t].path
  {
  }

  /** Another thread changes neither this one nor, while this one has its turn, the file: it is not its turn. */
  lemma OtherStepLeaves(s: System, x: Tid, fails: bool, t: Tid)
    requires OneInside(s) && t in s.threads && x != t && x in s.threads
    ensures Left(s, ThreadStep(s, x, fails), t)
  {
    hide *;
    if s.threads[x].phase.Holding? {
      if s.threads[t].phase.Holding? { OtherPath(s, x, t); }
      TurnLeaves(s, x, fails, t);
    } else {
      QueueLeaves(s, x, fails, t);
    }
  }

  lemma OtherStepWaits(s: System, x: Tid, fails: bool, t: Tid, path: string, expected: Version, steps: nat)
    requires OneInside(s) && Along(s, t, path, expected, steps) && x != t && x in s.threads
    ensures Along(ThreadStep(s, x, fails), t, path, expected, steps)
  {
    OtherStepLeaves(s, x, fails, t);
    hide OneInside, ThreadStep, Observed, IsCommit;
    if steps >= 3 {
      var i :| 0 <= i < |s.commits| && IsCommit(s.commits[i], t, path, expected);
      assert ThreadStep(s, x, fails).commits[i] == s.commits[i];
    }
  }

  lemma GoesOn(s: System, m: Move, t: Tid, path: string, expected: Version, steps: nat)
    requires Inv(s) && Along(s, t, path, expected, steps) && m != ByOthers(path) && m != ByThread(t, true)
    ensures Inv(Step(s, m)) && Along(Step(s, m), t, path, expected, steps + if m == ByThread(t, false) then 1 else 0)
  {
    StepKeeps(s, m);
    InsideAlone(s);
    IsIn(s, t, path, expected, steps);
    hide AllTicketsOk, QueuesOk, VersionsOk, OneInside, Along, ThreadStep;
    match m
    case ByThread(x, fails) =>
      if x == t {
        OwnStepMoves(s, t, path, expected, steps);
      } else if x in s.threads {
        OtherStepWaits(s, x, fails, t, path, expected, steps);
      }
    case ByOthers(p) => OthersElsewhere(s, p, t, path, expected, steps);
  }

  lemma IsIn(s: System, t: Tid, path: string, expected: Version, steps: nat)
    requires Along(s, t, path, expected, steps)
    ensures t in s.threads
  {
  }

  lemma {:induction false} EnteredGoesOn(s: System, moves: seq<Move>, t: Tid, path: string, expected: Version)
    requires Inv(s) && Along(s, t, path, expected, 0) && Peaceful(moves, t, path)
    ensures Inv(Run(s, moves)) && Along(Run(s, moves), t, path, expected, OwnSteps(moves, t))
  {
    hide Inv, Along, Step;
    if moves != [] {
      var front, m := moves[..|moves| - 1], moves[|moves| - 1];
      EnteredGoesOn(s, front, t, path, expected);
      GoesOn(Run(s, front), m, t, path, expected, OwnSteps(front, t));
    }
  }

  lemma OthersElsewhere(s: System, p: string, t: Tid, path: string, expected: Version, steps: nat)
    requires Along(s, t, path, expected, steps) && p != path
    ensures Along(Step(s, ByOthers(p)), t, path, expected, steps)
  {
  }

  /**
   A thread whose turn begins with the current version of the file, and which meets no failure and no other program on its
   path, commits with its third step, whatever the other threads do in between.
   */
  lemma UndisturbedCommits(s: System, moves: seq<Move>, t: Tid)
    requires Inv(s) && t in s.threads && s.threads[t].phase.Holding? && s.threads[t].phase.stage.Entered?
    requires Observed(s, s.threads[t].path) == s.threads[t].expected && Peaceful(moves, t, s.threads[t].path)
    ensures var u := Run(s, moves);
            && t in u.threads
            && (OwnSteps(moves, t) >= 3 ==>
                  u.threads[t].outcome.Committed?
                  && exists i :: 0 <= i < |u.commits| && IsCommit(u.commits[i], t, s.threads[t].path, s.threads[t].expected))
            && (OwnSteps(moves, t) < 3 ==> u.threads[t].phase.Holding? && Observed(u, s.threads[t].path) == s.threads[t].expected)
  {
    EnteredGoesOn(s, moves, t, s.threads[t].path, s.threads[t].expected);
    hide Inv, Run, OwnSteps, Peaceful;
  }

  lemma MovesOn(s: System, t: Tid)
    requires t in s.threads && s.threads[t].phase.Live() && s.threads[t].phase.queue in s.queues
    requires s.threads[t].phase.Waiting? ==> s.threads[t].phase.ticket == s.queues[s.threads[t].phase.queue].serving
    ensures t in ThreadStep(s, t, false).threads && ThreadStep(s, t, false).threads[t].phase != s.threads[t].phase
  {
  }

  /** As long as somebody is in, somebody can move: the queues do not deadlock. */
  lemma SomebodyMoves(s: System, t: Tid)
    requires Inv(s) && t in s.threads && s.threads[t].phase.Live()
    ensures exists x :: x in s.threads && s.threads[x].phase.Live() && x in ThreadStep(s, x, false).threads
                        && ThreadStep(s, x, false).threads[x].phase != s.threads[x].phase
  {
    LiveQueue(s, t);
    var q := s.threads[t].phase.queue;
    if s.threads[t].phase.Waiting? {
      assert TicketsOk(s.threads, q, s.queues[q]);
      var first := s.queues[q].arrivals[s.queues[q].serving];
      assert TicketAt(s.threads, first, q, s.queues[q].serving);
      hide Inv, TicketsOk, ThreadStep;
      MovesOn(s, first);
    } else {
      hide Inv, ThreadStep;
      MovesOn(s, t);
    }
  }

  // ----- Without other programs every commit builds on the one before -----

  predicate OnlyThreads(moves: seq<Move>) { forall m :: m in moves ==> m.ByThread? }

  /** The version of a path after these commits. */
  function VersionAfter(files: map<string, Version>, commits: seq<Commit>, p: string): Version {
    if commits == [] then (if p in files then files[p] else 0)
    else if commits[|commits| - 1].path == p then commits[|commits| - 1].to
    else VersionAfter(files, commits[..|commits| - 1], p)
  }

  ghost predicate Chained(files: map<string, Version>, commits: seq<Commit>) {
    forall i :: 0 <= i < |commits| ==> commits[i].from == VersionAfter(files, commits[..i], commits[i].path)
  }

  ghost predicate Undisturbed(files: map<string, Version>, s: System) {
    && Chained(files, s.commits) && (forall p :: Observed(s, p) == VersionAfter(files, s.commits, p))
    && forall t :: t in s.threads && PastCheck(s.threads[t].phase) ==> Observed(s, s.threads[t].path) == s.threads[t].expected
  }

  lemma ChainGrows(files: map<string, Version>, commits: seq<Commit>, c: Commit)
    requires Chained(files, commits) && c.from == VersionAfter(files, commits, c.path)
    ensures Chained(files, commits + [c])
    ensures forall p :: VersionAfter(files, commits + [c], p) == if p == c.path then c.to else VersionAfter(files, commits, p)
  {
    var more := commits + [c];
    assert more[..|commits|] == commits;
    forall i | 0 <= i < |more| ensures more[i].from == VersionAfter(files, more[..i], more[i].path) {
      assert more[..i] == commits[..i];
    }
  }

  lemma ReplaceUndisturbed(files: map<string, Version>, s: System, t: Tid)
    requires OneInside(s) && Undisturbed(files, s) && t in s.threads && s.threads[t].phase.Holding? && s.threads[t].phase.stage.Checked?
    ensures Undisturbed(files, Replace(s, t))
  {
    ChainGrows(files, s.commits, Commit(t, s.threads[t].path, s.threads[t].expected, s.nextVersion));
    ReplaceKeepsOthers(s, t);
    hide Chained, VersionAfter, OneInside;
  }

  /** A commit disturbs nobody else who is past the check: such a thread is inside another path's turn. */
  lemma ReplaceKeepsOthers(s: System, t: Tid)
    requires OneInside(s) && t in s.threads && s.threads[t].phase.Holding?
    requires forall x :: x in s.threads && PastCheck(s.threads[x].phase) ==> Observed(s, s.threads[x].path) == s.threads[x].expected
    ensures var u := Replace(s, t);
            forall x :: x in u.threads && PastCheck(u.threads[x].phase) ==> Observed(u, u.threads[x].path) == u.threads[x].expected
  {
  }

  /** The steps that leave files and commits alone. */
  lemma UndisturbedFrame(files: map<string, Version>, s: System, u: System, t: Tid, th: Thread)
    requires Undisturbed(files, s) && t in s.threads && u.threads == s.threads[t := th] && u.files == s.files && u.commits == s.commits
    requires PastCheck(th.phase) ==> Observed(s, th.path) == th.expected
    ensures Undisturbed(files, u)
  {
    hide Chained, VersionAfter;
  }

  lemma CheckedKnows(files: map<string, Version>, s: System, t: Tid)
    requires Undisturbed(files, s) && t in s.threads
    ensures PastCheck(s.threads[t].phase) ==> Observed(s, s.threads[t].path) == s.threads[t].expected
  {
  }

  lemma ThreadUndisturbed(files: map<string, Version>, s: System, t: Tid, fails: bool)
    requires OneInside(s) && Undisturbed(files, s) && t in s.threads
    ensures Undisturbed(files, ThreadStep(s, t, fails))
  {
    hide Undisturbed, OneInside;
    var th, u := s.threads[t], ThreadStep(s, t, fails);
    CheckedKnows(files, s, t);
    if th.phase.Holding? && th.phase.stage.Checked? {
      ReplaceUndisturbed(files, s, t);
    } else if u != s {
      UndisturbedFrame(files, s, u, t, u.threads[t]);
    }
  }

  /**
   With no other program about, every commit replaces exactly what the commit before it on that path left:
   no update is lost.
   */
  lemma {:induction false} CommitsChain(s: System, moves: seq<Move>)
    requires Initial(s) && OnlyThreads(moves)
    ensures Undisturbed(s.files, Run(s, moves))
  {
    if moves != [] {
      var front, m := moves[..|moves| - 1], moves[|moves| - 1];
      assert m in moves;
      CommitsChain(s, front);
      NoLostUpdate(s, front);
      hide Undisturbed, ThreadStep, OneInside;
      if m.tid in Run(s, front).threads { ThreadUndisturbed(s.files, Run(s, front), m.tid, m.fails); }
    }
  }
}
