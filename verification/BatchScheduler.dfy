/**
 The scheduler of one accepted batch of tool calls: exclusive calls are barriers, runs of parallel calls
 overlap under a limit, results are committed in model order, and calls that never start are closed.
 */
module BatchScheduler {

  /** What happens to call number `i`: its start is recorded, its body returns, its result is recorded, or it is closed. */
  datatype Act = Begin(i: nat) | Return(i: nat) | Commit(i: nat) | Close(i: nat)

  function Begins(log: seq<Act>): seq<nat> {
    if log == [] then []
    else Begins(log[..|log| - 1]) + if log[|log| - 1].Begin? then [log[|log| - 1].i] else []
  }

  function Commits(log: seq<Act>): seq<nat> {
    if log == [] then []
    else Commits(log[..|log| - 1]) + if log[|log| - 1].Commit? then [log[|log| - 1].i] else []
  }

  function Closes(log: seq<Act>): seq<nat> {
    if log == [] then []
    else Closes(log[..|log| - 1]) + if log[|log| - 1].Close? then [log[|log| - 1].i] else []
  }

  /** The bodies that run after these acts. */
  function Running(log: seq<Act>): set<nat> {
    if log == [] then {}
    else
      var before, a := Running(log[..|log| - 1]), log[|log| - 1];
      if a.Begin? then before + {a.i} else if a.Return? then before - {a.i} else before
  }

  function Range(from: nat, to: nat): seq<nat>
    requires from <= to
  {
    seq(to - from, k requires 0 <= k => from + k)
  }

  /** At most `limit` bodies at once, and an exclusive one runs alone. */
  ghost predicate LimitOk(running: set<nat>, limit: nat, parallel: seq<bool>) {
    |running| <= limit && forall i :: i in running ==> i < |parallel| && (!parallel[i] ==> running == {i})
  }

  ghost predicate LimitsKept(log: seq<Act>, limit: nat, parallel: seq<bool>) {
    forall k :: 0 <= k <= |log| ==> LimitOk(Running(log[..k]), limit, parallel)
  }

  /** Once an interrupted result is recorded, nothing starts any more. */
  ghost predicate AdmissionStops(log: seq<Act>, interrupts: seq<bool>) {
    forall a, b :: 0 <= a < b < |log| && log[a].Commit? && log[a].i < |interrupts| && interrupts[log[a].i] ==> !log[b].Begin?
  }

  ghost predicate NoneInterrupted(interrupts: seq<bool>, upTo: nat) {
    forall i :: 0 <= i < upTo && i < |interrupts| ==> !interrupts[i]
  }

  /** How far the batch has got: a prefix has started, a shorter one is committed, and these bodies run. */
  ghost predicate Progress(log: seq<Act>, began: nat, committed: nat, running: set<nat>, limit: nat, parallel: seq<bool>, interrupts: seq<bool>) {
    && Begins(log) == Range(0, began) && Commits(log) == Range(0, committed) && Closes(log) == []
    && Running(log) == running && LimitsKept(log, limit, parallel) && AdmissionStops(log, interrupts)
    && forall a :: 0 <= a < |log| && log[a].Commit? ==> log[a].i < committed
  }

  lemma LimitsGrow(log: seq<Act>, a: Act, limit: nat, parallel: seq<bool>)
    requires LimitsKept(log, limit, parallel) && LimitOk(Running(log + [a]), limit, parallel)
    ensures LimitsKept(log + [a], limit, parallel)
  {
    forall k | 0 <= k <= |log| + 1 ensures LimitOk(Running((log + [a])[..k]), limit, parallel) {
      assert (log + [a])[..k] == if k <= |log| then log[..k] else log + [a];
    }
  }

  lemma BeginStep(log: seq<Act>, began: nat, committed: nat, running: set<nat>, limit: nat, parallel: seq<bool>, interrupts: seq<bool>)
    requires Progress(log, began, committed, running, limit, parallel, interrupts) && NoneInterrupted(interrupts, committed)
    requires LimitOk(running + {began}, limit, parallel)
    ensures Progress(log + [Begin(began)], began + 1, committed, running + {began}, limit, parallel, interrupts)
  {
    var more := log + [Begin(began)];
    assert more[..|log|] == log;
    LimitsGrow(log, Begin(began), limit, parallel);
    assert Range(0, began + 1) == Range(0, began) + [began];
  }

  lemma ReturnStep(log: seq<Act>, began: nat, committed: nat, running: set<nat>, limit: nat, parallel: seq<bool>, interrupts: seq<bool>, i: nat)
    requires Progress(log, began, committed, running, limit, parallel, interrupts)
    ensures Progress(log + [Return(i)], began, committed, running - {i}, limit, parallel, interrupts)
  {
    var more := log + [Return(i)];
    assert more[..|log|] == log && log[..|log|] == log;
    FewerRun(running, running - {i}, limit, parallel);
    LimitsGrow(log, Return(i), limit, parallel);
  }

  lemma FewerRun(all: set<nat>, some: set<nat>, limit: nat, parallel: seq<bool>)
    requires some <= all && LimitOk(all, limit, parallel)
    ensures LimitOk(some, limit, parallel)
  {
    assert all == some + (all - some);
  }

  lemma OneMoreRuns(running: set<nat>, next: nat, limit: nat, parallel: seq<bool>)
    requires |running| < limit && next < |parallel| && parallel[next] && forall i :: i in running ==> i < next && parallel[i]
    ensures LimitOk(running + {next}, limit, parallel)
  {
  }

  lemma CommitStep(log: seq<Act>, began: nat, committed: nat, running: set<nat>, limit: nat, parallel: seq<bool>, interrupts: seq<bool>)
    requires Progress(log, began, committed, running, limit, parallel, interrupts)
    ensures Progress(log + [Commit(committed)], began, committed + 1, running, limit, parallel, interrupts)
  {
    var more := log + [Commit(committed)];
    assert more[..|log|] == log && log[..|log|] == log;
    LimitsGrow(log, Commit(committed), limit, parallel);
    assert Range(0, committed + 1) == Range(0, committed) + [committed];
  }

  /** The end of a batch: what started is committed, in order; the rest is closed, in order; nothing runs. */
  ghost predicate Settled(log: seq<Act>, began: nat, calls: nat, limit: nat, parallel: seq<bool>, interrupts: seq<bool>) {
    && began <= calls && Begins(log) == Range(0, began) && Commits(log) == Range(0, began)
    && Closes(log) == Range(began, calls) && Running(log) == {}
    && LimitsKept(log, limit, parallel) && AdmissionStops(log, interrupts)
  }

  class ToolBatchScheduler {
    /** Which calls may run in parallel, and which results say that the call was interrupted. */
    const parallel: seq<bool>
    const interrupts: seq<bool>
    const maxParallel: nat
    var log: seq<Act>
    /** Whether the user interrupted a wait. */
    var keyboard: bool

    constructor (parallel: seq<bool>, interrupts: seq<bool>, maxParallel: nat)
      requires |parallel| == |interrupts| && maxParallel >= 1
      ensures this.parallel == parallel && this.interrupts == interrupts && this.maxParallel == maxParallel
      ensures log == [] && !keyboard && At(0, 0, {})
    {
      this.parallel, this.interrupts, this.maxParallel := parallel, interrupts, maxParallel;
      log, keyboard := [], false;
    }

    ghost predicate At(began: nat, committed: nat, running: set<nat>)
      reads this
    {
      && |parallel| == |interrupts| && maxParallel >= 1 && committed <= began <= |parallel|
      && Progress(log, began, committed, running, maxParallel, parallel, interrupts)
    }

    /** Record that calls which never started are closed. */
    method CloseCalls(from: nat, to: nat, ghost began: nat)
      requires from <= to && Settled(log, began, from, maxParallel, parallel, interrupts)
      modifies `log
      ensures Settled(log, began, to, maxParallel, parallel, interrupts)
    {
      for i := from to to
        invariant Settled(log, began, i, maxParallel, parallel, interrupts)
      {
        CloseStep(log, began, i, maxParallel, parallel, interrupts);
        log := log + [Close(i)];
      }
    }

    /** Bodies that have returned, in any order. */
    method ReturnBodies(done: set<nat>, ghost began: nat, ghost committed: nat, ghost running: set<nat>)
      requires At(began, committed, running) && done <= running
      modifies `log
      ensures At(began, committed, running - done)
    {
      hide Progress;
      var left := done;
      assert running - (done - left) == running;
      while left != {}
        invariant left <= done && At(began, committed, running - (done - left))
      {
        var i :| i in left;
        ReturnStep(log, began, committed, running - (done - left), maxParallel, parallel, interrupts, i);
        assert running - (done - left) - {i} == running - (done - (left - {i}));
        log := log + [Return(i)];
        left := left - {i};
      }
      assert running - (done - left) == running - done;
    }

    /** Commit the results that are ready, as far as they reach without a gap. */
    method CommitReady(next: nat, filled: set<nat>, ghost began: nat, ghost running: set<nat>) returns (next': nat, interrupted: bool)
      requires At(began, next, running) && forall i :: i in filled ==> i < began
      modifies `log
      ensures At(began, next', running) && next <= next' && next' !in filled && forall i :: next <= i < next' ==> i in filled
      ensures interrupted <==> exists i :: next <= i < next' && interrupts[i]
    {
      hide Progress;
      next', interrupted := next, false;
      while next' in filled
        invariant At(began, next', running) && next <= next' && forall i :: next <= i < next' ==> i in filled
        invariant interrupted <==> exists i :: next <= i < next' && interrupts[i]
        decreases began - next'
      {
        CommitStep(log, began, next', running, maxParallel, parallel, interrupts);
        log := log + [Commit(next')];
        interrupted := interrupted || interrupts[next'];
        next' := next' + 1;
      }
    }

    /** Start parallel calls up to the limit. */
    method StartMore(next: nat, end: nat, inFlight: set<nat>, ghost committed: nat) returns (next': nat, inFlight': set<nat>)
      requires At(next, committed, inFlight) && next <= end <= |parallel| && NoneInterrupted(interrupts, committed) && |inFlight| <= maxParallel
      requires (forall i :: next <= i < end ==> parallel[i]) && (forall i :: i in inFlight ==> i < next && parallel[i])
      modifies `log
      ensures At(next', committed, inFlight') && next <= next' <= end && |inFlight'| <= maxParallel && (next' < end ==> inFlight' != {})
      ensures forall i :: i in inFlight' <==> i in inFlight || next <= i < next'
    {
      next', inFlight' := next, inFlight;
      hide Progress, NoneInterrupted, LimitOk;
      while next' < end && |inFlight'| < maxParallel
        invariant At(next', committed, inFlight') && next <= next' <= end && |inFlight'| <= maxParallel
        invariant forall i :: i in inFlight' <==> i in inFlight || next <= i < next'
      {
        OneMoreRuns(inFlight', next', maxParallel, parallel);
        BeginStep(log, next', committed, inFlight', maxParallel, parallel, interrupts);
        log := log + [Begin(next')];
        inFlight' := inFlight' + {next'};
        next' := next' + 1;
      }
    }

    /** Wait for the bodies that still run, commit their results, and close what never started. */
    method DrainAndClose(next: nat, end: nat, inFlight: set<nat>, committed: nat, filled: set<nat>)
      requires At(next, committed, inFlight) && next <= end <= |parallel| && Slots(committed, next, inFlight, filled) && committed !in filled
      modifies `log
      ensures Settled(log, next, end, maxParallel, parallel, interrupts)
    {
      var running: set<nat>, ready: set<nat>, done: nat := inFlight, filled, committed;
      hide Progress, Settled;
      while running != {}
        invariant At(next, done, running) && Slots(done, next, running, ready) && done !in ready
      {
        var some: set<nat> :| some != {} && some <= running;
        ReturnBodies(some, next, done, running);
        running, ready := running - some, ready + some;
        ghost var before := done;
        var observed;
        done, observed := CommitReady(done, ready, next, running);
      }
      assert done == next;
      ProgressSettles(log, next, maxParallel, parallel, interrupts);
      CloseCalls(next, end, next);
    }

    /** A run of parallel calls.  `began` says how many calls of the batch have started when it is interrupted. */
    method RunParallelGroup(from: nat, end: nat) returns (interrupted: bool, ghost began: nat)
      requires At(from, from, {}) && from < end <= |parallel| && NoneInterrupted(interrupts, from) && !keyboard
      requires forall i :: from <= i < end ==> parallel[i]
      modifies `log, `keyboard
      ensures !interrupted ==> At(end, end, {}) && NoneInterrupted(interrupts, end) && !keyboard
      ensures interrupted ==> from < began <= end && Settled(log, began, end, maxParallel, parallel, interrupts)
      ensures interrupted ==> keyboard || !NoneInterrupted(interrupts, began)
    {
      var next: nat, committed: nat := from, from;
      var inFlight: set<nat>, filled: set<nat> := {}, {};
      hide Progress, Settled, NoneInterrupted;
      while committed < end
        invariant At(next, committed, inFlight) && from <= committed && next <= end && NoneInterrupted(interrupts, committed) && !keyboard
        invariant Slots(committed, next, inFlight, filled) && committed !in filled && |inFlight| <= maxParallel
        invariant from < next || committed == from
        decreases end - next + |inFlight|
      {
        ghost var before, size := inFlight, |inFlight|;
        ghost var first := next;
        next, inFlight := StartMore(next, end, inFlight, committed);
        Grown(before, inFlight, first, next);
        var hit: bool := *;
        if hit {
          keyboard := true;
          began := next;
          DrainAndClose(next, end, inFlight, committed, filled);
          return true, next;
        }
        var done: set<nat> :| done != {} && done <= inFlight;
        ReturnBodies(done, next, committed, inFlight);
        Shrunk(inFlight, done);
        inFlight, filled := inFlight - done, filled + done;
        ghost var old_ := committed;
        committed, interrupted := CommitReady(committed, filled, next, inFlight);
        if interrupted {
          DrainAndClose(next, end, inFlight, committed, filled);
          InterruptedThere(interrupts, old_, committed, next);
          return true, next;
        }
        StillClean(interrupts, old_, committed);
      }
      return false, end;
    }

    /** One exclusive call: nothing else runs beside it. */
    method ExecuteExclusive(i: nat)
      requires At(i, i, {}) && i < |parallel| && !parallel[i] && NoneInterrupted(interrupts, i)
      modifies `log
      ensures At(i + 1, i + 1, {})
    {
      BeginStep(log, i, i, {}, maxParallel, parallel, interrupts);
      log := log + [Begin(i)];
      hide Progress;
      ReturnStep(log, i + 1, i, {} + {i}, maxParallel, parallel, interrupts, i);
      log := log + [Return(i)];
      assert {} + {i} - {i} == {};
      CommitStep(log, i + 1, i, {}, maxParallel, parallel, interrupts);
      log := log + [Commit(i)];
    }

    /**
     Execute a batch.  What has started is committed exactly once and in model order, the rest is closed exactly
     once; without an interruption everything has started.
     */
    method Execute() returns (interrupted: bool, ghost began: nat)
      requires At(0, 0, {}) && !keyboard
      modifies `log, `keyboard
      ensures Settled(log, began, |parallel|, maxParallel, parallel, interrupts)
      ensures !interrupted ==> began == |parallel| && NoneInterrupted(interrupts, began) && !keyboard
      ensures interrupted ==> keyboard || !NoneInterrupted(interrupts, began)
    {
      assert NoneInterrupted(interrupts, 0);
      hide Progress, Settled, NoneInterrupted;
      var next: nat := 0;
      while next < |parallel|
        invariant At(next, next, {}) && NoneInterrupted(interrupts, next) && !keyboard
      {
        if !parallel[next] {
          ExecuteExclusive(next);
          if interrupts[next] {
            ProgressSettles(log, next + 1, maxParallel, parallel, interrupts);
            CloseCalls(next + 1, |parallel|, next + 1);
            InterruptedThere(interrupts, next, next + 1, next + 1);
            return true, next + 1;
          }
          StillClean(interrupts, next, next + 1);
          next := next + 1;
        } else {
          var end := next;
          while end < |parallel| && parallel[end]
            invariant next <= end <= |parallel| && forall i :: next <= i < end ==> parallel[i]
          {
            end := end + 1;
          }
          interrupted, began := RunParallelGroup(next, end);
          if interrupted {
            CloseCalls(end, |parallel|, began);
            return;
          }
          next := end;
        }
      }
      ProgressSettles(log, next, maxParallel, parallel, interrupts);
      return false, next;
    }
  }

  /** Every started call is committed, or its body runs, or its result waits in its slot. */
  predicate Slots(committed: nat, next: nat, inFlight: set<nat>, filled: set<nat>) {
    && committed <= next
    && (forall i :: i in inFlight ==> committed <= i < next && i !in filled)
    && (forall i :: i in filled ==> i < next)
    && (forall i :: committed <= i < next ==> i in inFlight || i in filled)
  }

  lemma Grown(before: set<nat>, now: set<nat>, low: nat, high: nat)
    requires low <= high && (forall i :: i in now <==> i in before || low <= i < high) && (forall i :: i in before ==> i < low)
    ensures |now| == |before| + high - low
    decreases high
  {
    if low == high {
      assert now == before;
    } else {
      var fewer := now - {high - 1};
      Grown(before, fewer, low, high - 1);
      assert now == fewer + {high - 1};
    }
  }

  lemma Shrunk(all: set<nat>, done: set<nat>)
    requires done <= all && done != {}
    ensures |all - done| < |all|
  {
    assert all == (all - done) + done;
  }

  lemma InterruptedThere(interrupts: seq<bool>, from: nat, to: nat, upTo: nat)
    requires to <= upTo <= |interrupts| && exists i :: from <= i < to && interrupts[i]
    ensures !NoneInterrupted(interrupts, upTo)
  {
  }

  lemma StillClean(interrupts: seq<bool>, from: nat, to: nat)
    requires NoneInterrupted(interrupts, from) && to <= |interrupts| && !exists i :: from <= i < to && interrupts[i]
    ensures NoneInterrupted(interrupts, to)
  {
  }

  lemma CloseStep(log: seq<Act>, began: nat, i: nat, limit: nat, parallel: seq<bool>, interrupts: seq<bool>)
    requires Settled(log, began, i, limit, parallel, interrupts)
    ensures Settled(log + [Close(i)], began, i + 1, limit, parallel, interrupts)
  {
    var more := log + [Close(i)];
    assert more[..|log|] == log && log[..|log|] == log;
    LimitsGrow(log, Close(i), limit, parallel);
    assert Range(began, i + 1) == Range(began, i) + [i];
  }

  lemma ProgressSettles(log: seq<Act>, began: nat, limit: nat, parallel: seq<bool>, interrupts: seq<bool>)
    requires Progress(log, began, began, {}, limit, parallel, interrupts)
    ensures Settled(log, began, began, limit, parallel, interrupts)
  {
  }
}
