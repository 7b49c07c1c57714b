/**
 Compaction: splitting a conversation into groups that keep calls with their results, choosing what stays,
 and the checkpoint that results.
 */
module Compaction {
  import opened Domain
  import C = Conversation

  type Group = seq<Message>

  /** A group begins at every message that is not a tool result. */
  function GroupsOf(ms: seq<Message>): seq<Group> {
    if ms == [] then [] else Grouped(GroupsOf(ms[..|ms| - 1]), ms[|ms| - 1])
  }

  function Grouped(groups: seq<Group>, m: Message): seq<Group> {
    if m.Tool? && groups != [] then groups[..|groups| - 1] + [groups[|groups| - 1] + [m]] else groups + [[m]]
  }

  function Flatten(groups: seq<Group>): seq<Message> {
    if groups == [] then [] else Flatten(groups[..|groups| - 1]) + groups[|groups| - 1]
  }

  lemma {:induction false} FlattenConcat(a: seq<Group>, b: seq<Group>)
    ensures Flatten(a + b) == Flatten(a) + Flatten(b)
  {
    if b == [] {
      assert a + b == a;
    } else {
      FlattenConcat(a, b[..|b| - 1]);
      assert (a + b)[..|a + b| - 1] == a + b[..|b| - 1];
    }
  }

  lemma GroupedFlat(groups: seq<Group>, m: Message)
    ensures Flatten(Grouped(groups, m)) == Flatten(groups) + [m]
    ensures (forall i :: 0 <= i < |groups| ==> groups[i] != []) ==>
              forall i :: 0 <= i < |Grouped(groups, m)| ==> Grouped(groups, m)[i] != []
  {
    if m.Tool? && groups != [] {
      var most, last := groups[..|groups| - 1], groups[|groups| - 1];
      assert (most + [last + [m]])[..|most|] == most;
    } else {
      assert (groups + [[m]])[..|groups|] == groups;
    }
  }

  lemma NothingFlat()
    ensures Flatten([]) == []
  {
  }

  /** The groups are the conversation, cut into pieces. */
  lemma {:induction false} GroupsPartition(ms: seq<Message>)
    ensures Flatten(GroupsOf(ms)) == ms && forall i :: 0 <= i < |GroupsOf(ms)| ==> GroupsOf(ms)[i] != []
  {
    hide Flatten, Grouped;
    if ms == [] {
      NothingFlat();
    } else {
      GroupsPartition(ms[..|ms| - 1]);
      GroupedFlat(GroupsOf(ms[..|ms| - 1]), ms[|ms| - 1]);
    }
  }

  lemma SomeGroup(ms: seq<Message>)
    requires ms != []
    ensures GroupsOf(ms) != []
  {
  }

  /** Grouping goes on afresh after a point where no tool result follows. */
  lemma {:induction false} GroupsDistribute(a: seq<Message>, b: seq<Message>)
    requires b != [] ==> !b[0].Tool?
    ensures GroupsOf(a + b) == GroupsOf(a) + GroupsOf(b)
  {
    if b == [] {
      assert a + b == a;
    } else {
      var front, m := b[..|b| - 1], b[|b| - 1];
      GroupsDistribute(a, front);
      assert (a + b)[..|a + b| - 1] == a + front;
      if front != [] { SomeGroup(front); }
      hide Grouped, Flatten;
      assert m.Tool? ==> front != [];
      GroupedAfter(GroupsOf(a), GroupsOf(front), m);
    }
  }

  lemma GroupedAfter(a: seq<Group>, b: seq<Group>, m: Message)
    requires m.Tool? ==> b != []
    ensures Grouped(a + b, m) == a + Grouped(b, m)
  {
    if m.Tool? {
      assert (a + b)[..|a + b| - 1] == a + b[..|b| - 1];
    }
  }

  predicate ValidGroup(g: Group) { C.Valid(g) && C.NoSystem(g) }

  /** The last group is as far as the whole conversation, and all before it are complete. */
  ghost predicate Following(groups: seq<Group>, v: C.Scanner) {
    && (forall i :: 0 <= i < |groups| ==> C.NoSystem(groups[i]) && C.Scan(C.START, groups[i]).Ok?)
    && (forall i :: 0 <= i < |groups| - 1 ==> C.Valid(groups[i]))
    && (groups == [] ==> v.pending == {})
    && (groups != [] ==> C.Scan(C.START, groups[|groups| - 1]).value.pending == v.pending)
    && (v.pending != {} ==> C.Scan(C.START, groups[|groups| - 1]).value.completed == v.completed)
  }

  lemma FollowingNew(groups: seq<Group>, v: C.Scanner, m: Message)
    requires Following(groups, v) && !m.System? && !m.Tool? && C.ScanMessage(v, m).Ok?
    ensures Following(groups + [[m]], C.ScanMessage(v, m).value)
  {
    C.ScanOne(C.START, m);
    hide C.Scan;
    if groups != [] { assert C.Valid(groups[|groups| - 1]); }
  }

  lemma FollowingResult(groups: seq<Group>, v: C.Scanner, m: Message)
    requires Following(groups, v) && m.Tool? && C.ScanMessage(v, m).Ok?
    ensures groups != [] && Following(groups[..|groups| - 1] + [groups[|groups| - 1] + [m]], C.ScanMessage(v, m).value)
  {
    C.ScanExtend(C.START, groups[|groups| - 1], m);
    hide C.Scan;
  }

  lemma {:induction false} GroupsScan(ms: seq<Message>)
    requires C.NoSystem(ms) && C.Scan(C.START, ms).Ok?
    ensures Following(GroupsOf(ms), C.Scan(C.START, ms).value)
  {
    if ms != [] {
      var front, m := ms[..|ms| - 1], ms[|ms| - 1];
      GroupsScan(front);
      var v := C.Scan(C.START, front).value;
      hide Following, C.ScanMessage;
      if m.Tool? {
        FollowingResult(GroupsOf(front), v, m);
      } else {
        FollowingNew(GroupsOf(front), v, m);
      }
    }
  }

  lemma {:induction false} FlattenValid(groups: seq<Group>)
    requires forall i :: 0 <= i < |groups| ==> ValidGroup(groups[i])
    ensures C.Valid(Flatten(groups)) && C.NoSystem(Flatten(groups))
  {
    if groups != [] {
      var front, last := groups[..|groups| - 1], groups[|groups| - 1];
      FlattenValid(front);
      C.ScanConcat(C.START, Flatten(front), last);
      C.ScanAfterClosed(C.START, C.Scan(C.START, Flatten(front)).value, last);
    }
  }

  /** A conversation without a system message is valid exactly when each of its groups is. */
  lemma ValidByGroups(ms: seq<Message>)
    requires C.NoSystem(ms)
    ensures C.Valid(ms) <==> forall i :: 0 <= i < |GroupsOf(ms)| ==> ValidGroup(GroupsOf(ms)[i])
  {
    GroupsPartition(ms);
    if C.Valid(ms) {
      GroupsScan(ms);
    } else if forall i :: 0 <= i < |GroupsOf(ms)| ==> ValidGroup(GroupsOf(ms)[i]) {
      FlattenValid(GroupsOf(ms));
    }
  }

  // ----- Grouping and shortening, loop by loop -----

  datatype Refused = NotValid(fault: C.Fault) | NoUserTask | NotAtBoundary | PrefixTooLong | TooLarge | SystemInReplacement | EmptySummary

  /** After `n` messages of the body, these are the groups, and this is what the open batch waits for. */
  ghost predicate Reached(body: seq<Message>, n: nat, groups: seq<Group>, pending: set<string>) {
    n <= |body| && GroupsOf(body[..n]) == groups && C.Scan(C.START, body[..n]).Ok? && C.Scan(C.START, body[..n]).value.pending == pending
  }

  /** The results of one batch, up to the last that it waits for; they cannot run out or be interrupted. */
  method TakeResults(body: seq<Message>, from: nat, pending: set<string>, first: Message, ghost groups: seq<Group>)
    returns (group: Group, position: nat)
    requires C.Valid(body) && C.NoSystem(body) && Reached(body, from, groups + [[first]], pending)
    ensures from <= position <= |body| && Reached(body, position, groups + [group], {})
  {
    position, group := from, [first];
    var waiting := pending;
    hide C.Scan, C.ScanMessage, GroupsOf, C.Valid;
    while waiting != {}
      invariant from <= position && Reached(body, position, groups + [group], waiting)
      decreases |body| - position
    {
      NotOver(body, position, groups + [group], waiting);
      StepsOn(body, position);
      var result := body[position];
      GroupedLast(groups, group, result);
      waiting, group := waiting - {result.callId}, group + [result];
      position := position + 1;
    }
  }

  /** Outside a batch the next message begins a group, and only a batch of calls leaves something to wait for. */
  lemma BeginsGroup(body: seq<Message>, n: nat, groups: seq<Group>)
    requires C.Valid(body) && C.NoSystem(body) && n < |body| && Reached(body, n, groups, {})
    ensures Reached(body, n + 1, groups + [[body[n]]], if body[n].Assistant? then C.Ids(body[n].calls) else {})
  {
    StepsOn(body, n);
  }

  lemma AllReached(body: seq<Message>, groups: seq<Group>)
    requires Reached(body, |body|, groups, {})
    ensures groups == GroupsOf(body)
  {
    assert body[..|body|] == body;
  }

  lemma NotOver(body: seq<Message>, n: nat, groups: seq<Group>, pending: set<string>)
    requires C.Valid(body) && Reached(body, n, groups, pending) && pending != {}
    ensures n < |body|
  {
    assert body[..|body|] == body;
  }

  lemma GroupedLast(groups: seq<Group>, group: Group, m: Message)
    ensures m.Tool? ==> Grouped(groups + [group], m) == groups + [group + [m]]
  {
    assert (groups + [group])[..|groups|] == groups;
  }

  /** `atomic_groups`: the groups after a leading system message. */
  method AtomicGroups(ms: seq<Message>) returns (r: Result<seq<Group>, Refused>)
    ensures r.Ok? <==> C.Valid(ms)
    ensures r.Ok? ==> r.value == GroupsOf(Body(ms))
    ensures r.Err? ==> r.error.NotValid?
  {
    var fault := C.Validate(ms);
    if fault.Some? { return Err(NotValid(fault.value)); }
    BodyIsValid(ms);
    var body := Body(ms);
    var position: nat := 0;
    var groups: seq<Group> := [];
    assert body[..0] == [];
    assert Reached(body, 0, [], {});
    hide C.Scan, C.ScanMessage, GroupsOf, C.Valid, Reached, C.Ids;
    while position < |body|
      invariant position <= |body| && Reached(body, position, groups, {})
      decreases |body| - position
    {
      BeginsGroup(body, position, groups);
      var message := body[position];
      if !message.Assistant? || message.calls == [] {
        groups := groups + [[message]];
        position := position + 1;
      } else {
        var group;
        group, position := TakeResults(body, position + 1, C.Ids(message.calls), message, groups);
        groups := groups + [group];
      }
    }
    AllReached(body, groups);
    return Ok(groups);
  }

  function Body(ms: seq<Message>): seq<Message> {
    if ms != [] && ms[0].System? then ms[1..] else ms
  }

  /** After a leading system message, the rest is a valid conversation of its own. */
  lemma BodyIsValid(ms: seq<Message>)
    requires C.Valid(ms)
    ensures C.Valid(Body(ms)) && C.NoSystem(Body(ms))
  {
    OnlyLeadingSystem(ms);
    if ms != [] && ms[0].System? {
      assert ms == [ms[0]] + ms[1..];
      C.ScanConcat(C.START, [ms[0]], ms[1..]);
      C.ScanOne(C.START, ms[0]);
      C.ScanAfterClosed(C.START, C.Scan(C.START, [ms[0]]).value, ms[1..]);
    }
  }

  lemma {:induction false} OnlyLeadingSystem(ms: seq<Message>)
    requires C.Scan(C.START, ms).Ok?
    ensures C.NoSystem(Body(ms))
    ensures ms != [] ==> C.Scan(C.START, ms).value.started || C.Scan(C.START, ms).value.systemSeen
  {
    if ms != [] {
      var front := ms[..|ms| - 1];
      OnlyLeadingSystem(front);
      if |ms| > 1 { assert Body(ms) == Body(front) + [ms[|ms| - 1]]; }
    }
  }

  /** What the next message of a valid conversation must be, and what becomes of groups and scanner. */
  lemma StepsOn(body: seq<Message>, n: nat)
    requires C.Valid(body) && C.NoSystem(body) && n < |body|
    ensures C.Scan(C.START, body[..n]).Ok? && C.Scan(C.START, body[..n + 1]).Ok?
    ensures var v, w, m := C.Scan(C.START, body[..n]).value, C.Scan(C.START, body[..n + 1]).value, body[n];
            && GroupsOf(body[..n + 1]) == Grouped(GroupsOf(body[..n]), m)
            && (v.pending == {} <==> !m.Tool?)
            && w.pending == (if m.Assistant? then C.Ids(m.calls) else if m.Tool? then v.pending - {m.callId} else {})
  {
    assert body[..n + 1][..n] == body[..n] && body[..n + 1][n] == body[n];
    assert body == body[..n + 1] + body[n + 1..];
    C.ScanConcat(C.START, body[..n + 1], body[n + 1..]);
  }

  // ----- What stays, and what is summarized -----

  predicate UserGroup(g: Group) { g != [] && g[0].User? }

  predicate Retained(groups: seq<Group>, i: nat, tail: nat)
    requires i < |groups|
  {
    || i + tail >= |groups|
    || (UserGroup(groups[i]) && (forall j :: 0 <= j < i ==> !UserGroup(groups[j])))
    || (UserGroup(groups[i]) && (forall j :: i < j < |groups| ==> !UserGroup(groups[j])))
  }

  /** The retained groups among the first `n`. */
  function Kept(groups: seq<Group>, n: nat, tail: nat): seq<Group>
    requires n <= |groups|
  {
    if n == 0 then [] else Kept(groups, n - 1, tail) + if Retained(groups, n - 1, tail) then [groups[n - 1]] else []
  }

  /** Whether the first user task is among the first `n` groups, and whether the last one is. */
  ghost function FirstIn(groups: seq<Group>, n: nat): nat
    requires n <= |groups|
  {
    if exists j :: 0 <= j < n && UserGroup(groups[j]) then 1 else 0
  }

  ghost function LastIn(groups: seq<Group>, n: nat): nat
    requires n <= |groups|
  {
    if exists j :: 0 <= j < n && UserGroup(groups[j]) && forall k :: j < k < |groups| ==> !UserGroup(groups[k]) then 1 else 0
  }

  lemma RetainedCounts(groups: seq<Group>, n: nat, tail: nat)
    requires n < |groups|
    ensures FirstIn(groups, n) <= FirstIn(groups, n + 1) && LastIn(groups, n) <= LastIn(groups, n + 1)
    ensures Retained(groups, n, tail) && n + tail < |groups| ==>
              FirstIn(groups, n) + LastIn(groups, n) < FirstIn(groups, n + 1) + LastIn(groups, n + 1)
  {
    hide UserGroup;
  }

  /** Retained groups before the tail: the first and the last user task at most. */
  lemma {:induction false} KeptFew(groups: seq<Group>, n: nat, tail: nat)
    requires n <= |groups|
    ensures |Kept(groups, n, tail)| <= (if n + tail <= |groups| then 0 else n + tail - |groups|) + FirstIn(groups, n) + LastIn(groups, n)
  {
    hide Retained, FirstIn, LastIn;
    if n > 0 {
      KeptFew(groups, n - 1, tail);
      RetainedCounts(groups, n - 1, tail);
    }
  }

  /** The replacement has at most two groups more than the tail. */
  lemma AtMostTwoMore(groups: seq<Group>, tail: nat)
    ensures |Kept(groups, |groups|, tail)| <= tail + 2
  {
    KeptFew(groups, |groups|, tail);
  }

  /** The first user task, the last one and the tail are in the replacement. */
  lemma {:induction false} KeptHolds(groups: seq<Group>, n: nat, tail: nat, i: nat)
    requires i < n <= |groups|
    requires || i + tail >= |groups|
             || (UserGroup(groups[i]) && ((forall j :: 0 <= j < i ==> !UserGroup(groups[j])) || forall j :: i < j < |groups| ==> !UserGroup(groups[j])))
    ensures groups[i] in Kept(groups, n, tail)
  {
    hide UserGroup;
    if i < n - 1 { KeptHolds(groups, n - 1, tail, i); }
  }

  lemma {:induction false} KeptFrom(groups: seq<Group>, n: nat, tail: nat)
    requires n <= |groups|
    ensures forall i :: 0 <= i < |Kept(groups, n, tail)| ==> Kept(groups, n, tail)[i] in groups
  {
    if n > 0 { KeptFrom(groups, n - 1, tail); }
  }

  /** The groups after the first `count` messages, which must end at the end of a group. */
  function SkipGroups(groups: seq<Group>, count: nat): (r: Result<seq<Group>, Refused>)
    ensures r.Err? ==> r.error.PrefixTooLong? || r.error.NotAtBoundary?
  {
    if count == 0 then Ok(groups)
    else if groups == [] then Err(PrefixTooLong)
    else if |groups[0]| > count then Err(NotAtBoundary)
    else SkipGroups(groups[1..], count - |groups[0]|)
  }

  /** Skipping exactly some first groups leaves the others. */
  lemma {:induction false} SkipExactly(a: seq<Group>, b: seq<Group>)
    requires forall i :: 0 <= i < |a| ==> a[i] != []
    ensures SkipGroups(a + b, |Flatten(a)|) == Ok(b)
  {
    if a == [] {
      assert a + b == b;
    } else {
      FlattenConcat([a[0]], a[1..]);
      assert [a[0]] + a[1..] == a && Flatten([a[0]]) == a[0] by { assert [a[0]][..0] == []; }
      assert (a + b)[1..] == a[1..] + b;
      SkipExactly(a[1..], b);
    }
  }

  datatype Draft = Draft(throughSeq: nat, summarized: seq<Message>, replacement: seq<Message>)

  /** The places of the user tasks among the first `n` groups, in order. */
  ghost predicate UserIndexes(groups: seq<Group>, n: nat, users: seq<nat>) {
    && n <= |groups| && (forall a, b :: 0 <= a < b < |users| ==> users[a] < users[b])
    && (forall a :: 0 <= a < |users| ==> users[a] < n && UserGroup(groups[users[a]]))
    && forall j :: 0 <= j < n && UserGroup(groups[j]) ==> j in users
  }

  lemma RetainedIs(groups: seq<Group>, users: seq<nat>, i: nat, tail: nat)
    requires UserIndexes(groups, |groups|, users) && users != [] && i < |groups|
    ensures Retained(groups, i, tail) <==> i == users[0] || i == users[|users| - 1] || i + tail >= |groups|
  {
    var first, last := users[0], users[|users| - 1];
    forall j | 0 <= j < |groups| && UserGroup(groups[j]) ensures first <= j <= last {
      var a :| 0 <= a < |users| && users[a] == j;
    }
    assert UserGroup(groups[first]) && UserGroup(groups[last]);
  }

  method FindUserGroups(groups: seq<Group>) returns (users: seq<nat>)
    ensures UserIndexes(groups, |groups|, users)
  {
    users := [];
    hide UserGroup;
    for i := 0 to |groups|
      invariant UserIndexes(groups, i, users)
    {
      if UserGroup(groups[i]) { users := users + [i]; }
    }
  }

  method KeepGroups(groups: seq<Group>, tail: nat) returns (r: Result<seq<Message>, Refused>)
    ensures r.Ok? <==> exists i :: 0 <= i < |groups| && UserGroup(groups[i])
    ensures r.Ok? ==> r.value == Flatten(Kept(groups, |groups|, tail))
    ensures r.Err? ==> r.error == NoUserTask
  {
    hide *;
    var users := FindUserGroups(groups);
    UsersBelow(groups, users);
    if users == [] { return Err(NoUserTask); }
    var first, last := users[0], users[|users| - 1];
    var tailStart := if tail >= |groups| then 0 else |groups| - tail;
    var replacement: seq<Message> := [];
    KeptNone(groups, tail);
    for i := 0 to |groups|
      invariant replacement == Flatten(Kept(groups, i, tail))
    {
      KeptStep(groups, i, tail);
      RetainedIs(groups, users, i, tail);
      if i == first || i == last || i >= tailStart {
        replacement := replacement + groups[i];
      }
    }
    return Ok(replacement);
  }

  lemma UsersBelow(groups: seq<Group>, users: seq<nat>)
    requires UserIndexes(groups, |groups|, users)
    ensures users != [] <==> exists i :: 0 <= i < |groups| && UserGroup(groups[i])
    ensures users != [] ==> users[0] < |groups| && users[|users| - 1] < |groups|
  {
    hide UserGroup;
    if users != [] { assert UserGroup(groups[users[0]]); }
  }

  lemma KeptNone(groups: seq<Group>, tail: nat)
    ensures Flatten(Kept(groups, 0, tail)) == []
  {
  }

  lemma KeptStep(groups: seq<Group>, i: nat, tail: nat)
    requires i < |groups|
    ensures Flatten(Kept(groups, i + 1, tail)) == Flatten(Kept(groups, i, tail)) + if Retained(groups, i, tail) then groups[i] else []
  {
    hide Retained;
    var kept := Kept(groups, i, tail);
    assert (kept + [groups[i]])[..|kept|] == kept && kept + [] == kept;
  }

  method SkipPrefix(groups: seq<Group>, count: nat) returns (r: Result<seq<Group>, Refused>)
    ensures r == SkipGroups(groups, count)
  {
    var remaining: nat, at: nat := count, 0;
    while remaining > 0
      invariant at <= |groups| && SkipGroups(groups, count) == SkipGroups(groups[at..], remaining)
      decreases |groups| - at
    {
      if at == |groups| { return Err(PrefixTooLong); }
      if |groups[at]| > remaining { return Err(NotAtBoundary); }
      assert groups[at..][1..] == groups[at + 1..];
      remaining, at := remaining - |groups[at]|, at + 1;
    }
    return Ok(groups[at..]);
  }

  // ----- Shortening old tool outputs -----

  /** Keep both ends of a text around a marker. */
  function Shorten(content: string, limit: nat, marker: string): (r: string)
    ensures |r| <= limit && (|content| <= limit ==> r == content)
  {
    if |content| <= limit then content
    else if limit <= |marker| then marker[..limit]
    else
      var remaining := limit - |marker|;
      content[..(remaining + 1) / 2] + marker + content[|content| - remaining / 2..]
  }

  /** The limit is used up: as much of the beginning as of the end, around the marker, or what there is room for of the marker. */
  ghost predicate BothEnds(text: string, short: string, limit: nat, marker: string) {
    if limit <= |marker| then short == marker[..limit]
    else exists a: nat, b: nat :: EndsKept(text, short, marker, a, b) && a + |marker| + b == limit && b <= a <= b + 1
  }

  predicate EndsKept(text: string, short: string, marker: string, a: nat, b: nat) {
    a + b <= |text| && short == text[..a] + marker + text[|text| - b..]
  }

  lemma ShortenKeepsEnds(content: string, limit: nat, marker: string)
    requires |content| > limit
    ensures BothEnds(content, Shorten(content, limit, marker), limit, marker)
  {
    if limit > |marker| {
      var remaining := limit - |marker|;
      var a, b := (remaining + 1) / 2, remaining / 2;
      assert EndsKept(content, Shorten(content, limit, marker), marker, a, b);
    }
  }

  function ShortenMessage(m: Message, limit: nat, marker: string): Message {
    if m.Tool? then Tool(m.callId, Shorten(m.content, limit, marker)) else m
  }

  /** Only tool outputs may differ. */
  predicate SameShape(a: seq<Message>, b: seq<Message>) {
    |a| == |b| && forall i :: 0 <= i < |a| ==> a[i] == b[i] || (a[i].Tool? && b[i].Tool? && a[i].callId == b[i].callId)
  }

  /** The grammar does not look at tool outputs. */
  lemma {:induction false} ShapeScans(v: C.Scanner, a: seq<Message>, b: seq<Message>)
    requires SameShape(a, b)
    ensures C.Scan(v, a) == C.Scan(v, b)
  {
    if a != [] { ShapeScans(v, a[..|a| - 1], b[..|b| - 1]); }
  }

  /** The messages of the summarized groups; those that are not retained have their tool outputs shortened. */
  function Shortened(groups: seq<Group>, from: nat, n: nat, tail: nat, limit: nat, marker: string): seq<Message>
    requires from <= n <= |groups|
    decreases n
  {
    if n == from then []
    else
      var g := groups[n - 1];
      Shortened(groups, from, n - 1, tail, limit, marker)
      + if Retained(groups, n - 1, tail) then g else seq(|g|, i requires 0 <= i < |g| => ShortenMessage(g[i], limit, marker))
  }

  lemma {:induction false} ShortenedShape(groups: seq<Group>, from: nat, n: nat, tail: nat, limit: nat, marker: string)
    requires from <= n <= |groups|
    ensures SameShape(Flatten(groups[from..n]), Shortened(groups, from, n, tail, limit, marker))
    decreases n
  {
    if n == from {
      assert groups[from..n] == [];
    } else {
      ShortenedShape(groups, from, n - 1, tail, limit, marker);
      assert groups[from..n][..n - from - 1] == groups[from..n - 1] && groups[from..n][n - from - 1] == groups[n - 1];
    }
  }

  /** Old groups differ only in tool outputs, which fit the limit; retained groups are as they were. */
  ghost predicate Abridges(groups: seq<Group>, from: nat, n: nat, tail: nat, limit: nat, marker: string, shorter: seq<Group>) {
    && from <= n <= |groups| && |shorter| == n - from
    && forall i :: from <= i < n ==>
         if Retained(groups, i, tail) then shorter[i - from] == groups[i] else OutputsCut(groups[i], shorter[i - from], limit, marker)
  }

  /** Only tool outputs over the limit have changed: of each of them both ends are kept. */
  ghost predicate OutputsCut(g: Group, h: Group, limit: nat, marker: string) {
    && |h| == |g|
    && forall i :: 0 <= i < |g| ==>
         if g[i].Tool? && |g[i].content| > limit then
           && h[i].Tool? && h[i].callId == g[i].callId && |h[i].content| <= limit
           && BothEnds(g[i].content, h[i].content, limit, marker)
         else h[i] == g[i]
  }

  lemma {:induction false} ShortenedAbridges(groups: seq<Group>, from: nat, n: nat, tail: nat, limit: nat,
                                             marker: string) returns (shorter: seq<Group>)
    requires from <= n <= |groups|
    ensures Shortened(groups, from, n, tail, limit, marker) == Flatten(shorter) && Abridges(groups, from, n, tail, limit, marker, shorter)
    decreases n
  {
    hide *;
    if n == from {
      shorter := [];
      NothingAbridged(groups, from, tail, limit, marker);
    } else {
      var front := ShortenedAbridges(groups, from, n - 1, tail, limit, marker);
      var h := CutGroup(groups[n - 1], Retained(groups, n - 1, tail), limit, marker);
      shorter := front + [h];
      OneMoreAbridged(groups, from, n, tail, limit, marker, front);
      ShortenedStep(groups, from, n, tail, limit, marker, front);
    }
  }

  function CutGroup(g: Group, retained: bool, limit: nat, marker: string): Group {
    if retained then g else seq(|g|, i requires 0 <= i < |g| => ShortenMessage(g[i], limit, marker))
  }

  lemma NothingAbridged(groups: seq<Group>, from: nat, tail: nat, limit: nat, marker: string)
    requires from <= |groups|
    ensures Shortened(groups, from, from, tail, limit, marker) == Flatten([]) && Abridges(groups, from, from, tail, limit, marker, [])
  {
  }

  lemma OneMoreAbridged(groups: seq<Group>, from: nat, n: nat, tail: nat, limit: nat, marker: string, front: seq<Group>)
    requires from < n <= |groups| && Abridges(groups, from, n - 1, tail, limit, marker, front)
    ensures Abridges(groups, from, n, tail, limit, marker, front + [CutGroup(groups[n - 1], Retained(groups, n - 1, tail), limit, marker)])
  {
    var g := groups[n - 1];
    forall i | 0 <= i < |g| && g[i].Tool? && |g[i].content| > limit ensures BothEnds(g[i].content, Shorten(g[i].content, limit, marker), limit, marker) {
      ShortenKeepsEnds(g[i].content, limit, marker);
    }
    hide Retained, Shorten, BothEnds;
  }

  lemma ShortenedStep(groups: seq<Group>, from: nat, n: nat, tail: nat, limit: nat, marker: string, front: seq<Group>)
    requires from < n <= |groups| && Shortened(groups, from, n - 1, tail, limit, marker) == Flatten(front)
    ensures Shortened(groups, from, n, tail, limit, marker) == Flatten(front + [CutGroup(groups[n - 1], Retained(groups, n - 1, tail), limit, marker)])
  {
    hide Retained, ShortenMessage;
    var h := CutGroup(groups[n - 1], Retained(groups, n - 1, tail), limit, marker);
    assert (front + [h])[..|front|] == front;
  }

  /** Some group is a task of the user. */
  ghost predicate HasTask(ms: seq<Message>) { exists i :: 0 <= i < |GroupsOf(Body(ms))| && UserGroup(GroupsOf(Body(ms))[i]) }

  /** The prefix that was summarized before ends where a group ends. */
  predicate AtBoundary(ms: seq<Message>, prefix: nat) { SkipGroups(GroupsOf(Body(ms)), prefix).Ok? }

  /** What is to be summarized, as it stands. */
  function Plain(ms: seq<Message>, prefix: nat): seq<Message>
    requires AtBoundary(ms, prefix)
  {
    Head(ms) + Flatten(SkipGroups(GroupsOf(Body(ms)), prefix).value)
  }

  /** The same with old tool outputs shortened. */
  function Abridged(ms: seq<Message>, prefix: nat, tail: nat, limit: nat, marker: string): seq<Message>
    requires AtBoundary(ms, prefix)
  {
    SkipIsSuffix(GroupsOf(Body(ms)), prefix);
    var groups := GroupsOf(Body(ms));
    Head(ms) + Shortened(groups, |groups| - |SkipGroups(groups, prefix).value|, |groups|, tail, limit, marker)
  }

  /** It fits as it stands, or shortening changes something and makes it fit. */
  predicate Fits(ms: seq<Message>, prefix: nat, tail: nat, maxInput: nat, maxOld: nat, size: seq<Message> -> nat, marker: string)
    requires AtBoundary(ms, prefix)
  {
    || size(Plain(ms, prefix)) <= maxInput
    || (Abridged(ms, prefix, tail, maxOld, marker) != Plain(ms, prefix) && size(Abridged(ms, prefix, tail, maxOld, marker)) <= maxInput)
  }

  /**
   `prepare_compaction` after redaction; `size` is the length of the serialized conversation. There is a draft exactly
   when the conversation is valid, has a task, ends its prefix at a boundary and fits, and each refusal says which of
   these it lacks first.
   */
  method Prepare(ms: seq<Message>, throughSeq: nat, tail: nat, prefix: nat, maxInput: nat, maxOld: nat,
                 size: seq<Message> -> nat, marker: string)
    returns (r: Result<Draft, Refused>)
    ensures r.Ok? <==> C.Valid(ms) && HasTask(ms) && AtBoundary(ms, prefix) && Fits(ms, prefix, tail, maxInput, maxOld, size, marker)
    ensures r.Ok? ==> AtBoundary(ms, prefix) && DraftOf(ms, throughSeq, tail, prefix, r.value) && size(r.value.summarized) <= maxInput
    ensures r.Ok? ==> r.value.summarized ==
                      if size(Plain(ms, prefix)) <= maxInput then Plain(ms, prefix) else Abridged(ms, prefix, tail, maxOld, marker)
    ensures r.Err? ==> match r.error
                       case NotValid(_) => !C.Valid(ms)
                       case NoUserTask => C.Valid(ms) && !HasTask(ms)
                       case TooLarge => C.Valid(ms) && HasTask(ms) && AtBoundary(ms, prefix)
                       case why => C.Valid(ms) && HasTask(ms) && !AtBoundary(ms, prefix) && SkipGroups(GroupsOf(Body(ms)), prefix) == Err(why)
  {
    hide C.Valid, GroupsOf, SameShape, Kept, Flatten, C.NoSystem, SkipGroups, UserGroup, C.Scan, Shortened;
    var split := AtomicGroups(ms);
    if split.Err? { return Err(split.error); }
    var groups := split.value;
    var kept := KeepGroups(groups, tail);
    if kept.Err? { return Err(kept.error); }
    KeptIsValid(ms, tail);
    var fault := C.Validate(kept.value);
    if fault.Some? { assert false; }
    var rest := SkipPrefix(groups, prefix);
    if rest.Err? { return Err(rest.error); }
    SkipIsSuffix(groups, prefix);
    var summary := Summarize(groups, |groups| - |rest.value|, Head(ms), tail, maxInput, maxOld, size, marker);
    if summary.Err? { return Err(summary.error); }
    return Ok(Draft(throughSeq, summary.value, kept.value));
  }

  /** What a draft consists of: the retained groups, and the rest after the prefix up to shortened tool outputs. */
  ghost predicate DraftOf(ms: seq<Message>, throughSeq: nat, tail: nat, prefix: nat, draft: Draft) {
    var groups := GroupsOf(Body(ms));
    && draft.throughSeq == throughSeq && draft.replacement == Flatten(Kept(groups, |groups|, tail))
    && C.Valid(draft.replacement) && C.NoSystem(draft.replacement)
    && AtBoundary(ms, prefix) && SameShape(Plain(ms, prefix), draft.summarized)
  }

  /** What is summarized is itself a valid conversation. */
  lemma SummaryIsValid(ms: seq<Message>, throughSeq: nat, tail: nat, prefix: nat, draft: Draft)
    requires C.Valid(ms) && DraftOf(ms, throughSeq, tail, prefix, draft)
    ensures C.Valid(draft.summarized)
  {
    BodyIsValid(ms);
    AllGroupsValid(Body(ms));
    var groups := GroupsOf(Body(ms));
    SkipIsSuffix(groups, prefix);
    var rest := SkipGroups(groups, prefix).value;
    hide ValidGroup, GroupsOf, SkipGroups, SameShape, Flatten, Body;
    FlattenValid(rest);
    HeadBefore(ms, Flatten(rest));
    ShapeScans(C.START, Plain(ms, prefix), draft.summarized);
  }

  lemma HeadBefore(ms: seq<Message>, body: seq<Message>)
    requires C.Valid(body) && C.NoSystem(body)
    ensures C.Valid(Head(ms) + body)
  {
    if Head(ms) == [] {
      assert Head(ms) + body == body;
    } else {
      C.ScanOne(C.START, ms[0]);
      C.ScanConcat(C.START, Head(ms), body);
      C.ScanAfterClosed(C.START, C.START.(systemSeen := true), body);
    }
  }

  /** The conversation to summarize, with old tool outputs shortened if it is too long. */
  method Summarize(groups: seq<Group>, from: nat, head: seq<Message>, tail: nat, maxInput: nat, maxOld: nat,
                   size: seq<Message> -> nat, marker: string)
    returns (r: Result<seq<Message>, Refused>)
    requires from <= |groups|
    ensures var plain, shorter := head + Flatten(groups[from..]), head + Shortened(groups, from, |groups|, tail, maxOld, marker);
            && (r.Ok? <==> size(plain) <= maxInput || (shorter != plain && size(shorter) <= maxInput))
            && (r.Ok? ==> r.value == (if size(plain) <= maxInput then plain else shorter) && SameShape(plain, r.value))
    ensures r.Err? ==> r.error.TooLarge?
  {
    var plain := Flatten(groups[from..]);
    ShortenedShape(groups, from, |groups|, tail, maxOld, marker);
    assert groups[from..|groups|] == groups[from..];
    if size(head + plain) <= maxInput { return Ok(head + plain); }
    var shorter := Shortened(groups, from, |groups|, tail, maxOld, marker);
    assert (head + plain)[|head|..] == plain && (head + shorter)[|head|..] == shorter;
    if shorter == plain || size(head + shorter) > maxInput { return Err(TooLarge); }
    return Ok(head + shorter);
  }

  function Head(ms: seq<Message>): seq<Message> {
    if ms != [] && ms[0].System? then [ms[0]] else []
  }

  lemma AllGroupsValid(ms: seq<Message>)
    requires C.Valid(ms) && C.NoSystem(ms)
    ensures forall g :: g in GroupsOf(ms) ==> ValidGroup(g)
  {
    ValidByGroups(ms);
    hide ValidGroup, C.Valid;
  }

  lemma KeptIsValid(ms: seq<Message>, tail: nat)
    requires C.Valid(ms)
    ensures var groups := GroupsOf(Body(ms));
            C.Valid(Flatten(Kept(groups, |groups|, tail))) && C.NoSystem(Flatten(Kept(groups, |groups|, tail)))
  {
    var groups := GroupsOf(Body(ms));
    BodyIsValid(ms);
    AllGroupsValid(Body(ms));
    KeptFrom(groups, |groups|, tail);
    var kept := Kept(groups, |groups|, tail);
    hide ValidGroup, Kept;
    FlattenValid(kept);
  }

  lemma {:induction false} SkipIsSuffix(groups: seq<Group>, count: nat)
    requires SkipGroups(groups, count).Ok?
    ensures var rest := SkipGroups(groups, count).value;
            |rest| <= |groups| && rest == groups[|groups| - |rest|..]
  {
    if count > 0 {
      SkipIsSuffix(groups[1..], count - |groups[0]|);
    }
  }
}
