/**
 The rollout file: parsing with tail repair, appending, and crashes at any byte.  The line format is an
 oracle: it decodes what it encoded, writes no line break, and no proper prefix of a record decodes.
 */
module Store {
  import opened Domain
  import opened Utf8

  datatype Record = Record(seqNo: nat, session: string, payload: string)

  /** What a line may hold; an object that is not an event may lack one of its fields. */
  datatype Line = NotJson | NotAnEvent(lacksField: bool) | Holds(record: Record)

  datatype Codec = Codec(encode: Record -> seq<Byte>, decode: seq<Byte> -> Line)

  predicate IsBreak(b: Byte) { b == 10 || b == 13 }

  predicate NoBreak(bytes: seq<Byte>) { forall i :: 0 <= i < |bytes| ==> !IsBreak(bytes[i]) }

  ghost predicate Faithful(codec: Codec, r: Record) {
    && codec.encode(r) != [] && NoBreak(codec.encode(r)) && codec.decode(codec.encode(r)) == Holds(r)
    && forall k :: 0 < k < |codec.encode(r)| ==> codec.decode(codec.encode(r)[..k]).NotJson?
  }

  /** How long the first line is, with its line break: LF, CR or CRLF. */
  function LineLength(data: seq<Byte>): (n: nat)
    requires data != []
    ensures 1 <= n <= |data|
  {
    if data[0] == 13 && |data| > 1 && data[1] == 10 then 2
    else if IsBreak(data[0]) || |data| == 1 then 1
    else 1 + LineLength(data[1..])
  }

  function Stripped(line: seq<Byte>): seq<Byte> {
    if line != [] && IsBreak(line[|line| - 1]) then Stripped(line[..|line| - 1]) else line
  }

  datatype Parsed = Parsed(events: seq<Record>, committed: nat, needsNewline: bool, droppedPartial: bool) | Corrupt

  /** `_parse_rollout` after `count` events. */
  function Parse(codec: Codec, session: string, data: seq<Byte>, count: nat): Parsed
    decreases |data|
  {
    if data == [] then Parsed([], 0, false, false)
    else
      var n := LineLength(data);
      var line, rest := data[..n], data[n..];
      var torn := rest == [] && !IsBreak(line[n - 1]);
      match codec.decode(Stripped(line))
      case NotJson => if torn then Parsed([], 0, false, true) else Corrupt
      case NotAnEvent(lacksField) => if torn && lacksField then Parsed([], 0, false, true) else Corrupt
      case Holds(r) =>
        if r.session != session || r.seqNo != count + 1 then Corrupt
        else
          match Parse(codec, session, rest, count + 1)
          case Corrupt => Corrupt
          case Parsed(events, committed, needs, dropped) => Parsed([r] + events, n + committed, needs || torn, dropped)
  }

  /** The file of a list of events. */
  function Log(codec: Codec, events: seq<Record>): seq<Byte> {
    if events == [] then [] else codec.encode(events[0]) + [10] + Log(codec, events[1..])
  }

  /** Events of one session, numbered from `count + 1`, that the format can carry. */
  ghost predicate Numbered(codec: Codec, session: string, events: seq<Record>, count: nat) {
    forall i :: 0 <= i < |events| ==>
      events[i].session == session && events[i].seqNo == count + i + 1 && Faithful(codec, events[i])
  }

  /** How many events have their last byte inside the first `cut` bytes; their line break may be cut off. */
  function Survivors(codec: Codec, events: seq<Record>, cut: nat): (k: nat)
    ensures k <= |events|
  {
    if events == [] || cut < |codec.encode(events[0])| then 0
    else if cut == |codec.encode(events[0])| then 1
    else 1 + Survivors(codec, events[1..], cut - |codec.encode(events[0])| - 1)
  }

  lemma {:induction false} FirstLine(bytes: seq<Byte>, rest: seq<Byte>)
    requires NoBreak(bytes)
    ensures LineLength(bytes + [10] + rest) == |bytes| + 1
    ensures bytes != [] ==> LineLength(bytes) == |bytes|
  {
    if bytes != [] {
      FirstLine(bytes[1..], rest);
      assert (bytes + [10] + rest)[1..] == bytes[1..] + [10] + rest;
    }
  }

  lemma StripOne(bytes: seq<Byte>)
    requires NoBreak(bytes)
    ensures Stripped(bytes) == bytes && Stripped(bytes + [10]) == bytes
  {
    assert (bytes + [10])[..|bytes|] == bytes;
  }

  /** What parsing finds in a file that was cut after `cut` bytes. */
  ghost predicate CutMeaning(codec: Codec, session: string, events: seq<Record>, cut: nat, count: nat) {
    var k := Survivors(codec, events, cut);
    var whole := |Log(codec, events[..k])|;
    && cut <= |Log(codec, events)|
    && Parse(codec, session, Log(codec, events)[..cut], count)
       == Parsed(events[..k], if cut < whole then cut else whole, cut < whole, whole < cut)
  }

  lemma LogFirst(codec: Codec, events: seq<Record>, k: nat)
    requires 0 < k <= |events|
    ensures Log(codec, events[..k]) == codec.encode(events[0]) + [10] + Log(codec, events[1..][..k - 1])
  {
    assert events[..k][1..] == events[1..][..k - 1];
  }

  /** The first record is whole but for its line break, or not whole. */
  lemma CutInFirst(codec: Codec, session: string, events: seq<Record>, cut: nat, count: nat)
    requires Numbered(codec, session, events, count) && events != [] && cut <= |codec.encode(events[0])|
    ensures CutMeaning(codec, session, events, cut, count)
  {
    var first := codec.encode(events[0]);
    var data := Log(codec, events)[..cut];
    assert Faithful(codec, events[0]) && data == first[..cut];
    assert NoBreak(data);
    if cut > 0 {
      FirstLine(data, []);
      StripOne(data);
      assert data[..cut] == data && data[cut..] == [];
      if cut == |first| {
        assert data == first;
        LogFirst(codec, events, 1);
        assert events[1..][..0] == [] && events[..1] == [events[0]];
        assert Parse(codec, session, [], count + 1) == Parsed([], 0, false, false);
      }
    }
    assert events[..0] == [];
  }

  /** A whole first line is one event, and the rest is parsed as if it stood alone. */
  lemma ParseStep(codec: Codec, session: string, r: Record, tail: seq<Byte>, count: nat)
    requires Faithful(codec, r) && r.session == session && r.seqNo == count + 1
    ensures Parse(codec, session, codec.encode(r) + [10] + tail, count) ==
            match Parse(codec, session, tail, count + 1)
            case Corrupt => Corrupt
            case Parsed(events, committed, needs, dropped) => Parsed([r] + events, |codec.encode(r)| + 1 + committed, needs, dropped)
  {
    var first := codec.encode(r);
    var data := first + [10] + tail;
    FirstLine(first, tail);
    StripOne(first);
    assert data[..|first| + 1] == first + [10] && data[|first| + 1..] == tail;
    hide LineLength, Stripped;
  }

  /** Behind a whole first record the rest has the same meaning, one event later. */
  lemma CutBehind(codec: Codec, session: string, events: seq<Record>, cut: nat, count: nat)
    requires events != [] && |codec.encode(events[0])| < cut
    requires Faithful(codec, events[0]) && events[0].session == session && events[0].seqNo == count + 1
    requires CutMeaning(codec, session, events[1..], cut - |codec.encode(events[0])| - 1, count + 1)
    ensures CutMeaning(codec, session, events, cut, count)
  {
    var first, rest := codec.encode(events[0]), events[1..];
    var more := cut - |first| - 1;
    var k := Survivors(codec, events, cut);
    LogFirst(codec, events, k);
    LogCons(codec, events);
    hide Parse, Log, Survivors, Faithful;
    TakeBehind(first + [10], Log(codec, rest), cut);
    ParseStep(codec, session, events[0], Log(codec, rest)[..more], count);
    assert events[..k] == [events[0]] + rest[..k - 1];
  }

  /** A cut file gives the events that lie inside the cut, in order, and says how its tail is to be repaired. */
  lemma {:induction false} ParseCut(codec: Codec, session: string, events: seq<Record>, cut: nat, count: nat)
    requires Numbered(codec, session, events, count) && cut <= |Log(codec, events)|
    ensures CutMeaning(codec, session, events, cut, count)
    decreases |events|
  {
    if events == [] {
      assert events[..0] == [] && Log(codec, events)[..cut] == [];
    } else if cut <= |codec.encode(events[0])| {
      CutInFirst(codec, session, events, cut, count);
    } else {
      var rest, more := events[1..], cut - |codec.encode(events[0])| - 1;
      assert Numbered(codec, session, rest, count + 1) && Faithful(codec, events[0]);
      assert events[0].session == session && events[0].seqNo == count + 1;
      LogCons(codec, events);
      hide Parse, Log, Survivors, CutMeaning, Faithful, Numbered;
      ParseCut(codec, session, rest, more, count + 1);
      CutBehind(codec, session, events, cut, count);
    }
  }

  lemma {:induction false} LogSnoc(codec: Codec, events: seq<Record>, r: Record)
    ensures Log(codec, events + [r]) == Log(codec, events) + codec.encode(r) + [10]
  {
    if events != [] {
      LogSnoc(codec, events[1..], r);
      assert (events + [r])[1..] == events[1..] + [r];
    } else {
      assert [r][1..] == [];
    }
  }

  lemma LogCons(codec: Codec, events: seq<Record>)
    requires events != []
    ensures Log(codec, events) == codec.encode(events[0]) + [10] + Log(codec, events[1..])
  {
  }

  lemma Joined(a: seq<Byte>, b: seq<Byte>, c: seq<Byte>)
    ensures a + (b + c) == (a + b) + c
  {
  }

  lemma TakeBehind(a: seq<Byte>, b: seq<Byte>, n: nat)
    requires |a| <= n <= |a| + |b|
    ensures (a + b)[..n] == a + b[..n - |a|]
  {
  }

  lemma {:induction false} LogConcat(codec: Codec, a: seq<Record>, b: seq<Record>)
    ensures Log(codec, a + b) == Log(codec, a) + Log(codec, b)
  {
    if a == [] {
      assert a + b == b;
    } else {
      LogConcat(codec, a[1..], b);
      assert (a + b)[1..] == a[1..] + b && (a + b)[0] == a[0];
      LogCons(codec, a);
      LogCons(codec, a + b);
      hide Log;
      Joined(codec.encode(a[0]) + [10], Log(codec, a[1..]), Log(codec, b));
    }
  }

  /** Nothing is lost that lies before the cut, and nothing survives that does not. */
  lemma {:induction false} SurvivorsOf(codec: Codec, events: seq<Record>, cut: nat, k: nat)
    requires k < |events|
    ensures k < Survivors(codec, events, cut) <==> |Log(codec, events[..k + 1])| - 1 <= cut
  {
    var first := codec.encode(events[0]);
    LogFirst(codec, events, k + 1);
    if k == 0 {
      assert events[1..][..0] == [];
    } else if cut > |first| {
      SurvivorsOf(codec, events[1..], cut - |first| - 1, k - 1);
    } else {
      LogFirst(codec, events[1..], k);
    }
  }

  /** A whole file gives back all of its events and needs no repair. */
  lemma {:induction false} AllSurvive(codec: Codec, events: seq<Record>)
    ensures Survivors(codec, events, |Log(codec, events)|) == |events|
  {
    if events != [] { AllSurvive(codec, events[1..]); }
  }

  lemma ParseWhole(codec: Codec, session: string, events: seq<Record>)
    requires Numbered(codec, session, events, 0)
    ensures Parse(codec, session, Log(codec, events), 0) == Parsed(events, |Log(codec, events)|, false, false)
  {
    AllSurvive(codec, events);
    ParseCut(codec, session, events, |Log(codec, events)|, 0);
    assert Log(codec, events)[..|Log(codec, events)|] == Log(codec, events) && events[..|events|] == events;
  }

  /** What the repair makes of a file that was parsed: cut off the partial line, or end the last one. */
  function Repaired(data: seq<Byte>, parsed: Parsed): seq<Byte>
    requires parsed.Parsed? && parsed.committed <= |data|
  {
    if parsed.droppedPartial then data[..parsed.committed]
    else if parsed.needsNewline then data + [10]
    else data
  }

  /** After the repair the file is the log of the surviving events. */
  lemma RepairIsLog(codec: Codec, session: string, events: seq<Record>, cut: nat)
    requires Numbered(codec, session, events, 0) && cut <= |Log(codec, events)|
    ensures var parsed := Parse(codec, session, Log(codec, events)[..cut], 0);
            && parsed.Parsed? && parsed.committed <= cut && parsed.events == events[..Survivors(codec, events, cut)]
            && Repaired(Log(codec, events)[..cut], parsed) == Log(codec, parsed.events)
  {
    ParseCut(codec, session, events, cut, 0);
    var k := Survivors(codec, events, cut);
    assert events == events[..k] + events[k..];
    LogConcat(codec, events[..k], events[k..]);
    var kept := Log(codec, events[..k]);
    CutOrEnded(codec, events, cut);
  }

  /** The cut leaves out at most the line break of the last survivor. */
  lemma {:induction false} CutOrEnded(codec: Codec, events: seq<Record>, cut: nat)
    requires cut <= |Log(codec, events)|
    ensures var kept := Log(codec, events[..Survivors(codec, events, cut)]);
            |kept| <= cut + 1 && (cut < |kept| ==> Log(codec, events)[..cut] + [10] == kept)
  {
    var k := Survivors(codec, events, cut);
    if k == 0 {
      assert events[..0] == [];
    } else {
      var first := codec.encode(events[0]);
      LogFirst(codec, events, k);
      if cut == |first| {
        assert events[1..][..0] == [];
        assert Log(codec, events)[..cut] == first;
      } else {
        CutOrEnded(codec, events[1..], cut - |first| - 1);
        var rest := Log(codec, events[1..]);
        assert Log(codec, events)[..cut] == first + [10] + rest[..cut - |first| - 1];
      }
    }
  }

  // ----- The store -----

  class RolloutStore {
    const codec: Codec
    const session: string
    var file: seq<Byte>
    var events: seq<Record>
    var poisoned: bool

    /** A store that takes appends holds exactly the log of its events. */
    ghost predicate Valid()
      reads this
    {
      Numbered(codec, session, events, 0) && if poisoned then file <= Log(codec, events) else file == Log(codec, events)
    }

    constructor (codec: Codec, session: string, file: seq<Byte>, events: seq<Record>)
      requires Numbered(codec, session, events, 0) && file == Log(codec, events)
      ensures Valid() && !poisoned && this.codec == codec && this.session == session && this.file == file && this.events == events
    {
      this.codec, this.session, this.file, this.events, poisoned := codec, session, file, events, false;
    }

    /**
     Append one event: the record is written in pieces, and the write may fail after any of them.
     After a failure nothing more is appended.
     */
    method Append(payload: string) returns (ok: bool)
      requires Valid() && Faithful(codec, Record(|events| + 1, session, payload))
      modifies this
      ensures old(poisoned) ==> !ok && file == old(file) && events == old(events) && poisoned
      ensures ok ==> Valid() && !poisoned && events == old(events) + [Record(|old(events)| + 1, session, payload)]
      ensures !ok ==> poisoned && events == old(events)
      ensures !old(poisoned) && !ok ==> file <= Log(codec, events + [Record(|events| + 1, session, payload)]) && old(file) <= file
    {
      if poisoned { return false; }
      var r := Record(|events| + 1, session, payload);
      var encoded := codec.encode(r) + [10];
      LogSnoc(codec, events, r);
      ghost var before := file;
      assert before + encoded == Log(codec, events + [r]);
      var written := 0;
      while written < |encoded|
        invariant 0 <= written <= |encoded| && file == before + encoded[..written]
        invariant events == old(events) && poisoned == old(poisoned)
      {
        var fails: bool := *;
        if fails {
          poisoned := true;
          return false;
        }
        var piece: int := *;
        if piece <= 0 || written + piece > |encoded| { piece := |encoded| - written; }
        assert encoded[..written + piece] == encoded[..written] + encoded[written..written + piece];
        file := file + encoded[written..written + piece];
        written := written + piece;
      }
      assert encoded[..|encoded|] == encoded;
      events := events + [r];
      return true;
    }
  }

  /** One line of the rest: an event more, or the result. */
  method TakeLine(codec: Codec, session: string, rest: seq<Byte>, events: seq<Record>, committed: nat)
    returns (done: Option<Parsed>, more: seq<Record>, reach: nat, left: seq<Byte>)
    requires rest != []
    ensures done.Some? ==> done.value == After(events, committed, Parse(codec, session, rest, |events|))
    ensures done.None? ==> |left| < |rest|
    ensures done.None? ==>
              After(more, reach, Parse(codec, session, left, |more|)) == After(events, committed, Parse(codec, session, rest, |events|))
  {
    ParseLine(codec, session, rest, events, committed);
    hide Parse, After, LineLength, Stripped;
    var n := LineLength(rest);
    var line := rest[..n];
    more, reach, left := events, committed, rest[n..];
    var final, broken := left == [], IsBreak(line[n - 1]);
    var decoded := codec.decode(Stripped(line));
    if decoded.NotJson? {
      done := Some(if final && !broken then Parsed(events, committed, false, true) else Corrupt);
    } else if decoded.NotAnEvent? {
      done := Some(if final && !broken && decoded.lacksField then Parsed(events, committed, false, true) else Corrupt);
    } else if decoded.record.session != session || decoded.record.seqNo != |events| + 1 {
      done := Some(Corrupt);
    } else {
      more, reach := events + [decoded.record], committed + n;
      done := if final then Some(Parsed(more, reach, !broken, false)) else None;
    }
  }

  /** `_parse_rollout`: line by line, collecting the events and how far they reach. */
  method ParseRollout(codec: Codec, session: string, data: seq<Byte>) returns (parsed: Parsed)
    ensures parsed == Parse(codec, session, data, 0)
  {
    var events: seq<Record> := [];
    var committed: nat := 0;
    var rest := data;
    AfterNothing(Parse(codec, session, data, 0));
    hide Parse, After;
    while rest != []
      invariant Parse(codec, session, data, 0) == After(events, committed, Parse(codec, session, rest, |events|))
      decreases |rest|
    {
      var done;
      done, events, committed, rest := TakeLine(codec, session, rest, events, committed);
      if done.Some? { return done.value; }
    }
    AfterAll(codec, session, events, committed);
    return Parsed(events, committed, false, false);
  }

  lemma AfterAll(codec: Codec, session: string, events: seq<Record>, committed: nat)
    ensures After(events, committed, Parse(codec, session, [], |events|)) == Parsed(events, committed, false, false)
  {
    assert events + [] == events;
  }

  /** What one line of the rest does to the result of the whole. */
  lemma ParseLine(codec: Codec, session: string, data: seq<Byte>, events: seq<Record>, committed: nat)
    requires data != []
    ensures var n := LineLength(data);
            var line, rest := data[..n], data[n..];
            var broken := IsBreak(line[n - 1]);
            var whole := After(events, committed, Parse(codec, session, data, |events|));
            match codec.decode(Stripped(line))
            case NotJson => whole == if rest == [] && !broken then Parsed(events, committed, false, true) else Corrupt
            case NotAnEvent(lacksField) => whole == if rest == [] && !broken && lacksField then Parsed(events, committed, false, true) else Corrupt
            case Holds(r) =>
              if r.session != session || r.seqNo != |events| + 1 then whole == Corrupt
              else if rest == [] then whole == Parsed(events + [r], committed + n, !broken, false)
              else whole == After(events + [r], committed + n, Parse(codec, session, rest, |events| + 1))
  {
    hide LineLength, Stripped;
    var n := LineLength(data);
    var line, rest := data[..n], data[n..];
    assert events + [] == events;
    var torn := rest == [] && !IsBreak(line[n - 1]);
    if codec.decode(Stripped(line)).Holds? {
      var r := codec.decode(Stripped(line)).record;
      AfterOne(events, committed, r, n, torn, Parse(codec, session, rest, |events| + 1));
      assert (events + [r]) + [] == events + [r];
    }
  }

  lemma AfterNothing(rest: Parsed)
    ensures After([], 0, rest) == rest
  {
    if rest.Parsed? { assert [] + rest.events == rest.events; }
  }

  /** One line more: its event, its length, and whether it lacks its line break. */
  lemma AfterOne(events: seq<Record>, committed: nat, r: Record, n: nat, torn: bool, rest: Parsed)
    ensures After(events, committed, match rest
                                     case Corrupt => Corrupt
                                     case Parsed(more, further, needs, dropped) => Parsed([r] + more, n + further, needs || torn, dropped))
         == match After(events + [r], committed + n, rest)
            case Corrupt => Corrupt
            case Parsed(more, further, needs, dropped) => Parsed(more, further, needs || torn, dropped)
  {
    if rest.Parsed? { assert events + ([r] + rest.events) == (events + [r]) + rest.events; }
  }

  /** The result of the whole, given that of the rest. */
  function After(events: seq<Record>, committed: nat, rest: Parsed): Parsed {
    match rest
    case Corrupt => Corrupt
    case Parsed(more, further, needs, dropped) => Parsed(events + more, committed + further, needs, dropped)
  }

  /**
   Open a file that a crash cut at any byte: the store then has exactly the events whose last byte was inside
   the cut, and the repaired file is the log of these.
   */
  method Reopen(codec: Codec, session: string, data: seq<Byte>, ghost written: seq<Record>) returns (store: RolloutStore)
    requires Numbered(codec, session, written, 0) && data <= Log(codec, written)
    ensures fresh(store) && store.Valid() && !store.poisoned && store.codec == codec && store.session == session
    ensures store.events == written[..Survivors(codec, written, |data|)]
    ensures Parse(codec, session, store.file, 0) == Parsed(store.events, |store.file|, false, false)
  {
    var parsed := ParseRollout(codec, session, data);
    assert data == Log(codec, written)[..|data|];
    RepairIsLog(codec, session, written, |data|);
    ParseWhole(codec, session, parsed.events);
    hide Log, Parse;
    var file := data;
    if parsed.droppedPartial {
      file := data[..parsed.committed];
    } else if parsed.needsNewline {
      file := data + [10];
    }
    store := new RolloutStore(codec, session, file, parsed.events);
  }

  /** A record that an append left torn is afterwards there as a whole or not at all, and all before it are there. */
  lemma TornAppend(codec: Codec, events: seq<Record>, r: Record, data: seq<Byte>)
    requires data <= Log(codec, events + [r]) && |Log(codec, events)| <= |data|
    ensures var k := Survivors(codec, events + [r], |data|);
            (events + [r])[..k] == events || (events + [r])[..k] == events + [r]
  {
    var all := events + [r];
    hide Log, Survivors;
    if events != [] {
      var last := |events| - 1;
      SurvivorsOf(codec, all, |data|, last);
      assert all[..last + 1] == events;
    }
    assert all[..|events|] == events && all[..|all|] == all;
  }

  ghost predicate Present(events: seq<Record>, acknowledged: set<Record>) {
    forall r :: r in acknowledged ==> 1 <= r.seqNo <= |events| && events[r.seqNo - 1] == r
  }

  /** Append until something fails; `torn` is the record that is cut off, if one is. */
  method AppendSome(store: RolloutStore, payloads: seq<string>, ghost acknowledged: set<Record>)
    returns (ghost more: set<Record>, ghost torn: Record)
    requires store.Valid() && !store.poisoned && Present(store.events, acknowledged)
    requires forall r: Record :: r.session == store.session ==> Faithful(store.codec, r)
    modifies store
    ensures acknowledged <= more && Present(store.events, more)
    ensures Numbered(store.codec, store.session, store.events + [torn], 0)
    ensures store.file <= Log(store.codec, store.events + [torn]) && |Log(store.codec, store.events)| <= |store.file|
  {
    hide Log, Faithful;
    more := acknowledged;
    torn := Record(|store.events| + 1, store.session, []);
    LogSnoc(store.codec, store.events, torn);
    for j := 0 to |payloads|
      invariant store.Valid() && !store.poisoned && acknowledged <= more && Present(store.events, more)
      invariant torn == Record(|store.events| + 1, store.session, [])
      invariant Log(store.codec, store.events) <= Log(store.codec, store.events + [torn])
    {
      ghost var next := Record(|store.events| + 1, store.session, payloads[j]);
      LogSnoc(store.codec, store.events, next);
      var ok := store.Append(payloads[j]);
      if !ok {
        torn := next;
        return;
      }
      more := more + {store.events[|store.events| - 1]};
      torn := Record(|store.events| + 1, store.session, []);
      LogSnoc(store.codec, store.events, torn);
    }
  }

  /**
   Any number of rounds of appending, each ended by a failed write or a crash, and reopening: every event whose
   append returned is still there, in its place.
   */
  method Rounds(codec: Codec, session: string, rounds: seq<seq<string>>) returns (store: RolloutStore, ghost acknowledged: set<Record>)
    requires forall r: Record :: r.session == session ==> Faithful(codec, r)
    ensures store.Valid() && Present(store.events, acknowledged)
  {
    assert Log(codec, []) == [];
    hide Log, Survivors, Parse, Faithful;
    store := new RolloutStore(codec, session, [], []);
    acknowledged := {};
    for i := 0 to |rounds|
      invariant store.Valid() && !store.poisoned && fresh(store) && store.codec == codec && store.session == session
      invariant Present(store.events, acknowledged)
    {
      ghost var torn;
      acknowledged, torn := AppendSome(store, rounds[i], acknowledged);
      ghost var before := store.events;
      TornAppend(codec, before, torn, store.file);
      store := Reopen(codec, session, store.file, before + [torn]);
      assert before <= store.events;
    }
  }
}
