/**
 Server-Sent Events: the reference reading of a whole stream after sections 9.2.5 and 9.2.6 of the WHATWG
 HTML Living Standard (data field only, no byte order mark), and the incremental decoder that equals it.
 */
module Sse {
  import opened Domain
  import opened Utf8

  // ----- The reference -----

  /** Every CRLF pair, and every other CR, becomes one LF. */
  function Normalize(text: string): string {
    if text == [] then []
    else if text[0] != '\r' then [text[0]] + Normalize(text[1..])
    else if |text| > 1 && text[1] == '\n' then ['\n'] + Normalize(text[2..])
    else ['\n'] + Normalize(text[1..])
  }

  /** The lines that an LF ends; what follows the last LF is not a line. */
  function LinesOf(text: string, current: string): seq<string> {
    if text == [] then []
    else if text[0] == '\n' then [current] + LinesOf(text[1..], [])
    else LinesOf(text[1..], current + [text[0]])
  }

  function ColonAt(line: string): (i: nat)
    ensures i <= |line|
  {
    if line == [] || line[0] == ':' then 0 else 1 + ColonAt(line[1..])
  }

  /** The data buffer after a field. */
  function ProcessField(buffer: string, field: string, value: string): string {
    if field == "data" then buffer + value + ['\n'] else buffer
  }

  function ProcessLine(buffer: string, line: string): string {
    var i := ColonAt(line);
    if i == 0 && line != [] then buffer
    else if i == |line| then ProcessField(buffer, line, [])
    else
      var value := line[i + 1..];
      ProcessField(buffer, line[..i], if value != [] && value[0] == ' ' then value[1..] else value)
  }

  /** Process lines in order; an empty line dispatches the buffer without its last LF, unless it is empty. */
  function Dispatched(lines: seq<string>, buffer: string): seq<string> {
    if lines == [] then []
    else if lines[0] != [] then Dispatched(lines[1..], ProcessLine(buffer, lines[0]))
    else (if buffer == [] then [] else [buffer[..|buffer| - 1]]) + Dispatched(lines[1..], [])
  }

  /** The events of a complete stream. */
  function StreamEvents(text: string): seq<string> {
    Dispatched(LinesOf(Normalize(text), []), [])
  }

  // ----- The decoder's own reading -----

  function Join(lines: seq<string>): string {
    if lines == [] then [] else if |lines| == 1 then lines[0] else lines[0] + ['\n'] + Join(lines[1..])
  }

  datatype Emission = Emission(events: seq<string>, data: seq<string>)

  /** `_consume_line`. */
  function ConsumeLine(data: seq<string>, line: string): Emission {
    if line == [] then (if data == [] then Emission([], []) else Emission([Join(data)], []))
    else if line[0] == ':' then Emission([], data)
    else if line == "data" then Emission([], data + [[]])
    else if |line| >= 5 && line[..5] == "data:" then
      var value := line[5..];
      Emission([], data + [if value != [] && value[0] == ' ' then value[1..] else value])
    else Emission([], data)
  }

  predicate IsBreak(c: char) { c == '\r' || c == '\n' }

  /** Where the first line ends: at a CR or LF, or at the end of the text. */
  function FindBreak(text: string): (i: nat)
    ensures i <= |text| && (i < |text| ==> IsBreak(text[i])) && forall j :: 0 <= j < i ==> !IsBreak(text[j])
  {
    if text == [] || IsBreak(text[0]) then 0 else 1 + FindBreak(text[1..])
  }

  datatype Consumed = Consumed(events: seq<string>, rest: string, data: seq<string>)

  /** A CR at the very end may be half of a CRLF, so it has to wait unless the stream is over. */
  predicate MustWait(text: string, final: bool) {
    var i := FindBreak(text);
    i == |text| || (text[i] == '\r' && i + 1 == |text| && !final)
  }

  function BreakWidth(text: string): (w: nat)
    requires FindBreak(text) < |text|
    ensures 1 <= w <= 2 && FindBreak(text) + w <= |text|
  {
    var i := FindBreak(text);
    if text[i] == '\r' && i + 1 < |text| && text[i + 1] == '\n' then 2 else 1
  }

  /** `_consume_lines`: what it emits, the text that it keeps, and the data lines so far. */
  function Consume(text: string, final: bool, data: seq<string>): Consumed
    decreases |text|
  {
    if MustWait(text, final) then
      if final && text != [] then
        var s := ConsumeLine(data, text);
        Consumed(s.events, [], s.data)
      else Consumed([], text, data)
    else
      var i := FindBreak(text);
      var s := ConsumeLine(data, text[..i]);
      var more := Consume(text[i + BreakWidth(text)..], final, s.data);
      Consumed(s.events + more.events, more.rest, more.data)
  }

  function Preceded(events: seq<string>, c: Consumed): Consumed { c.(events := events + c.events) }

  lemma PrecededByNothing(c: Consumed)
    ensures Preceded([], c) == c
  {
    assert [] + c.events == c.events;
  }

  lemma PrecededTwice(a: seq<string>, b: seq<string>, c: Consumed)
    ensures Preceded(a, Preceded(b, c)) == Preceded(a + b, c)
  {
    assert a + (b + c.events) == a + b + c.events;
  }

  lemma BreakInMore(a: string, b: string)
    requires FindBreak(a) < |a|
    ensures FindBreak(a + b) == FindBreak(a)
  {
    var i, j := FindBreak(a), FindBreak(a + b);
    assert (a + b)[i] == a[i];
    if j < i { assert (a + b)[j] == a[j]; }
  }

  /** A first line that is complete stays the first line when more text comes. */
  lemma FirstLineStays(a: string, b: string, final: bool)
    requires !MustWait(a, false)
    ensures !MustWait(a + b, final) && FindBreak(a) < |a| && FindBreak(a + b) == FindBreak(a) && BreakWidth(a + b) == BreakWidth(a)
    ensures (a + b)[..FindBreak(a)] == a[..FindBreak(a)]
    ensures (a + b)[FindBreak(a) + BreakWidth(a)..] == a[FindBreak(a) + BreakWidth(a)..] + b
  {
    BreakInMore(a, b);
  }

  lemma ConsumeFirst(text: string, final: bool, data: seq<string>)
    requires !MustWait(text, final)
    ensures FindBreak(text) < |text|
    ensures var s := ConsumeLine(data, text[..FindBreak(text)]);
            var more := Consume(text[FindBreak(text) + BreakWidth(text)..], final, s.data);
            Consume(text, final, data) == Consumed(s.events + more.events, more.rest, more.data)
  {
    hide ConsumeLine, FindBreak;
  }

  lemma ConsumeLast(text: string, data: seq<string>)
    requires MustWait(text, false)
    ensures Consume(text, false, data) == Consumed([], text, data)
  {
    hide ConsumeLine, FindBreak, MustWait;
  }

  /** Text that comes in two parts is read as if it came at once. */
  lemma {:induction false} ConsumeConcat(a: string, b: string, final: bool, data: seq<string>)
    ensures var x := Consume(a, false, data);
            var y := Consume(x.rest + b, final, x.data);
            Consume(a + b, final, data) == Consumed(x.events + y.events, y.rest, y.data)
    decreases |a|
  {
    hide MustWait, FindBreak, BreakWidth, ConsumeLine, Consume;
    if MustWait(a, false) {
      ConsumeLast(a, data);
      var y := Consume(a + b, final, data);
      assert [] + y.events == y.events;
    } else {
      FirstLineStays(a, b, final);
      ConsumeFirst(a, false, data);
      ConsumeFirst(a + b, final, data);
      var i, w := FindBreak(a), BreakWidth(a);
      var s := ConsumeLine(data, a[..i]);
      ConsumeConcat(a[i + w..], b, final, s.data);
      var x := Consume(a[i + w..], false, s.data);
      var y := Consume(x.rest + b, final, x.data);
      assert s.events + (x.events + y.events) == (s.events + x.events) + y.events;
    }
  }

  // ----- The decoder's reading is the reference -----

  /** The data buffer that a list of data lines stands for. */
  function BufferOf(data: seq<string>): string {
    if data == [] then [] else BufferOf(data[..|data| - 1]) + data[|data| - 1] + ['\n']
  }

  lemma {:induction false} JoinIsBuffer(data: seq<string>)
    requires data != []
    ensures BufferOf(data) == Join(data) + ['\n']
  {
    if |data| == 1 {
      assert data[..0] == [];
      assert BufferOf(data) == [] + data[0] + ['\n'];
    } else {
      BufferFirst(data);
      JoinIsBuffer(data[1..]);
    }
  }

  lemma {:induction false} BufferFirst(data: seq<string>)
    requires data != []
    ensures BufferOf(data) == data[0] + ['\n'] + BufferOf(data[1..])
  {
    if |data| == 1 {
      assert data[..0] == [] && data[1..] == [];
    } else {
      var front, last := data[..|data| - 1], data[|data| - 1];
      BufferFirst(front);
      assert front[1..] == data[1..][..|data| - 2];
      assert BufferOf(data) == BufferOf(front) + last + ['\n'];
      assert BufferOf(data[1..]) == BufferOf(front[1..]) + last + ['\n'];
      hide BufferOf;
      assert (data[0] + ['\n'] + BufferOf(front[1..])) + last + ['\n'] == data[0] + ['\n'] + (BufferOf(front[1..]) + last + ['\n']);
    }
  }

  lemma {:induction false} ColonIsFirst(line: string, i: nat)
    requires i < |line| && line[i] == ':' && forall j :: 0 <= j < i ==> line[j] != ':'
    ensures ColonAt(line) == i
  {
    if i > 0 { ColonIsFirst(line[1..], i - 1); }
  }

  lemma {:induction false} ColonBounds(line: string)
    ensures ColonAt(line) < |line| ==> line[ColonAt(line)] == ':'
    ensures forall j :: 0 <= j < ColonAt(line) ==> line[j] != ':'
  {
    if line != [] && line[0] != ':' {
      ColonBounds(line[1..]);
      assert forall j :: 1 <= j < ColonAt(line) ==> line[j] == line[1..][j - 1];
    }
  }

  /** One line changes the data lines as the standard changes the data buffer. */
  lemma LineIsReference(data: seq<string>, line: string)
    requires line != []
    ensures ConsumeLine(data, line).events == []
    ensures BufferOf(ConsumeLine(data, line).data) == ProcessLine(BufferOf(data), line)
  {
    var i := ColonAt(line);
    ColonBounds(line);
    if line[0] == ':' {
    } else if line == "data" {
      assert (data + [[]])[..|data|] == data;
      assert BufferOf(data) + [] + ['\n'] == BufferOf(data + [[]]);
    } else if |line| >= 5 && line[..5] == "data:" {
      assert line[4] == line[..5][4] && forall j :: 0 <= j < 4 ==> line[j] == line[..5][j];
      ColonIsFirst(line, 4);
      assert line[..4] == line[..5][..4] == "data";
      var value := if line[5..] != [] && line[5..][0] == ' ' then line[5..][1..] else line[5..];
      assert (data + [value])[..|data|] == data;
    } else {
      assert i < |line| ==> line[..i + 1] == line[..i] + [':'];
    }
  }

  lemma {:induction false} NormalizeFirst(text: string)
    requires FindBreak(text) < |text|
    ensures Normalize(text) == text[..FindBreak(text)] + ['\n'] + Normalize(text[FindBreak(text) + BreakWidth(text)..])
  {
    if !IsBreak(text[0]) {
      NormalizeFirst(text[1..]);
      var i, w := FindBreak(text), BreakWidth(text);
      assert BreakWidth(text[1..]) == w && text[1..][i - 1 + w..] == text[i + w..];
      assert text[..i] == [text[0]] + text[1..][..i - 1];
      assert Normalize(text) == [text[0]] + Normalize(text[1..]);
      hide Normalize, FindBreak, BreakWidth;
      var rest := Normalize(text[i + w..]);
      assert [text[0]] + (text[1..][..i - 1] + ['\n'] + rest) == text[..i] + ['\n'] + rest;
    } else {
      assert text[..0] == [];
    }
  }

  lemma {:induction false} NormalizeNoBreak(text: string)
    requires FindBreak(text) == |text|
    ensures Normalize(text) == text
  {
    if text != [] { NormalizeNoBreak(text[1..]); }
  }

  lemma {:induction false} LinesFirst(line: string, rest: string, current: string)
    requires forall j :: 0 <= j < |line| ==> line[j] != '\n'
    ensures LinesOf(line + ['\n'] + rest, current) == [current + line] + LinesOf(rest, [])
    ensures LinesOf(line, current) == []
  {
    var all := line + ['\n'] + rest;
    if line == [] {
      assert all[1..] == rest && current + line == current;
    } else {
      LinesFirst(line[1..], rest, current + [line[0]]);
      assert all[1..] == line[1..] + ['\n'] + rest;
      assert current + [line[0]] + line[1..] == current + line;
    }
  }

  /** Reading line by line as the decoder does gives the events of the standard, and drops an unfinished event. */
  lemma {:induction false} ConsumeIsReference(text: string, data: seq<string>)
    ensures Consume(text, true, data).events == Dispatched(LinesOf(Normalize(text), []), BufferOf(data))
    decreases |text|
  {
    var i := FindBreak(text);
    if i == |text| {
      NormalizeNoBreak(text);
      LinesFirst(text, [], []);
      if text != [] { LineIsReference(data, text); }
    } else {
      var rest, line := text[i + BreakWidth(text)..], text[..i];
      var s := ConsumeLine(data, line);
      NormalizeFirst(text);
      LinesFirst(line, Normalize(rest), []);
      assert [] + line == line;
      assert LinesOf(Normalize(text), []) == [line] + LinesOf(Normalize(rest), []);
      ConsumeIsReference(rest, s.data);
      DispatchFirst(data, line, LinesOf(Normalize(rest), []));
    }
  }

  lemma DispatchFirst(data: seq<string>, line: string, lines: seq<string>)
    ensures Dispatched([line] + lines, BufferOf(data)) ==
            ConsumeLine(data, line).events + Dispatched(lines, BufferOf(ConsumeLine(data, line).data))
  {
    assert ([line] + lines)[1..] == lines;
    if line != [] {
      LineIsReference(data, line);
    } else if data != [] {
      JoinIsBuffer(data);
      assert BufferOf(data)[..|BufferOf(data)| - 1] == Join(data);
    }
  }

  // ----- The incremental decoder -----

  datatype SseError = DecoderClosed | NotUtf8 | CutCharacter

  class SSEDecoder {
    var pending: seq<Byte>
    var text: string
    var dataLines: seq<string>
    var closed: bool
    /** The bytes taken and the events given so far. */
    ghost var taken: seq<Byte>
    ghost var given: seq<string>

    ghost predicate Valid()
      reads this
    {
      && Partial(pending)
      && (!closed ==> exists all :: Decode([], taken) == Some(Decoded(all, pending)) && Consume(all, false, []) == Consumed(given, text, dataLines))
    }

    constructor ()
      ensures Valid() && !closed && taken == [] && given == []
    {
      pending, text, dataLines, closed, taken, given := [], [], [], false, [], [];
      new;
      assert Decode([], taken) == Some(Decoded([], pending)) && Consume([], false, []) == Consumed(given, text, dataLines);
    }

    method FirstBreak() returns (i: nat)
      ensures i == FindBreak(text)
    {
      i := 0;
      while i < |text| && !IsBreak(text[i])
        invariant i <= |text| && FindBreak(text) == i + FindBreak(text[i..])
      {
        assert text[i..][1..] == text[i + 1..];
        i := i + 1;
      }
    }

    method TakeLine(line: string) returns (events: seq<string>)
      modifies `dataLines
      ensures Emission(events, dataLines) == ConsumeLine(old(dataLines), line)
    {
      events := [];
      if line == [] {
        if dataLines != [] {
          events := [Join(dataLines)];
          dataLines := [];
        }
        return;
      }
      if line[0] == ':' { return; }
      if line == "data" {
        dataLines := dataLines + [[]];
        return;
      }
      if |line| >= 5 && line[..5] == "data:" {
        var value := line[5..];
        if value != [] && value[0] == ' ' { value := value[1..]; }
        dataLines := dataLines + [value];
      }
    }

    /** Take the first line out of the text, or find that there is none yet. */
    method TakeFirst(final: bool) returns (done: bool, events: seq<string>)
      modifies `text, `dataLines
      ensures done ==> Consumed(events, text, dataLines) == Consume(old(text), final, old(dataLines))
      ensures !done ==> |text| < |old(text)| && Consume(old(text), final, old(dataLines)) == Preceded(events, Consume(text, final, dataLines))
    {
      hide ConsumeLine, FindBreak, BreakWidth;
      var i := FirstBreak();
      done, events := true, [];
      if i == |text| {
        if final && text != [] {
          events := TakeLine(text);
          text := [];
        }
      } else if text[i] != '\r' || i + 1 != |text| || final {
        var width, line := BreakWidth(text), text[..i];
        text := text[i + width..];
        events := TakeLine(line);
        done := false;
      }
    }

    /** Take every complete line out of the text. */
    method ConsumeLines(final: bool) returns (events: seq<string>)
      modifies `text, `dataLines
      ensures Consumed(events, text, dataLines) == Consume(old(text), final, old(dataLines))
    {
      events := [];
      PrecededByNothing(Consume(text, final, dataLines));
      hide Consume;
      while true
        invariant Consume(old(text), final, old(dataLines)) == Preceded(events, Consume(text, final, dataLines))
        decreases |text|
      {
        var done, some := TakeFirst(final);
        PrecededTwice(events, some, Consume(text, final, dataLines));
        events := events + some;
        if done { return; }
      }
    }

    /** Take one chunk; a chunk that is not UTF-8 is refused as a whole. */
    method Feed(chunk: seq<Byte>) returns (r: Result<seq<string>, SseError>)
      requires Valid()
      modifies this
      ensures Valid() && closed == old(closed)
      ensures old(closed) ==> r == Err(DecoderClosed)
      ensures !old(closed) ==> (r.Err? <==> Decode([], old(taken) + chunk).None?)
      ensures r.Ok? ==> taken == old(taken) + chunk && given == old(given) + r.value
    {
      if closed { return Err(DecoderClosed); }
      ghost var all :| Decode([], taken) == Some(Decoded(all, pending)) && Consume(all, false, []) == Consumed(given, text, dataLines);
      DecodeConcat([], taken, chunk);
      hide Decode, Consume;
      match Decode(pending, chunk)
      case None => return Err(NotUtf8);
      case Some(d) =>
        ConsumeConcat(all, d.text, false, []);
        pending, text := d.pending, text + d.text;
        var events := ConsumeLines(false);
        taken, given := taken + chunk, given + events;
        assert Decode([], taken) == Some(Decoded(all + d.text, pending));
        return Ok(events);
    }

    /** The end of the stream: the text that is left is a last line. */
    method Close() returns (r: Result<seq<string>, SseError>)
      requires Valid()
      modifies this
      ensures Valid() && closed && taken == old(taken) && (old(closed) ==> r == Ok([]))
      ensures !old(closed) ==> (r.Ok? <==> Decode([], taken).Some? && Decode([], taken).value.pending == [])
      ensures !old(closed) && r.Ok? ==> Decode([], taken).Some? && old(given) + r.value == StreamEvents(Decode([], taken).value.text)
    {
      if closed { return Ok([]); }
      closed := true;
      ghost var all :| Decode([], taken) == Some(Decoded(all, pending)) && Consume(all, false, []) == Consumed(given, text, dataLines);
      if pending != [] { return Err(CutCharacter); }
      ConsumeConcat(all, [], true, []);
      assert all + [] == all && text + [] == text;
      ConsumeIsReference(all, []);
      hide Decode, Consume;
      var events := ConsumeLines(true);
      given := given + events;
      return Ok(events);
    }
  }

  function Concat(chunks: seq<seq<Byte>>): seq<Byte> {
    if chunks == [] then [] else Concat(chunks[..|chunks| - 1]) + chunks[|chunks| - 1]
  }

  /** Bytes that cannot be UTF-8 stay so whatever follows. */
  lemma {:induction false} BadPrefix(chunks: seq<seq<Byte>>, i: nat)
    requires i <= |chunks| && Decode([], Concat(chunks[..i])).None?
    ensures Decode([], Concat(chunks)).None?
    decreases |chunks|
  {
    if i == |chunks| {
      assert chunks[..i] == chunks;
    } else {
      var front := chunks[..|chunks| - 1];
      assert front[..i] == chunks[..i];
      BadPrefix(front, i);
      DecodeConcat([], Concat(front), chunks[|chunks| - 1]);
    }
  }

  /**
   However a stream is cut into chunks, even between CR and LF or inside a character, decoding it succeeds
   exactly when the whole is UTF-8, and yields the events of the whole text.
   */
  method DecodeStream(chunks: seq<seq<Byte>>) returns (r: Result<seq<string>, SseError>)
    ensures r.Ok? <==> Decode([], Concat(chunks)).Some? && Decode([], Concat(chunks)).value.pending == []
    ensures r.Ok? ==> Decode([], Concat(chunks)).Some? && r.value == StreamEvents(Decode([], Concat(chunks)).value.text)
  {
    var decoder := new SSEDecoder();
    var events: seq<string> := [];
    hide Decode, StreamEvents, Consume;
    for i := 0 to |chunks|
      invariant decoder.Valid() && fresh(decoder) && !decoder.closed && decoder.taken == Concat(chunks[..i]) && decoder.given == events
    {
      assert chunks[..i + 1][..i] == chunks[..i];
      var more := decoder.Feed(chunks[i]);
      if more.Err? {
        BadPrefix(chunks, i + 1);
        return Err(more.error);
      }
      events := events + more.value;
    }
    assert chunks[..|chunks|] == chunks;
    var last := decoder.Close();
    if last.Err? { return Err(last.error); }
    return Ok(events + last.value);
  }
}
