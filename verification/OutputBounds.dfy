/**
 Bounded tool output: `truncate_output`, which keeps both ends of a text within a byte and a line budget, and the
 fixed byte window that a shell command's pipes are drained into.
 */
module OutputBounds {
  import opened Domain
  import opened Utf8

  // ----- Cutting UTF-8 -----

  /** Strict decoding succeeds. */
  predicate IsUtf8(data: seq<Byte>) {
    Decode([], data).Some? && Decode([], data).value.pending == []
  }

  /** The longest decodable prefix within the limit. */
  ghost predicate LongestPrefix(data: seq<Byte>, limit: nat, clipped: seq<Byte>) {
    && clipped <= data && |clipped| <= limit && IsUtf8(clipped)
    && forall k :: |clipped| < k <= |data| && k <= limit ==> !IsUtf8(data[..k])
  }

  ghost predicate LongestSuffix(data: seq<Byte>, limit: nat, clipped: seq<Byte>) {
    && |clipped| <= |data| && |clipped| <= limit && clipped == data[|data| - |clipped|..] && IsUtf8(clipped)
    && forall k :: 0 <= k < |data| - |clipped| && |data| - k <= limit ==> !IsUtf8(data[k..])
  }

  /** `_utf8_prefix` */
  method Utf8Prefix(data: seq<Byte>, limit: nat) returns (clipped: seq<Byte>)
    ensures LongestPrefix(data, limit, clipped)
  {
    clipped := data[..if limit < |data| then limit else |data|];
    while clipped != []
      invariant clipped <= data && |clipped| <= limit
      invariant forall k :: |clipped| < k <= |data| && k <= limit ==> !IsUtf8(data[..k])
    {
      assert clipped == data[..|clipped|];
      if IsUtf8(clipped) { return; }
      clipped := clipped[..|clipped| - 1];
    }
  }

  /** `_utf8_suffix` */
  method Utf8Suffix(data: seq<Byte>, limit: nat) returns (clipped: seq<Byte>)
    ensures LongestSuffix(data, limit, clipped)
  {
    clipped := data[if limit < |data| then |data| - limit else 0..];
    while clipped != []
      invariant |clipped| <= |data| && |clipped| <= limit && clipped == data[|data| - |clipped|..]
      invariant forall k :: 0 <= k < |data| - |clipped| && |data| - k <= limit ==> !IsUtf8(data[k..])
    {
      if IsUtf8(clipped) { return; }
      clipped := clipped[1..];
    }
  }

  lemma NoLongerPrefix(data: seq<Byte>, limit: nat, clipped: seq<Byte>, more: seq<Byte>)
    requires LongestPrefix(data, limit, clipped) && more <= data && IsUtf8(more)
    ensures |more| <= |clipped| || |more| > limit
  {
    assert more == data[..|more|];
  }

  lemma NoLongerSuffix(data: seq<Byte>, limit: nat, clipped: seq<Byte>, front: seq<Byte>, more: seq<Byte>)
    requires LongestSuffix(data, limit, clipped) && data == front + more && IsUtf8(more)
    ensures |more| <= |clipped| || |more| > limit
  {
    assert more == data[|front|..];
  }

  function Decoding(data: seq<Byte>): string
    requires IsUtf8(data)
  {
    Decode([], data).value.text
  }

  lemma {:induction false} EncodeConcat(a: string, b: string)
    ensures EncodeText(a + b) == EncodeText(a) + EncodeText(b)
  {
    if a == [] {
      assert a + b == b;
    } else {
      assert (a + b)[1..] == a[1..] + b;
      EncodeConcat(a[1..], b);
    }
  }

  lemma EncodeOne(c: char)
    ensures EncodeText([c]) == Encode(c) && 1 <= |Encode(c)| <= 4
  {
    assert [c][1..] == [];
    assert EncodeText([c]) == Encode(c) + [];
  }

  /** Bytes that decode are the encoding of a text. */
  lemma TextOf(data: seq<Byte>) returns (text: string)
    requires IsUtf8(data)
    ensures data == EncodeText(text)
  {
    EncodeDecode([], data);
    text := Decode([], data).value.text;
    assert EncodeText(text) + [] == EncodeText(text);
    assert [] + data == data;
  }

  lemma EncodedIsUtf8(text: string)
    ensures IsUtf8(EncodeText(text))
  {
    DecodeEncode(text);
  }

  /** A whole part at the front leaves a whole part behind. */
  lemma RestIsUtf8(data: seq<Byte>, k: nat)
    requires k <= |data| && IsUtf8(data) && IsUtf8(data[..k])
    ensures IsUtf8(data[k..])
  {
    hide Decode;
    assert data == data[..k] + data[k..];
    DecodeConcat([], data[..k], data[k..]);
  }

  /** A byte that continues a character starts none. */
  lemma NoStart(p: seq<Byte>, rest: seq<Byte>)
    requires Partial(p) && p != [] && rest != [] && Decode(p, rest).Some?
    ensures !IsUtf8(rest)
  {
    var q := p + [rest[0]];
    assert Whole(q) || Partial(q);
    assert Continues(rest[0]);
    assert [] + [rest[0]] == [rest[0]];
    assert Width(rest[0]) == 0;
  }

  /** A whole part at the back leaves a whole part in front. */
  lemma FrontIsUtf8(data: seq<Byte>, k: nat)
    requires k <= |data| && IsUtf8(data) && IsUtf8(data[k..])
    ensures IsUtf8(data[..k])
  {
    assert data == data[..k] + data[k..];
    DecodeConcat([], data[..k], data[k..]);
    if k == |data| {
      assert data[..k] == data;
    } else {
      hide Decode;
      var d := Decode([], data[..k]).value;
      if d.pending != [] { NoStart(d.pending, data[k..]); }
    }
  }

  /** A cut between whole parts is a cut between characters. */
  lemma CutIsBetweenCharacters(text: string, k: nat) returns (front: string, back: string)
    requires k <= |EncodeText(text)| && IsUtf8(EncodeText(text)[..k]) && IsUtf8(EncodeText(text)[k..])
    ensures text == front + back && EncodeText(front) == EncodeText(text)[..k] && EncodeText(back) == EncodeText(text)[k..]
  {
    hide *;
    var data := EncodeText(text);
    front := TextOf(data[..k]);
    back := TextOf(data[k..]);
    EncodeConcat(front, back);
    assert data == data[..k] + data[k..];
    DecodeEncode(text);
    DecodeEncode(front + back);
  }

  lemma EncodeThree(front: string, c: char, back: string)
    ensures EncodeText(front + [c] + back) == EncodeText(front) + Encode(c) + EncodeText(back)
    ensures EncodeText(front + [c]) == EncodeText(front) + Encode(c)
    ensures EncodeText([c] + back) == Encode(c) + EncodeText(back)
    ensures 1 <= |Encode(c)| <= 4
  {
    EncodeOne(c);
    EncodeConcat(front + [c], back);
    EncodeConcat(front, [c]);
    EncodeConcat([c], back);
  }

  /** A character that would still fit is not left out: at most three bytes of the budget go unused. */
  lemma PrefixLoss(text: string, clipped: seq<Byte>, limit: nat) returns (front: string)
    requires LongestPrefix(EncodeText(text), limit, clipped)
    ensures front <= text && EncodeText(front) == clipped && (front == text || limit - |clipped| <= 3)
  {
    var data := EncodeText(text);
    EncodedIsUtf8(text);
    assert clipped == data[..|clipped|] && IsUtf8(clipped) && |clipped| <= limit;
    RestIsUtf8(data, |clipped|);
    var back;
    front, back := CutIsBetweenCharacters(text, |clipped|);
    hide IsUtf8, LongestPrefix, EncodeText, Encode;
    if back != [] {
      assert front + [back[0]] + back[1..] == text;
      EncodeThree(front, back[0], back[1..]);
      EncodedIsUtf8(front + [back[0]]);
      NoLongerPrefix(data, limit, clipped, EncodeText(front + [back[0]]));
    }
  }

  lemma NoRoomInFront(front: string, back: string, clipped: seq<Byte>, limit: nat)
    requires front != [] && LongestSuffix(EncodeText(front + back), limit, clipped) && EncodeText(back) == clipped
    ensures limit - |clipped| <= 3
  {
    hide *;
    var before, last := front[..|front| - 1], front[|front| - 1];
    assert before + [last] + back == front + back;
    EncodeThree(before, last, back);
    EncodedIsUtf8([last] + back);
    assert EncodeText(front + back) == EncodeText(before) + EncodeText([last] + back);
    NoLongerSuffix(EncodeText(front + back), limit, clipped, EncodeText(before), EncodeText([last] + back));
  }

  lemma SuffixCut(data: seq<Byte>, limit: nat, clipped: seq<Byte>) returns (cut: nat)
    requires LongestSuffix(data, limit, clipped)
    ensures cut <= |data| && data[cut..] == clipped && IsUtf8(data[cut..])
  {
    cut := |data| - |clipped|;
  }

  lemma SuffixLoss(text: string, clipped: seq<Byte>, limit: nat) returns (back: string)
    requires LongestSuffix(EncodeText(text), limit, clipped)
    ensures |back| <= |text| && back == text[|text| - |back|..] && EncodeText(back) == clipped
    ensures back == text || limit - |clipped| <= 3
  {
    hide *;
    var data := EncodeText(text);
    EncodedIsUtf8(text);
    var cut := SuffixCut(data, limit, clipped);
    FrontIsUtf8(data, cut);
    var front;
    front, back := CutIsBetweenCharacters(text, cut);
    if front != [] { NoRoomInFront(front, back, clipped, limit); }
  }

  // ----- Lines -----

  predicate IsBreak(c: char) {
    var n := c as int;
    10 <= n <= 13 || 28 <= n <= 30 || n == 0x85 || n == 0x2028 || n == 0x2029
  }

  predicate OneLine(text: string) { forall c :: c in text ==> !IsBreak(c) }

  /** The place of the first line boundary, or the end. */
  function FirstBreak(text: string): (n: nat)
    ensures n <= |text| && OneLine(text[..n]) && (n < |text| ==> IsBreak(text[n]))
  {
    if text == [] || IsBreak(text[0]) then 0
    else
      var n := 1 + FirstBreak(text[1..]);
      assert text[..n] == [text[0]] + text[1..][..n - 1];
      n
  }

  /** `str.splitlines`: CR LF is one boundary, and a boundary at the end opens no line. */
  function SplitLines(text: string): (lines: seq<string>)
    ensures forall l :: l in lines ==> OneLine(l)
    ensures lines == [] <==> text == []
    decreases |text|
  {
    if text == [] then []
    else
      var n := FirstBreak(text);
      [text[..n]] + if n < |text| then SplitLines(text[NextLine(text)..]) else []
  }

  function Breaks(text: string): nat {
    if text == [] then 0 else (if IsBreak(text[0]) then 1 else 0) + Breaks(text[1..])
  }

  lemma {:induction false} BreaksConcat(a: string, b: string)
    ensures Breaks(a + b) == Breaks(a) + Breaks(b)
  {
    if a == [] {
      assert a + b == b;
    } else {
      assert (a + b)[1..] == a[1..] + b;
      BreaksConcat(a[1..], b);
    }
  }

  lemma {:induction false} OneLineBreaks(text: string)
    requires OneLine(text)
    ensures Breaks(text) == 0
  {
    if text != [] { OneLineBreaks(text[1..]); }
  }

  /** The place where the second line begins. */
  function NextLine(text: string): (next: nat)
    requires text != [] && FirstBreak(text) < |text|
    ensures FirstBreak(text) < next <= |text|
  {
    var n := FirstBreak(text);
    if n + 1 < |text| && text[n] == '\r' && text[n + 1] == '\n' then n + 2 else n + 1
  }

  lemma FirstLineBreaks(text: string)
    requires text != [] && FirstBreak(text) < |text|
    ensures Breaks(text) >= 1 + Breaks(text[NextLine(text)..])
  {
    hide *;
    var n, next := FirstBreak(text), NextLine(text);
    assert text == (text[..n] + [text[n]] + text[n + 1..next]) + text[next..];
    BreaksConcat(text[..n] + [text[n]] + text[n + 1..next], text[next..]);
    BreaksConcat(text[..n] + [text[n]], text[n + 1..next]);
    BreaksConcat(text[..n], [text[n]]);
    OneBreak(text[n]);
  }

  /** There is at most one line more than there are boundary characters. */
  lemma {:induction false} LinesBound(text: string)
    ensures |SplitLines(text)| <= Breaks(text) + 1
    decreases |text|
  {
    if text != [] && FirstBreak(text) < |text| {
      LinesBound(text[NextLine(text)..]);
      FirstLineBreaks(text);
      hide Breaks, FirstBreak, NextLine;
    }
  }

  /** `"\n".join(lines)` */
  function Join(lines: seq<string>): string {
    if lines == [] then [] else if |lines| == 1 then lines[0] else lines[0] + "\n" + Join(lines[1..])
  }

  lemma {:induction false} JoinBreaks(lines: seq<string>)
    requires lines != [] && forall l :: l in lines ==> OneLine(l)
    ensures Breaks(Join(lines)) == |lines| - 1
  {
    OneLineBreaks(lines[0]);
    if |lines| > 1 {
      JoinBreaks(lines[1..]);
      BreaksConcat(lines[0] + "\n", Join(lines[1..]));
      BreaksConcat(lines[0], "\n");
    }
  }

  lemma PartBreaks(all: string, part: string)
    requires part <= all || (|part| <= |all| && part == all[|all| - |part|..])
    ensures Breaks(part) <= Breaks(all)
  {
    if part <= all {
      assert all == part + all[|part|..];
      BreaksConcat(part, all[|part|..]);
    } else {
      assert all == all[..|all| - |part|] + part;
      BreaksConcat(all[..|all| - |part|], part);
    }
  }

  // ----- The marker -----

  function Marker(): string { "... [truncated] ..." }

  predicate Ascii(text: string) { forall i :: 0 <= i < |text| ==> text[i] as int < 128 }

  lemma {:induction false} AsciiBytes(text: string)
    requires Ascii(text)
    ensures |EncodeText(text)| == |text|
  {
    if text != [] { AsciiBytes(text[1..]); }
  }

  lemma MarkerFacts()
    ensures |Marker()| == 19 && Ascii(Marker()) && OneLine(Marker())
  {
  }

  /** The separator stands on a line of its own when there is room for three lines. */
  function Separator(maxLines: int): string {
    if maxLines == 2 then " " + Marker() + " " else "\n" + Marker() + "\n"
  }

  lemma FramedMarker(c: char)
    requires c as int < 128
    ensures |EncodeText([c] + Marker() + [c])| == 21
    ensures Breaks([c] + Marker() + [c]) == if IsBreak(c) then 2 else 0
  {
    MarkerFacts();
    hide Marker, EncodeText, Breaks;
    AsciiBytes([c] + Marker() + [c]);
    BreaksConcat([c] + Marker(), [c]);
    BreaksConcat([c], Marker());
    OneLineBreaks(Marker());
    OneBreak(c);
  }

  lemma OneBreak(c: char)
    ensures Breaks([c]) == if IsBreak(c) then 1 else 0
  {
    assert [c][1..] == [];
  }

  lemma SeparatorFacts(maxLines: int)
    ensures |EncodeText(Separator(maxLines))| == 21
    ensures Breaks(Separator(maxLines)) == if maxLines == 2 then 0 else 2
  {
    hide Marker, EncodeText, Breaks;
    FramedMarker(' ');
    FramedMarker('\n');
    assert " " == [' '] && "\n" == ['\n'];
  }

  // ----- truncate_output -----

  datatype Bounded = Bounded(text: string, truncated: bool)

  predicate Fits(text: string, maxBytes: int, maxLines: int) {
    |EncodeText(text)| <= maxBytes && |SplitLines(text)| <= maxLines
  }

  /** How many lines the head and the tail may be taken from. */
  function Shares(count: nat, maxLines: nat): (r: (nat, nat))
    requires count > 0 && maxLines >= 2
    ensures 0 < r.0 <= count && 0 < r.1 <= count
    ensures r.0 + r.1 <= if maxLines == 2 then 2 else maxLines - 1
    ensures count > 1 ==> r.0 + r.1 <= count
  {
    if maxLines == 2 || count == 1 then (1, 1)
    else
      var slots := if count < maxLines - 1 then count else maxLines - 1;
      ((slots + 1) / 2, slots - (slots + 1) / 2)
  }

  /** What is left of a text: some of its first lines, the separator, and some of its last lines. */
  ghost predicate KeepsEnds(output: string, text: string, maxBytes: int, maxLines: int, head: string, tail: string)
    requires output != [] && maxLines >= 2 && maxBytes > 21
  {
    var lines := SplitLines(output);
    var (h, t) := Shares(|lines|, maxLines);
    var first, last := Join(lines[..h]), Join(lines[|lines| - t..]);
    var budget := (maxBytes - 21) / 2;
    && text == head + Separator(maxLines) + tail
    && head <= first && |EncodeText(head)| <= budget && (head == first || budget - |EncodeText(head)| <= 3)
    && |tail| <= |last| && tail == last[|last| - |tail|..] && |EncodeText(tail)| <= maxBytes - 21 - budget
    && (tail == last || maxBytes - 21 - budget - |EncodeText(tail)| <= 3)
  }

  lemma HeadShare(lines: seq<string>, h: nat, head: string)
    requires 0 < h <= |lines| && (forall l :: l in lines ==> OneLine(l)) && head <= Join(lines[..h])
    ensures Breaks(head) <= h - 1
  {
    hide *;
    JoinBreaks(lines[..h]);
    PartBreaks(Join(lines[..h]), head);
  }

  lemma TailShare(lines: seq<string>, t: nat, tail: string)
    requires 0 < t <= |lines| && (forall l :: l in lines ==> OneLine(l))
    requires var last := Join(lines[|lines| - t..]); |tail| <= |last| && tail == last[|last| - |tail|..]
    ensures Breaks(tail) <= t - 1
  {
    hide *;
    JoinBreaks(lines[|lines| - t..]);
    PartBreaks(Join(lines[|lines| - t..]), tail);
  }

  /** The ends are taken from no more lines than their shares. */
  lemma EndsShare(output: string, text: string, maxBytes: int, maxLines: int, head: string, tail: string)
    requires output != [] && maxLines >= 2 && maxBytes > 21 && KeepsEnds(output, text, maxBytes, maxLines, head, tail)
    ensures text == head + Separator(maxLines) + tail && |EncodeText(head)| + |EncodeText(tail)| <= maxBytes - 21
    ensures Breaks(head) + Breaks(tail) + 2 <= if maxLines == 2 then 2 else maxLines - 1
  {
    hide Breaks, EncodeText, SplitLines, Separator, Join, Shares, OneLine;
    var lines := SplitLines(output);
    var (h, t) := Shares(|lines|, maxLines);
    HeadShare(lines, h, head);
    TailShare(lines, t, tail);
  }

  /** Two bounded ends and the separator keep within both budgets. */
  lemma EndsFit(output: string, text: string, maxBytes: int, maxLines: int, head: string, tail: string)
    requires output != [] && maxLines >= 2 && maxBytes > 21 && KeepsEnds(output, text, maxBytes, maxLines, head, tail)
    ensures Fits(text, maxBytes, maxLines)
  {
    EndsShare(output, text, maxBytes, maxLines, head, tail);
    SeparatorFacts(maxLines);
    hide KeepsEnds, Shares, Separator, Breaks, EncodeText, SplitLines;
    BreaksConcat(head + Separator(maxLines), tail);
    BreaksConcat(head, Separator(maxLines));
    EncodeConcat(head + Separator(maxLines), tail);
    EncodeConcat(head, Separator(maxLines));
    LinesBound(text);
  }

  /** The marker alone, cut to the byte budget. */
  method MarkerOnly(maxBytes: nat) returns (text: string)
    requires maxBytes >= 1
    ensures text <= Marker() && |text| == if maxBytes < 19 then maxBytes else 19
    ensures forall lines: int :: lines >= 1 ==> Fits(text, maxBytes, lines)
  {
    MarkerFacts();
    hide Marker, IsUtf8, Decoding;
    var clipped := Utf8Prefix(EncodeText(Marker()), maxBytes);
    text := Decoding(clipped);
    AsciiPrefix(Marker(), clipped, maxBytes, text);
    OneLineBreaks(text);
    LinesBound(text);
  }

  lemma {:induction false} AsciiCut(all: string, k: nat)
    requires Ascii(all) && k <= |all|
    ensures |EncodeText(all)| == |all| && EncodeText(all)[..k] == EncodeText(all[..k])
  {
    AsciiBytes(all);
    AsciiBytes(all[..k]);
    assert all == all[..k] + all[k..];
    EncodeConcat(all[..k], all[k..]);
  }

  /** Between ASCII characters every cut is a cut between characters. */
  lemma AsciiPrefix(all: string, clipped: seq<Byte>, limit: nat, text: string)
    requires Ascii(all) && OneLine(all)
    requires LongestPrefix(EncodeText(all), limit, clipped) && text == Decoding(clipped)
    ensures text <= all && OneLine(text) && |EncodeText(text)| == |text|
    ensures |text| == if limit < |all| then limit else |all|
  {
    var k := if limit < |all| then limit else |all|;
    AsciiCut(all, k);
    EncodedIsUtf8(all[..k]);
    AsciiBytes(all[..k]);
    NoLongerPrefix(EncodeText(all), limit, clipped, EncodeText(all[..k]));
    assert |clipped| == k;
    assert clipped == EncodeText(all)[..k];
    DecodeEncode(all[..k]);
  }

  /** The head of a text within a budget. */
  method Head(first: string, budget: nat) returns (head: string)
    ensures head <= first && |EncodeText(head)| <= budget && (head == first || budget - |EncodeText(head)| <= 3)
  {
    hide EncodeText, IsUtf8, Decode;
    var clipped := Utf8Prefix(EncodeText(first), budget);
    ghost var front := PrefixLoss(first, clipped, budget);
    DecodeEncode(front);
    head := Decoding(clipped);
  }

  method Tail(last: string, budget: nat) returns (tail: string)
    ensures |tail| <= |last| && tail == last[|last| - |tail|..] && |EncodeText(tail)| <= budget
    ensures tail == last || budget - |EncodeText(tail)| <= 3
  {
    hide EncodeText, IsUtf8;
    var clipped := Utf8Suffix(EncodeText(last), budget);
    ghost var back := SuffixLoss(last, clipped, budget);
    DecodeEncode(back);
    tail := Decoding(clipped);
  }

  lemma KeepsBoth(output: string, maxBytes: nat, maxLines: nat, h: nat, t: nat, head: string, tail: string)
    requires output != [] && maxLines >= 2 && maxBytes > 21 && Shares(|SplitLines(output)|, maxLines) == (h, t)
    requires var first, budget := Join(SplitLines(output)[..h]), (maxBytes - 21) / 2;
             head <= first && |EncodeText(head)| <= budget && (head == first || budget - |EncodeText(head)| <= 3)
    requires var last, budget := Join(SplitLines(output)[|SplitLines(output)| - t..]), maxBytes - 21 - (maxBytes - 21) / 2;
             && |tail| <= |last| && tail == last[|last| - |tail|..] && |EncodeText(tail)| <= budget
             && (tail == last || budget - |EncodeText(tail)| <= 3)
    ensures KeepsEnds(output, head + Separator(maxLines) + tail, maxBytes, maxLines, head, tail)
  {
    hide SplitLines, Join, Separator, EncodeText, Shares, OneLine;
  }

  method Ends(output: string, maxBytes: nat, maxLines: nat) returns (text: string, ghost head: string, ghost tail: string)
    requires output != [] && maxLines >= 2 && maxBytes > 21
    ensures KeepsEnds(output, text, maxBytes, maxLines, head, tail)
  {
    hide *;
    var lines := SplitLines(output);
    var (h, t) := Shares(|lines|, maxLines);
    var available := maxBytes - 21;
    var prefix := Head(Join(lines[..h]), available / 2);
    var suffix := Tail(Join(lines[|lines| - t..]), available - available / 2);
    KeepsBoth(output, maxBytes, maxLines, h, t, prefix, suffix);
    head, tail, text := prefix, suffix, prefix + Separator(maxLines) + suffix;
  }

  /** What is shown of an output: all of it if it fits, else the marker or both ends around it, within both budgets. */
  ghost predicate Shows(output: string, b: Bounded, maxBytes: int, maxLines: int) {
    && Fits(b.text, maxBytes, maxLines) && b.truncated == !Fits(output, maxBytes, maxLines)
    && (!b.truncated ==> b.text == output)
    && (b.truncated && (maxLines == 1 || maxBytes <= 21) ==> b.text <= Marker())
    && (b.truncated && maxLines > 1 && maxBytes > 21 ==>
          output != [] && exists head, tail :: KeepsEnds(output, b.text, maxBytes, maxLines, head, tail))
  }

  /**
   `truncate_output`. What fits is returned as it is; what does not is cut so that it fits, and keeps both ends
   unless the budget has no room beside the marker. `None` is the `ValueError` for a budget below one.
   */
  method TruncateOutput(output: string, maxBytes: int, maxLines: int) returns (r: Option<Bounded>)
    ensures r.None? <==> maxBytes < 1 || maxLines < 1
    ensures r.Some? ==> Shows(output, r.value, maxBytes, maxLines)
  {
    if maxBytes < 1 || maxLines < 1 { return None; }
    if |EncodeText(output)| <= maxBytes && |SplitLines(output)| <= maxLines { return Some(Bounded(output, false)); }
    if maxLines == 1 || maxBytes <= 19 + 2 {
      var marker := MarkerOnly(maxBytes);
      return Some(Bounded(marker, true));
    }
    assert output != [];
    hide EncodeText, SplitLines, KeepsEnds;
    var text, head, tail := Ends(output, maxBytes, maxLines);
    EndsFit(output, text, maxBytes, maxLines, head, tail);
    r := Some(Bounded(text, true));
  }

  // ----- Both streams of a command -----

  function OutHeader(): string { "[stdout]\n" }

  function ErrHeader(): string { "\n[stderr]\n" }

  lemma HeaderFacts()
    ensures |EncodeText(OutHeader())| + |EncodeText(ErrHeader())| == 19
  {
    assert |OutHeader()| == 9 && |ErrHeader()| == 10 && Ascii(OutHeader()) && Ascii(ErrHeader());
    AsciiBytes(OutHeader());
    AsciiBytes(ErrHeader());
  }

  /** Both streams under their headers, each shown within its half of the budget. */
  ghost predicate Rendered(stdout: string, stderr: string, b: Bounded, maxBytes: int, maxLines: int) {
    exists out: Bounded, err: Bounded ::
      && Shows(stdout, out, (maxBytes - 19) / 2, OutLines(maxLines))
      && Shows(stderr, err, maxBytes - 19 - (maxBytes - 19) / 2, ErrLines(maxLines))
      && b.text == OutHeader() + out.text + ErrHeader() + err.text && b.truncated == (out.truncated || err.truncated)
  }

  /**
   `_render_streams`. Each stream is shown under its header within its half, so both keep within the byte budget, and
   nothing is cut exactly when each fits. `None` is the `ValueError` of a budget that leaves a stream no byte.
   */
  method RenderStreams(stdout: string, stderr: string, maxBytes: int, maxLines: int) returns (r: Option<Bounded>)
    ensures r.None? <==> maxBytes < 21
    ensures r.Some? ==> |EncodeText(r.value.text)| <= maxBytes
    ensures r.Some? ==> (!r.value.truncated <==> Fits(stdout, (maxBytes - 19) / 2, OutLines(maxLines))
                                                 && Fits(stderr, maxBytes - 19 - (maxBytes - 19) / 2, ErrLines(maxLines)))
    ensures r.Some? && !r.value.truncated ==> r.value.text == OutHeader() + stdout + ErrHeader() + stderr
    ensures r.Some? ==> Rendered(stdout, stderr, r.value, maxBytes, maxLines)
  {
    HeaderFacts();
    hide OutHeader, ErrHeader, EncodeText, SplitLines, KeepsEnds, Marker;
    var content := maxBytes - 19;
    var outBytes := content / 2;
    var out := TruncateOutput(stdout, outBytes, OutLines(maxLines));
    if out.None? { return None; }
    var err := TruncateOutput(stderr, content - outBytes, ErrLines(maxLines));
    EncodeConcat(OutHeader() + out.value.text + ErrHeader(), err.value.text);
    EncodeConcat(OutHeader() + out.value.text, ErrHeader());
    EncodeConcat(OutHeader(), out.value.text);
    r := Some(Bounded(OutHeader() + out.value.text + ErrHeader() + err.value.text, out.value.truncated || err.value.truncated));
    assert Rendered(stdout, stderr, r.value, maxBytes, maxLines);
  }

  /** Python's floor division, which `/` is for a positive divisor. */
  function OutLines(maxLines: int): (n: int)
    ensures n >= 1
  {
    if (maxLines - 2) / 2 > 1 then (maxLines - 2) / 2 else 1
  }

  function ErrLines(maxLines: int): (n: int)
    ensures n >= 1 && (maxLines >= 4 ==> OutLines(maxLines) + n == maxLines - 2)
  {
    if maxLines - 2 - OutLines(maxLines) > 1 then maxLines - 2 - OutLines(maxLines) else 1
  }

  // ----- The capture of a pipe -----

  function HeadSize(maxBytes: int): (n: nat)
    ensures n > 0
  {
    (if maxBytes - 21 > 2 then maxBytes - 21 else 2) / 2
  }

  function TailSize(maxBytes: int): (n: nat)
    ensures n > 0 && HeadSize(maxBytes) + n == if maxBytes - 21 > 2 then maxBytes - 21 else 2
  {
    (if maxBytes - 21 > 2 then maxBytes - 21 else 2) - HeadSize(maxBytes)
  }

  function First(s: seq<Byte>, n: nat): seq<Byte> { if n < |s| then s[..n] else s }

  function Last(s: seq<Byte>, n: nat): seq<Byte> { if n < |s| then s[|s| - n..] else s }

  /** `_BoundedCapture`; `stream` is everything appended so far. */
  class BoundedCapture {
    const maxBytes: int
    var buffer: seq<Byte>
    var prefix: seq<Byte>
    var suffix: seq<Byte>
    var truncated: bool
    ghost var stream: seq<Byte>

    /** All the stream as long as it fits, and afterwards its first and its last bytes. */
    ghost predicate Valid()
      reads this
    {
      && truncated == (stream != [] && |stream| > maxBytes)
      && (!truncated ==> buffer == stream)
      && (truncated ==> prefix == First(stream, HeadSize(maxBytes)) && suffix == Last(stream, TailSize(maxBytes)))
    }

    constructor (limit: int)
      ensures Valid() && stream == [] && maxBytes == limit
    {
      maxBytes := limit;
      buffer, prefix, suffix, truncated, stream := [], [], [], false, [];
    }

    method Append(chunk: seq<Byte>)
      requires Valid()
      modifies this
      ensures Valid() && stream == old(stream) + chunk
    {
      stream := stream + chunk;
      if chunk == [] { return; }
      if !truncated && |buffer| + |chunk| <= maxBytes {
        buffer := buffer + chunk;
        return;
      }
      if !truncated {
        var combined := buffer + chunk;
        buffer := [];
        prefix := First(combined, HeadSize(maxBytes));
        suffix := Last(combined, TailSize(maxBytes));
        truncated := true;
        return;
      }
      suffix := Last(suffix + chunk, TailSize(maxBytes));
      LastOfLast(old(stream), chunk, TailSize(maxBytes));
    }

    /** The bytes that `text` decodes. */
    method Bytes() returns (data: seq<Byte>)
      requires Valid()
      ensures data == Captured(maxBytes, stream)
    {
      data := if !truncated then buffer else prefix + EncodeText("\n" + Marker() + "\n") + suffix;
    }
  }

  /** The last bytes need only the last bytes seen before. */
  lemma LastOfLast(s: seq<Byte>, chunk: seq<Byte>, n: nat)
    ensures Last(Last(s, n) + chunk, n) == Last(s + chunk, n)
  {
  }

  /** What a capture shows of a stream. */
  function Captured(maxBytes: int, stream: seq<Byte>): seq<Byte> {
    if stream == [] || |stream| <= maxBytes then stream
    else First(stream, HeadSize(maxBytes)) + EncodeText("\n" + Marker() + "\n") + Last(stream, TailSize(maxBytes))
  }

  /**
   A capture of at least one byte shows no byte of the stream twice, as much of the beginning as of the end, and all of what
   it shows keeps within its limit exactly when the stream does or the limit leaves two bytes beside the marker; then a
   stream over the limit fills it.
   */
  lemma CaptureBound(maxBytes: int, stream: seq<Byte>)
    requires maxBytes >= 1
    ensures |stream| > maxBytes ==> HeadSize(maxBytes) + TailSize(maxBytes) <= |stream|
    ensures |Captured(maxBytes, stream)| <= maxBytes <==> |stream| <= maxBytes || maxBytes >= 23
    ensures |stream| > maxBytes >= 23 ==> |Captured(maxBytes, stream)| == maxBytes
    ensures HeadSize(maxBytes) <= TailSize(maxBytes) <= HeadSize(maxBytes) + 1
  {
    SeparatorFacts(3);
    hide Marker, EncodeText;
    assert Separator(3) == "\n" + Marker() + "\n";
  }

  function Flatten(chunks: seq<seq<Byte>>): seq<Byte> {
    if chunks == [] then [] else Flatten(chunks[..|chunks| - 1]) + chunks[|chunks| - 1]
  }

  /** However a stream is cut into chunks, the capture shows the same of it. */
  method Drain(chunks: seq<seq<Byte>>, maxBytes: int) returns (data: seq<Byte>, truncated: bool)
    ensures data == Captured(maxBytes, Flatten(chunks))
    ensures truncated <==> Flatten(chunks) != [] && |Flatten(chunks)| > maxBytes
  {
    var capture := new BoundedCapture(maxBytes);
    hide Captured;
    for i := 0 to |chunks|
      invariant capture.Valid() && capture.stream == Flatten(chunks[..i]) && capture.maxBytes == maxBytes
    {
      capture.Append(chunks[i]);
      assert chunks[..i + 1][..i] == chunks[..i];
    }
    assert chunks[..|chunks|] == chunks;
    data := capture.Bytes();
    truncated := capture.truncated;
  }

  /** The limits that `ShellRunner` takes. */
  predicate RunnerTakes(maxBytes: int, maxLines: int) { maxBytes >= 64 && maxLines >= 4 }

  /**
   The output of a command, from the runner's limits to the rendered text; `decode` is lenient decoding. `None` is the
   `ValueError` of the runner. Every window that can be opened keeps within its limit, and so does the text.
   */
  method ShellOutput(out: seq<seq<Byte>>, err: seq<seq<Byte>>, decode: seq<Byte> -> string, maxBytes: int, maxLines: int)
    returns (r: Option<Bounded>, outWindow: seq<Byte>, errWindow: seq<Byte>)
    ensures r.None? <==> !RunnerTakes(maxBytes, maxLines)
    ensures r.Some? ==> |outWindow| <= maxBytes && |errWindow| <= maxBytes && |EncodeText(r.value.text)| <= maxBytes
    ensures r.Some? ==> outWindow == Captured(maxBytes, Flatten(out)) && errWindow == Captured(maxBytes, Flatten(err))
    ensures r.Some? && !r.value.truncated ==>
              outWindow == Flatten(out) && errWindow == Flatten(err)
              && r.value.text == OutHeader() + decode(outWindow) + ErrHeader() + decode(errWindow)
    ensures r.Some? ==> exists shown: Bounded ::
              && Rendered(decode(outWindow), decode(errWindow), shown, maxBytes, maxLines) && r.value.text == shown.text
              && (r.value.truncated <==> shown.truncated || |Flatten(out)| > maxBytes || |Flatten(err)| > maxBytes)
  {
    hide *;
    outWindow, errWindow := [], [];
    if maxBytes < 64 || maxLines < 4 {
      RunnerRefuses(maxBytes, maxLines);
      return None, [], [];
    }
    RunnerRefuses(maxBytes, maxLines);
    var outCut, errCut;
    outWindow, outCut := Drain(out, maxBytes);
    errWindow, errCut := Drain(err, maxBytes);
    CaptureBound(maxBytes, Flatten(out));
    CaptureBound(maxBytes, Flatten(err));
    ShownWhole(maxBytes, Flatten(out));
    ShownWhole(maxBytes, Flatten(err));
    var shown := RenderStreams(decode(outWindow), decode(errWindow), maxBytes, maxLines);
    r := Some(Bounded(shown.value.text, outCut || errCut || shown.value.truncated));
  }

  lemma RunnerRefuses(maxBytes: int, maxLines: int)
    ensures RunnerTakes(maxBytes, maxLines) <==> !(maxBytes < 64 || maxLines < 4)
  {
  }

  lemma ShownWhole(maxBytes: int, stream: seq<Byte>)
    ensures stream == [] || |stream| <= maxBytes ==> Captured(maxBytes, stream) == stream
  {
  }
}
