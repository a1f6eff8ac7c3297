/** What the parser makes of any stream of the format it reads: fields in any order and number, with or
    without a space after the colon, lines it ignores, and either kind of line end anywhere. */
module SseGrammar {
  import opened SseParser
  import opened SseStream

  datatype Eol = Lf | CrLf {
    function Mark(): string { if Lf? then "\n" else "\r\n" }
  }

  /** A field of any name, or a line that is none: without a colon, or with one in front. */
  datatype Line = Field(key: string, value: string, spaced: bool, eol: Eol) | Other(text: string, eol: Eol) {
    function Text(): string {
      if Field? then key + ":" + (if spaced then " " else "") + value else text
    }

    predicate Ok() {
      && IsLine(Text())
      && (Field? ==> key != [] && ':' !in key && (spaced || value == [] || value[0] != ' '))
      && (Other? ==> ':' !in text || text[0] == ':')
    }
  }

  /** Not empty, no line feed inside, and no carriage return that the line end would take. */
  predicate IsLine(s: string) {
    s != [] && '\n' !in s && s[|s| - 1] != '\r'
  }

  /** Lines, and the end of the empty line after them. */
  datatype Block = Block(lines: seq<Line>, gap: Eol)

  ghost predicate BlockOk(b: Block) {
    b.lines != [] && forall l :: l in b.lines ==> l.Ok()
  }

  /** The lines without the end of the last. */
  function Body(lines: seq<Line>): string {
    if lines == [] then []
    else if |lines| == 1 then lines[0].Text()
    else lines[0].Text() + lines[0].eol.Mark() + Body(lines[1..])
  }

  function PrintBlock(b: Block): string {
    if b.lines == [] then b.gap.Mark() else Body(b.lines) + b.lines[|b.lines| - 1].eol.Mark() + b.gap.Mark()
  }

  function PrintBlocks(blocks: seq<Block>): string {
    if blocks == [] then [] else PrintBlock(blocks[0]) + PrintBlocks(blocks[1..])
  }

  // ---------- what a block says ----------

  /** The last id, or 0. */
  function IdOf<J>(rt: Runtime<J>, lines: seq<Line>): int {
    if lines == [] then 0
    else
      var l := lines[|lines| - 1];
      if l.Field? && l.key == "id" then rt.number(l.value) else IdOf(rt, lines[..|lines| - 1])
  }

  /** The last event name, or "message". */
  function KindOf(lines: seq<Line>): string {
    if lines == [] then "message"
    else
      var l := lines[|lines| - 1];
      if l.Field? && l.key == "event" then l.value else KindOf(lines[..|lines| - 1])
  }

  /** All the data, in order. */
  function DataOf(lines: seq<Line>): seq<string> {
    if lines == [] then []
    else
      var l := lines[|lines| - 1];
      DataOf(lines[..|lines| - 1]) + if l.Field? && l.key == "data" then [l.value] else []
  }

  function Joined(data: seq<string>): string {
    if data == [] then []
    else if |data| == 1 then data[0]
    else Joined(data[..|data| - 1]) + "\n" + data[|data| - 1]
  }

  /** Without data no event; data that is no JSON throws. */
  function Meaning<J>(rt: Runtime<J>, b: Block): BlockResult<J> {
    if DataOf(b.lines) == [] then Nothing
    else
      match rt.json(Joined(DataOf(b.lines)))
      case None => Throws
      case Some(j) => BlockResult.Event(ServerEvent(IdOf(rt, b.lines), KindOf(b.lines), j))
  }

  /** The events of the blocks before the first that throws. */
  function EventsUntil<J>(rt: Runtime<J>, blocks: seq<Block>): seq<ServerEvent<J>> {
    if blocks == [] then []
    else
      match Meaning(rt, blocks[0])
      case Throws => []
      case Nothing => EventsUntil(rt, blocks[1..])
      case Event(e) => [e] + EventsUntil(rt, blocks[1..])
  }

  // ---------- the first separator is the end of the block ----------

  /** Every line end inside is followed by an ordinary character, and neither end of the text is part of one. */
  ghost predicate Firm(s: string) {
    && s != [] && EolAt(s, 0) == 0 && s[|s| - 1] != '\r' && s[|s| - 1] != '\n'
    && forall j: nat :: j < |s| && EolAt(s, j) > 0 ==> EolAt(s, j + EolAt(s, j)) == 0
  }

  lemma LineIsFirm(s: string)
    requires IsLine(s)
    ensures Firm(s) && forall j: nat :: j <= |s| ==> EolAt(s, j) == 0
  {
    forall j: nat | j <= |s| ensures EolAt(s, j) == 0 {
      assert j < |s| ==> s[j] in s;
      assert j + 1 < |s| ==> s[j + 1] in s;
    }
    assert s[|s| - 1] in s;
  }

  lemma EolLater(first: string, rest: string, j: nat)
    ensures EolAt(first + rest, |first| + j) == EolAt(rest, j)
  {
  }

  lemma FirmConcat(first: string, eol: Eol, rest: string)
    requires IsLine(first) && Firm(rest)
    ensures Firm(first + eol.Mark() + rest)
  {
    hide EolAt;
    LineIsFirm(first);
    var mark := eol.Mark();
    var s := first + mark + rest;
    assert s == first + (mark + rest);
    forall j: nat | j < |s|
      ensures EolAt(s, j) > 0 ==> EolAt(s, j + EolAt(s, j)) == 0
    {
      if j < |first| {
        NoEolInLine(first, mark + rest, j);
      } else if j < |first| + |mark| {
        MarkEnds(first, eol, rest, j - |first|);
        EolLater(first + mark, rest, 0);
      } else {
        EolLater(first + mark, rest, j - |first| - |mark|);
        var k: nat := j - |first| - |mark|;
        EolLater(first + mark, rest, k + EolAt(rest, k));
      }
    }
    NoEolInLine(first, mark + rest, 0);
  }

  lemma NoEolInLine(first: string, rest: string, j: nat)
    requires IsLine(first) && j < |first|
    ensures EolAt(first + rest, j) == 0
  {
    assert first[j] in first;
    assert j + 1 < |first| ==> first[j + 1] in first;
  }

  lemma MarkEnds(first: string, eol: Eol, rest: string, j: nat)
    requires j < |eol.Mark()|
    ensures var s := first + eol.Mark() + rest; EolAt(s, |first| + j) + j == |eol.Mark()|
  {
  }

  lemma {:induction false} BodyIsFirm(lines: seq<Line>)
    requires lines != [] && forall l :: l in lines ==> l.Ok()
    ensures Firm(Body(lines))
  {
    assert lines[0] in lines;
    if |lines| == 1 {
      LineIsFirm(lines[0].Text());
    } else {
      BodyIsFirm(lines[1..]);
      FirmConcat(lines[0].Text(), lines[0].eol, Body(lines[1..]));
    }
  }

  lemma EolStays(s: string, more: string, j: nat)
    requires s != [] && s[|s| - 1] != '\r' && j < |s|
    ensures EolAt(s + more, j) == EolAt(s, j)
  {
  }

  lemma FirmEndsAtSeparator(s: string, last: Eol, gap: Eol, rest: string)
    requires Firm(s)
    ensures FirstSeparator(s + last.Mark() + gap.Mark() + rest, 0) == Some((|s|, |last.Mark()| + |gap.Mark()|))
  {
    hide EolAt, FirstSeparator;
    var tail := last.Mark() + gap.Mark() + rest;
    var t := s + tail;
    assert t == s + last.Mark() + gap.Mark() + rest;
    forall j | 0 <= j < |s| ensures SeparatorAt(t, j) == 0 {
      EolStays(s, tail, j);
      if EolAt(s, j) > 0 {
        EolInside(s, j);
        EolStays(s, tail, j + EolAt(s, j));
      }
    }
    MarkEnds(s, last, gap.Mark() + rest, 0);
    assert s + last.Mark() + (gap.Mark() + rest) == t;
    MarkEnds(s + last.Mark(), gap, rest, 0);
    FirstSeparatorIs(t, 0, |s|);
  }

  lemma EolInside(s: string, j: nat)
    requires s != [] && s[|s| - 1] != '\n' && EolAt(s, j) > 0
    ensures j + EolAt(s, j) < |s|
  {
  }

  // ---------- the lines and fields of a block ----------

  function Texts(lines: seq<Line>): (texts: seq<string>)
    ensures |texts| == |lines| && forall i :: 0 <= i < |lines| ==> texts[i] == lines[i].Text()
  {
    seq(|lines|, i requires 0 <= i < |lines| => lines[i].Text())
  }

  lemma LinesCutAt(first: string, eol: Eol, rest: string)
    requires IsLine(first)
    ensures Lines(first + eol.Mark() + rest) == [first] + Lines(rest)
  {
    var head := if eol.Lf? then first else first + "\r";
    var s := first + eol.Mark() + rest;
    assert s == head + ['\n'] + rest;
    IndexOfFirst(head, '\n', rest);
    assert s[|head| + 1..] == rest;
    if eol.Lf? { assert s[..|head|] == first && s[|head| - 1] == first[|first| - 1]; } else { assert s[..|head| - 1] == first; }
  }

  lemma NoLineFeed(s: string)
    requires '\n' !in s
    ensures Lines(s) == [s]
  {
  }

  lemma {:induction false} LinesOfBody(lines: seq<Line>)
    requires lines != [] && forall l :: l in lines ==> l.Ok()
    ensures Lines(Body(lines)) == Texts(lines)
  {
    hide Lines;
    assert lines[0] in lines;
    if |lines| == 1 {
      NoLineFeed(lines[0].Text());
    } else {
      LinesCutAt(lines[0].Text(), lines[0].eol, Body(lines[1..]));
      LinesOfBody(lines[1..]);
      assert Texts(lines) == [lines[0].Text()] + Texts(lines[1..]);
    }
  }

  /** A field line is cut at its first colon, with one space after it dropped. */
  lemma KeyApplies<J>(rt: Runtime<J>, f: Fields, key: string, raw: string)
    requires key != [] && ':' !in key
    ensures var value := if raw != [] && raw[0] == ' ' then raw[1..] else raw;
      ApplyLine(rt, f, key + [':'] + raw) ==
        if key == "id" then f.(id := rt.number(value))
        else if key == "event" then f.(kind := value)
        else if key == "data" then f.(data := f.data + [value])
        else f
  {
    hide IndexOf;
    var text := key + [':'] + raw;
    IndexOfFirst(key, ':', raw);
    assert text[..|key|] == key && text[|key| + 1..] == raw;
  }

  lemma FieldApplies<J>(rt: Runtime<J>, f: Fields, l: Line)
    requires l.Ok() && l.Field?
    ensures ApplyLine(rt, f, l.Text()) ==
      if l.key == "id" then f.(id := rt.number(l.value))
      else if l.key == "event" then f.(kind := l.value)
      else if l.key == "data" then f.(data := f.data + [l.value])
      else f
  {
    hide ApplyLine, IsLine;
    var raw := (if l.spaced then " " else "") + l.value;
    assert l.Text() == l.key + [':'] + raw;
    KeyApplies(rt, f, l.key, raw);
    assert (if raw != [] && raw[0] == ' ' then raw[1..] else raw) == l.value;
  }

  lemma OtherApplies<J>(rt: Runtime<J>, f: Fields, l: Line)
    requires l.Ok() && l.Other?
    ensures ApplyLine(rt, f, l.Text()) == f
  {
  }

  lemma LineApplies<J>(rt: Runtime<J>, f: Fields, l: Line)
    requires l.Ok()
    ensures ApplyLine(rt, f, l.Text()) == Fields(
      if l.Field? && l.key == "id" then rt.number(l.value) else f.id,
      if l.Field? && l.key == "event" then l.value else f.kind,
      f.data + if l.Field? && l.key == "data" then [l.value] else [])
  {
    hide ApplyLine;
    assert f.data + [] == f.data;
    if l.Field? { FieldApplies(rt, f, l); } else { OtherApplies(rt, f, l); }
  }

  lemma {:induction false} LinesApply<J>(rt: Runtime<J>, lines: seq<Line>)
    requires forall l :: l in lines ==> l.Ok()
    ensures ApplyLines(rt, NO_FIELDS, Texts(lines)) == Fields(IdOf(rt, lines), KindOf(lines), DataOf(lines))
  {
    hide ApplyLine;
    if lines != [] {
      var init, l := lines[..|lines| - 1], lines[|lines| - 1];
      LinesApply(rt, init);
      assert Texts(lines)[..|lines| - 1] == Texts(init);
      LineApplies(rt, Fields(IdOf(rt, init), KindOf(init), DataOf(init)), l);
    }
  }

  lemma {:induction false} JoinedFirst(first: string, data: seq<string>)
    requires data != []
    ensures Joined([first] + data) == first + "\n" + Joined(data)
  {
    var all := [first] + data;
    assert all[..|all| - 1] == [first] + data[..|data| - 1];
    if |data| > 1 {
      JoinedFirst(first, data[..|data| - 1]);
    } else {
      assert all[..1] == [first];
    }
  }

  lemma {:induction false} JoinsAgree(data: seq<string>)
    ensures JoinLines(data) == Joined(data)
  {
    if |data| > 1 {
      JoinsAgree(data[1..]);
      JoinedFirst(data[0], data[1..]);
      assert data == [data[0]] + data[1..];
    }
  }

  lemma BlockParses<J>(rt: Runtime<J>, b: Block)
    requires BlockOk(b)
    ensures ParseBlock(rt, Body(b.lines)) == Meaning(rt, b)
  {
    hide Lines, ApplyLines, JoinLines, Body;
    LinesOfBody(b.lines);
    LinesApply(rt, b.lines);
    JoinsAgree(DataOf(b.lines));
  }

  // ---------- whole streams ----------

  /** A block in front is cut off whole and parsed. */
  lemma BlockDrains<J>(rt: Runtime<J>, b: Block, rest: string)
    requires BlockOk(b)
    ensures Drain(rt, PrintBlock(b) + rest) ==
      if Meaning(rt, b).Throws? then Drained([], rest, true) else Prepend(EventsOfBlock(Meaning(rt, b)), Drain(rt, rest))
  {
    hide FirstSeparator, ParseBlock, Body, Meaning, Drain, Firm;
    var body, last := Body(b.lines), b.lines[|b.lines| - 1].eol;
    var s := PrintBlock(b) + rest;
    BodyIsFirm(b.lines);
    FirmEndsAtSeparator(body, last, b.gap, rest);
    assert s == body + last.Mark() + b.gap.Mark() + rest;
    assert s[..|body|] == body && s[|body| + |last.Mark()| + |b.gap.Mark()|..] == rest;
    DrainCut(rt, s);
    BlockParses(rt, b);
  }

  /** The events of a stream are those its blocks say, up to the first whose data is no JSON; it throws if
      and only if there is one, and otherwise nothing is left over. */
  lemma {:induction false} StreamReads<J>(rt: Runtime<J>, blocks: seq<Block>)
    requires forall b :: b in blocks ==> BlockOk(b)
    ensures var d := Drain(rt, PrintBlocks(blocks));
      && d.events == EventsUntil(rt, blocks)
      && (d.threw <==> exists i :: 0 <= i < |blocks| && Meaning(rt, blocks[i]).Throws?)
      && (!d.threw ==> d.rest == [])
  {
    hide FirstSeparator, Meaning, Drain, PrintBlock;
    if blocks == [] {
      NothingToSeparate();
      DrainCut(rt, []);
    } else {
      assert blocks[0] in blocks;
      BlockDrains(rt, blocks[0], PrintBlocks(blocks[1..]));
      StreamReads(rt, blocks[1..]);
      assert forall i :: 0 < i < |blocks| ==> blocks[i] == blocks[1..][i - 1];
      assert forall i :: 0 <= i < |blocks| - 1 ==> blocks[1..][i] == blocks[i + 1];
    }
  }

  lemma NothingToSeparate()
    ensures FirstSeparator([], 0) == None
  {
  }

  /** And so for the stream in any pieces of at most two million characters together. */
  lemma PiecesRead<J>(rt: Runtime<J>, blocks: seq<Block>, pieces: seq<string>)
    requires forall b :: b in blocks ==> BlockOk(b)
    requires Concat(pieces) == PrintBlocks(blocks) && |Concat(pieces)| <= 2_000_000
    ensures FeedAll(rt, pieces).received == EventsUntil(rt, blocks)
    ensures FeedAll(rt, pieces).last == JsonError <==> exists i :: 0 <= i < |blocks| && Meaning(rt, blocks[i]).Throws?
    ensures FeedAll(rt, pieces).last == Fed <==> forall i :: 0 <= i < |blocks| ==> !Meaning(rt, blocks[i]).Throws?
  {
    hide Drain, FeedAll, Meaning;
    ChunkIndependence(rt, pieces);
    StreamReads(rt, blocks);
  }
}
