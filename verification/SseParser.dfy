/** The workbench's incremental event-stream parser: text arrives in arbitrary pieces, events come
    out. It follows a subset of the HTML Living Standard, sections 9.2.5 and 9.2.6; unlike there,
    a lone CR does not end a line. */
module SseParser {

  datatype Option<+T> = None | Some(value: T)

  datatype ServerEvent<J> = ServerEvent(id: int, kind: string, data: J)

  /** JavaScript's Number and JSON.parse, as far as they matter here: total functions of the text,
      None when JSON.parse throws. */
  datatype Runtime<J> = Runtime(number: string -> int, json: string -> Option<J>)

  /** What draining a buffer yields: events in order, what is left, and whether a block threw. */
  datatype Drained<J> = Drained(events: seq<ServerEvent<J>>, rest: string, threw: bool)

  const CAP: nat := 2_000_000

  // ---------- the separator \r?\n\r?\n ----------

  /** Length of an end of line at i: 1, 2, or 0 for none. */
  function EolAt(s: string, i: nat): nat {
    if i < |s| && s[i] == '\n' then 1
    else if i + 1 < |s| && s[i] == '\r' && s[i + 1] == '\n' then 2
    else 0
  }

  /** Length of the separator at i, 0 for none. */
  function SeparatorAt(s: string, i: nat): nat {
    var first := EolAt(s, i);
    if first == 0 then 0
    else
      var second := EolAt(s, i + first);
      if second == 0 then 0 else first + second
  }

  /** The leftmost separator at or after i: where it starts and how long it is. */
  function FirstSeparator(s: string, i: nat): (r: Option<(nat, nat)>)
    ensures r.Some? ==> i <= r.value.0 && r.value.1 > 0 && r.value.0 + r.value.1 <= |s|
    decreases |s| - i
  {
    if i >= |s| then None
    else if SeparatorAt(s, i) > 0 then Some((i, SeparatorAt(s, i)))
    else FirstSeparator(s, i + 1)
  }

  lemma {:induction false} FirstSeparatorIs(s: string, i: nat, at: nat)
    requires i <= at < |s| && SeparatorAt(s, at) > 0
    requires forall j :: i <= j < at ==> SeparatorAt(s, j) == 0
    ensures FirstSeparator(s, i) == Some((at, SeparatorAt(s, at)))
    decreases at - i
  {
    if i < at { FirstSeparatorIs(s, i + 1, at); }
  }

  lemma {:induction false} NothingBeforeFirst(s: string, i: nat)
    ensures match FirstSeparator(s, i)
            case Some((at, n)) => n == SeparatorAt(s, at) && forall j :: i <= j < at ==> SeparatorAt(s, j) == 0
            case None => forall j :: i <= j ==> SeparatorAt(s, j) == 0
    decreases |s| - i
  {
    if i < |s| { NothingBeforeFirst(s, i + 1); }
  }

  /** A separator already seen is not moved or lengthened by text that comes later. */
  lemma FirstSeparatorIsStable(s: string, more: string)
    requires FirstSeparator(s, 0).Some?
    ensures FirstSeparator(s + more, 0) == FirstSeparator(s, 0)
  {
    var (at, n) := FirstSeparator(s, 0).value;
    NothingBeforeFirst(s, 0);
    var t := s + more;
    assert forall j :: 0 <= j < |s| ==> t[j] == s[j];
    forall j | 0 <= j < at
      ensures SeparatorAt(t, j) == 0
    {
      assert SeparatorAt(s, j) == 0;
      NoEarlierOverlap(s, t, j, at);
    }
    assert SeparatorAt(t, at) == n;
    FirstSeparatorIs(t, 0, at);
  }

  /** A separator that only appears with later text cannot start before one that is complete. */
  lemma NoEarlierOverlap(s: string, t: string, j: nat, at: nat)
    requires |s| <= |t| && forall k :: 0 <= k < |s| ==> t[k] == s[k]
    requires j < at && SeparatorAt(s, at) > 0 && SeparatorAt(s, j) == 0
    ensures SeparatorAt(t, j) == 0
  {
    assert at + 1 < |s|;
    assert EolAt(t, j) == EolAt(s, j);
  }

  // ---------- one block ----------

  function IndexOf(s: string, c: char): (i: int)
    ensures -1 <= i < |s|
    ensures i >= 0 ==> s[i] == c && c !in s[..i]
    ensures i == -1 ==> c !in s
  {
    if s == [] then -1
    else if s[0] == c then 0
    else
      var i := IndexOf(s[1..], c);
      assert s == [s[0]] + s[1..];
      if i < 0 then -1
      else
        assert s[..i + 1] == [s[0]] + s[1..][..i];
        i + 1
  }

  /** block.split(/\r?\n/) */
  function Lines(block: string): (lines: seq<string>)
    ensures lines != []
  {
    var i := IndexOf(block, '\n');
    if i < 0 then [block]
    else
      var end := if i > 0 && block[i - 1] == '\r' then i - 1 else i;
      [block[..end]] + Lines(block[i + 1..])
  }

  datatype Fields = Fields(id: int, kind: string, data: seq<string>)

  function ApplyLine<J>(rt: Runtime<J>, f: Fields, line: string): Fields {
    var colon := IndexOf(line, ':');
    if colon < 1 then f
    else
      var key, raw := line[..colon], line[colon + 1..];
      var value := if raw != [] && raw[0] == ' ' then raw[1..] else raw;
      if key == "id" then f.(id := rt.number(value))
      else if key == "event" then f.(kind := value)
      else if key == "data" then f.(data := f.data + [value])
      else f
  }

  function ApplyLines<J>(rt: Runtime<J>, f: Fields, lines: seq<string>): Fields {
    if lines == [] then f else ApplyLine(rt, ApplyLines(rt, f, lines[..|lines| - 1]), lines[|lines| - 1])
  }

  function JoinLines(lines: seq<string>): string {
    if lines == [] then [] else if |lines| == 1 then lines[0] else lines[0] + "\n" + JoinLines(lines[1..])
  }

  datatype BlockResult<J> = Nothing | Event(e: ServerEvent<J>) | Throws

  function FieldsResult<J>(rt: Runtime<J>, f: Fields): BlockResult<J> {
    if f.data == [] then Nothing
    else
      match rt.json(JoinLines(f.data))
      case None => Throws
      case Some(j) => Event(ServerEvent(f.id, f.kind, j))
  }

  const NO_FIELDS := Fields(0, "message", [])

  function ParseBlock<J>(rt: Runtime<J>, block: string): BlockResult<J> {
    FieldsResult(rt, ApplyLines(rt, NO_FIELDS, Lines(block)))
  }

  // ---------- draining the buffer ----------

  function Drain<J>(rt: Runtime<J>, buffer: string): Drained<J>
    decreases |buffer|
  {
    match FirstSeparator(buffer, 0)
    case None => Drained([], buffer, false)
    case Some((at, n)) =>
      var rest := buffer[at + n..];
      match ParseBlock(rt, buffer[..at])
      case Throws => Drained([], rest, true)
      case Nothing => Drain(rt, rest)
      case Event(e) => var d := Drain(rt, rest); d.(events := [e] + d.events)
  }

  function Prepend<J>(events: seq<ServerEvent<J>>, d: Drained<J>): Drained<J> {
    d.(events := events + d.events)
  }

  lemma PrependTwice<J>(first: seq<ServerEvent<J>>, second: seq<ServerEvent<J>>, d: Drained<J>)
    ensures Prepend(first, Prepend(second, d)) == Prepend(first + second, d)
  {
  }

  function EventsOfBlock<J>(b: BlockResult<J>): seq<ServerEvent<J>> {
    if b.Event? then [b.e] else []
  }

  /** Cutting off the first block. */
  lemma DrainCut<J>(rt: Runtime<J>, buffer: string)
    ensures match FirstSeparator(buffer, 0)
            case None => Drain(rt, buffer) == Drained([], buffer, false)
            case Some((at, n)) =>
              var b, rest := ParseBlock(rt, buffer[..at]), buffer[at + n..];
              Drain(rt, buffer) == if b.Throws? then Drained([], rest, true) else Prepend(EventsOfBlock(b), Drain(rt, rest))
  {
    hide FirstSeparator, ParseBlock;
  }

  /** d, and then whatever the text left by it plus `more` yields. */
  function Then<J>(rt: Runtime<J>, d: Drained<J>, more: string): Drained<J> {
    if d.threw then d.(rest := d.rest + more)
    else var next := Drain(rt, d.rest + more); next.(events := d.events + next.events)
  }

  /** Draining a text is draining a prefix of it and then the rest. */
  lemma {:induction false} DrainAppend<J>(rt: Runtime<J>, s: string, more: string)
    ensures Drain(rt, s + more) == Then(rt, Drain(rt, s), more)
    decreases |s|
  {
    hide FirstSeparator, ParseBlock, Drain;
    DrainCut(rt, s);
    if FirstSeparator(s, 0).Some? {
      var (at, n) := FirstSeparator(s, 0).value;
      FirstSeparatorIsStable(s, more);
      DrainCut(rt, s + more);
      CutAppend(s, more, at, n);
      DrainAppend(rt, s[at + n..], more);
    } else {
      var next := Drain(rt, s + more);
      assert [] + next.events == next.events;
    }
  }

  lemma CutAppend(s: string, more: string, at: nat, n: nat)
    requires at + n <= |s|
    ensures (s + more)[..at] == s[..at] && (s + more)[at + n..] == s[at + n..] + more
  {
  }

  lemma {:induction false} RestIsShorter<J>(rt: Runtime<J>, s: string)
    ensures |Drain(rt, s).rest| <= |s|
    decreases |s|
  {
    hide FirstSeparator, ParseBlock, Drain;
    DrainCut(rt, s);
    if FirstSeparator(s, 0).Some? {
      var (at, n) := FirstSeparator(s, 0).value;
      RestIsShorter(rt, s[at + n..]);
    }
  }

  // ---------- feeding pieces ----------

  datatype FeedResult = Fed | TooLarge | JsonError

  /** Feeding pieces one after another until one throws. */
  datatype Session<J> = Session(buffer: string, received: seq<ServerEvent<J>>, last: FeedResult)

  function FeedOne<J>(rt: Runtime<J>, s: Session<J>, text: string): Session<J> {
    if !s.last.Fed? then s
    else if |s.buffer + text| > CAP then s.(buffer := s.buffer + text, last := TooLarge)
    else
      var d := Drain(rt, s.buffer + text);
      Session(d.rest, s.received + d.events, if d.threw then JsonError else Fed)
  }

  function FeedAll<J>(rt: Runtime<J>, pieces: seq<string>): Session<J> {
    if pieces == [] then Session([], [], Fed)
    else FeedOne(rt, FeedAll(rt, pieces[..|pieces| - 1]), pieces[|pieces| - 1])
  }

  function Concat(pieces: seq<string>): string {
    if pieces == [] then [] else Concat(pieces[..|pieces| - 1]) + pieces[|pieces| - 1]
  }

  /** Unless a piece is refused as too large, feeding pieces gives the events of parsing the whole
      text at once, and throws if and only if that throws. */
  lemma {:induction false} PiecesMeanTheWhole<J>(rt: Runtime<J>, pieces: seq<string>)
    requires FeedAll(rt, pieces).last != TooLarge
    ensures var s, whole := FeedAll(rt, pieces), Drain(rt, Concat(pieces));
      && s.received == whole.events
      && s.last == (if whole.threw then JsonError else Fed)
      && (!whole.threw ==> s.buffer == whole.rest)
  {
    if pieces != [] {
      var init, text := pieces[..|pieces| - 1], pieces[|pieces| - 1];
      PiecesMeanTheWhole(rt, init);
      DrainAppend(rt, Concat(init), text);
    }
  }

  /** What piece k finds in front of it does not fit together with it. */
  ghost predicate Overflows<J>(rt: Runtime<J>, pieces: seq<string>, k: nat) {
    && k < |pieces|
    && var before := Drain(rt, Concat(pieces[..k]));
      !before.threw && |before.rest| + |pieces[k]| > 2_000_000
  }

  /** A splitting is refused exactly when some piece, with what the earlier ones left unparsed,
      is over the cap. */
  lemma {:induction false} TooLargeIff<J>(rt: Runtime<J>, pieces: seq<string>)
    ensures FeedAll(rt, pieces).last == TooLarge <==> exists k: nat :: Overflows(rt, pieces, k)
  {
    hide Drain, Overflows;
    if pieces == [] {
      forall k: nat ensures !Overflows(rt, pieces, k) { NoSuchPiece(rt, pieces, k); }
    } else {
      var n := |pieces| - 1;
      var init := pieces[..n];
      TooLargeIff(rt, init);
      forall k: nat | k != n ensures Overflows(rt, init, k) <==> Overflows(rt, pieces, k) { SameOverflow(rt, pieces, k); }
      NoSuchPiece(rt, init, n);
      if FeedAll(rt, init).last != TooLarge {
        LastOverflows(rt, pieces);
      } else {
        var k: nat :| Overflows(rt, init, k);
        assert Overflows(rt, pieces, k);
      }
    }
  }

  lemma NoSuchPiece<J>(rt: Runtime<J>, pieces: seq<string>, k: nat)
    requires k >= |pieces|
    ensures !Overflows(rt, pieces, k)
  {
  }

  lemma SameOverflow<J>(rt: Runtime<J>, pieces: seq<string>, k: nat)
    requires pieces != [] && k != |pieces| - 1
    ensures Overflows(rt, pieces[..|pieces| - 1], k) <==> Overflows(rt, pieces, k)
  {
    hide Drain;
    if k < |pieces| - 1 { assert pieces[..|pieces| - 1][..k] == pieces[..k]; }
  }

  lemma LastOverflows<J>(rt: Runtime<J>, pieces: seq<string>)
    requires pieces != [] && FeedAll(rt, pieces[..|pieces| - 1]).last != TooLarge
    ensures FeedAll(rt, pieces).last == TooLarge <==> Overflows(rt, pieces, |pieces| - 1)
  {
    hide Drain;
    PiecesMeanTheWhole(rt, pieces[..|pieces| - 1]);
  }

  lemma {:induction false} PrefixIsShorter(pieces: seq<string>, k: nat)
    requires k < |pieces|
    ensures |Concat(pieces[..k])| + |pieces[k]| <= |Concat(pieces)|
    decreases |pieces|
  {
    var n := |pieces| - 1;
    if k < n {
      PrefixIsShorter(pieces[..n], k);
      assert pieces[..n][..k] == pieces[..k];
    }
  }

  /** Within the cap, every way of splitting a text gives the events of parsing it in one piece,
      and throws if and only if the one piece throws. */
  lemma ChunkIndependence<J>(rt: Runtime<J>, pieces: seq<string>)
    requires |Concat(pieces)| <= 2_000_000
    ensures FeedAll(rt, pieces).received == Drain(rt, Concat(pieces)).events
    ensures FeedAll(rt, pieces).last == if Drain(rt, Concat(pieces)).threw then JsonError else Fed
  {
    TooLargeIff(rt, pieces);
    forall k: nat ensures !Overflows(rt, pieces, k) {
      if k < |pieces| {
        RestIsShorter(rt, Concat(pieces[..k]));
        PrefixIsShorter(pieces, k);
      }
    }
    PiecesMeanTheWhole(rt, pieces);
  }

  /** Two splittings of one text cannot be told apart. */
  lemma SplittingsAgree<J>(rt: Runtime<J>, pieces: seq<string>, others: seq<string>)
    requires Concat(pieces) == Concat(others) && |Concat(pieces)| <= 2_000_000
    ensures FeedAll(rt, pieces).received == FeedAll(rt, others).received
    ensures FeedAll(rt, pieces).last == FeedAll(rt, others).last
  {
    ChunkIndependence(rt, pieces);
    ChunkIndependence(rt, others);
  }

  /** Past the cap splitting matters: a text one character over it is refused in one piece and
      read without complaint when its first blank block arrives alone. */
  lemma PastTheCapSplittingMatters<J>(rt: Runtime<J>) returns (pieces: seq<string>)
    ensures |Concat(pieces)| == 2_000_001
    ensures FeedAll(rt, [Concat(pieces)]).last == TooLarge
    ensures FeedAll(rt, pieces).last == Fed
  {
    hide Drain, FirstSeparator;
    var long := seq(CAP - 1, _ => 'x');
    pieces := ["\n\n", long];
    assert pieces[..1] == ["\n\n"] && pieces[..1][..0] == [];
    assert Concat(["\n\n"]) == "\n\n" && Concat(pieces) == "\n\n" + long;
    assert [Concat(pieces)][..0] == [];
    BlankBlock(rt);
    assert FeedAll(rt, pieces[..1]) == Session([], [], Fed);
    assert [] + long == long;
    NoSeparatorInPlainText(long, 0);
    DrainCut(rt, long);
  }

  lemma {:induction false} NoSeparatorInPlainText(s: string, i: nat)
    requires forall j :: 0 <= j < |s| ==> s[j] == 'x'
    ensures FirstSeparator(s, i) == None
    decreases |s| - i
  {
    if i < |s| { NoSeparatorInPlainText(s, i + 1); }
  }

  lemma BlankBlock<J>(rt: Runtime<J>)
    ensures Drain(rt, "\n\n") == Drained([], [], false)
  {
    var s := "\n\n";
    assert FirstSeparator(s, 0) == Some((0, 2));
    assert s[..0] == [] && s[2..] == [];
    var b: string := [];
    assert Lines(b) == [[]];
    var lines: seq<string> := [[]];
    assert lines[..0] == [];
    assert ApplyLines(rt, NO_FIELDS, lines) == NO_FIELDS;
  }

  // ---------- the parser object ----------

  class SSEParser<J(!new)> {
    const rt: Runtime<J>
    var buffer: string
    var received: seq<ServerEvent<J>>

    constructor (rt: Runtime<J>)
      ensures this.rt == rt && buffer == [] && received == []
    {
      this.rt := rt;
      buffer, received := [], [];
    }

    /** The text is appended before the size check, and each block is cut off before it is parsed. */
    method Feed(text: string) returns (r: FeedResult)
      modifies this
      ensures Session(buffer, received, r) == FeedOne(rt, Session(old(buffer), old(received), Fed), text)
    {
      hide Drain, FirstSeparator, Lines, ApplyLines, JoinLines;
      buffer := buffer + text;
      if |buffer| > CAP {
        return TooLarge;
      }
      ghost var whole := Prepend(received, Drain(rt, buffer));
      while true
        invariant Prepend(received, Drain(rt, buffer)) == whole
        decreases |buffer|
      {
        DrainCut(rt, buffer);
        var separator := FirstSeparator(buffer, 0);
        if separator.None? {
          assert received + [] == received;
          return Fed;
        }
        var (at, n) := separator.value;
        var block := buffer[..at];
        buffer := buffer[at + n..];
        var f := ReadBlock(block);
        if |f.data| > 0 {
          var j := rt.json(JoinLines(f.data));
          if j.None? {
            assert received + [] == received;
            return JsonError;
          }
          var e := ServerEvent(f.id, f.kind, j.value);
          PrependTwice(received, [e], Drain(rt, buffer));
          received := received + [e];
        } else {
          PrependTwice(received, [], Drain(rt, buffer));
          assert received + [] == received;
        }
      }
    }

    method ReadBlock(block: string) returns (f: Fields)
      ensures f == ApplyLines(rt, NO_FIELDS, Lines(block))
    {
      f := NO_FIELDS;
      var lines := Lines(block);
      for i := 0 to |lines|
        invariant f == ApplyLines(rt, NO_FIELDS, lines[..i])
      {
        assert lines[..i + 1][..i] == lines[..i];
        var line := lines[i];
        var colon := IndexOf(line, ':');
        if colon < 1 {
          continue;
        }
        var key, value := line[..colon], line[colon + 1..];
        if |value| > 0 && value[0] == ' ' {
          value := value[1..];
        }
        if key == "id" { f := f.(id := rt.number(value)); }
        if key == "event" { f := f.(kind := value); }
        if key == "data" { f := f.(data := f.data + [value]); }
      }
      assert lines[..|lines|] == lines;
    }
  }
}
