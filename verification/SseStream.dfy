/** The task event stream end to end: the server prints logged events and heartbeats, the
    connection may break anywhere, the client parses, remembers the last id and reconnects. */
module SseStream {
  import opened SseParser

  /** A row of the task's event log. */
  datatype Logged<J> = Logged(id: nat, kind: string, payload: J)

  datatype Item<J> = EventItem(e: Logged<J>) | Heartbeat

  function Digits(n: nat): (d: string)
    ensures d != [] && Plain(d)
  {
    if n < 10 then ["0123456789"[n]] else Digits(n / 10) + ["0123456789"[n % 10]]
  }

  /** No line breaks inside. */
  predicate Plain(s: string) {
    '\n' !in s && '\r' !in s
  }

  /** The client's runtime undoes what the server prints: JSON.parse inverts json.dumps, which
      writes one line, and Number reads the decimal ids a double holds exactly. */
  ghost predicate Inverts<J(!new)>(rt: Runtime<J>, dumps: J -> string) {
    && (forall n: nat :: n < 0x20_0000_0000_0000 ==> rt.number(Digits(n)) == n)
    && (forall j :: Plain(dumps(j)) && rt.json(dumps(j)) == Some(j))
  }

  ghost predicate Printable<J>(e: Logged<J>) {
    e.id < 0x20_0000_0000_0000 && Plain(e.kind)
  }

  function FrameLines<J>(dumps: J -> string, it: Item<J>): seq<string> {
    match it
    case EventItem(e) => ["id: " + Digits(e.id), "event: " + e.kind, "data: " + dumps(e.payload)]
    case Heartbeat => [": heartbeat"]
  }

  function Frame<J>(dumps: J -> string, it: Item<J>): string {
    JoinLines(FrameLines(dumps, it)) + "\n\n"
  }

  function Print<J>(dumps: J -> string, items: seq<Item<J>>): string {
    if items == [] then [] else Frame(dumps, items[0]) + Print(dumps, items[1..])
  }

  function ToEvent<J>(e: Logged<J>): ServerEvent<J> {
    ServerEvent(e.id, e.kind, e.payload)
  }

  function ToEvents<J>(log: seq<Logged<J>>): (events: seq<ServerEvent<J>>)
    ensures |events| == |log| && forall i :: 0 <= i < |log| ==> events[i] == ToEvent(log[i])
  {
    seq(|log|, i requires 0 <= i < |log| => ToEvent(log[i]))
  }

  /** The events among the items, heartbeats gone. */
  function EventsOf<J>(items: seq<Item<J>>): seq<Logged<J>> {
    if items == [] then []
    else if items[0].EventItem? then [items[0].e] + EventsOf(items[1..])
    else EventsOf(items[1..])
  }

  ghost predicate AllPrintable<J>(items: seq<Item<J>>) {
    forall it :: it in items && it.EventItem? ==> Printable(it.e)
  }

  // ---------- one frame ----------

  ghost predicate PlainLines(lines: seq<string>) {
    lines != [] && forall l :: l in lines ==> l != [] && Plain(l)
  }

  /** No CR, and every line feed is followed by an ordinary character. */
  ghost predicate Tight(s: string) {
    forall j: nat :: j < |s| ==> TightAt(s, j)
  }

  predicate TightAt(s: string, j: nat) {
    j < |s| && s[j] != '\r' && (s[j] == '\n' ==> j + 1 < |s| && s[j + 1] != '\n')
  }

  lemma PlainIsTight(s: string)
    requires Plain(s)
    ensures Tight(s) && forall j :: 0 <= j < |s| ==> s[j] != '\n'
  {
    assert forall j :: 0 <= j < |s| ==> s[j] in s;
  }

  lemma TightConcat(first: string, rest: string)
    requires Plain(first) && first != [] && Tight(rest) && rest != [] && rest[0] != '\n'
    ensures Tight(first + "\n" + rest) && (first + "\n" + rest)[0] != '\n'
  {
    PlainIsTight(first);
    var s := first + "\n" + rest;
    forall j: nat | j < |s|
      ensures TightAt(s, j)
    {
      if j < |first| {
        assert s[j] == first[j] && TightAt(first, j);
      } else if j == |first| {
        assert s[j + 1] == rest[0];
      } else {
        assert s[j] == rest[j - |first| - 1] && TightAt(rest, j - |first| - 1);
      }
    }
  }

  lemma {:induction false} JoinedLinesAreTight(lines: seq<string>)
    requires PlainLines(lines)
    ensures var s := JoinLines(lines); Tight(s) && s != [] && s[0] != '\n'
    decreases |lines|
  {
    assert lines[0] in lines;
    if |lines| > 1 {
      JoinedLinesAreTight(lines[1..]);
      TightConcat(lines[0], JoinLines(lines[1..]));
    } else {
      PlainIsTight(lines[0]);
    }
  }

  lemma TightEndsAtSeparator(s: string, rest: string)
    requires Tight(s)
    ensures FirstSeparator(s + "\n\n" + rest, 0) == Some((|s|, 2))
  {
    hide FirstSeparator;
    var t := s + "\n\n" + rest;
    assert forall j :: 0 <= j < |s| ==> t[j] == s[j];
    assert t[|s|] == '\n' && t[|s| + 1] == '\n';
    forall j | 0 <= j < |s|
      ensures SeparatorAt(t, j) == 0
    {
      assert TightAt(s, j) && t[j] != '\r';
      assert t[j] == '\n' ==> TightAt(s, j + 1) && t[j + 1] == s[j + 1];
    }
    assert SeparatorAt(t, |s|) == 2;
    FirstSeparatorIs(t, 0, |s|);
  }

  lemma {:induction false} IndexOfFirst(before: string, c: char, after: string)
    requires c !in before
    ensures IndexOf(before + [c] + after, c) == |before|
  {
    if before == [] {
      assert before + [c] + after == [c] + after;
    } else {
      var s := before + [c] + after;
      assert s[0] == before[0] && before[0] in before;
      assert s[1..] == before[1..] + [c] + after;
      IndexOfFirst(before[1..], c, after);
    }
  }

  lemma LinesCut(first: string, rest: string)
    requires Plain(first)
    ensures Lines(first + "\n" + rest) == [first] + Lines(rest)
  {
    var s := first + "\n" + rest;
    IndexOfFirst(first, '\n', rest);
    assert s[..|first|] == first && s[|first| + 1..] == rest;
    assert |first| > 0 ==> s[|first| - 1] == first[|first| - 1] && first[|first| - 1] in first;
  }

  /** Splitting what join("\n") joined. */
  lemma {:induction false} LinesOfJoined(lines: seq<string>)
    requires PlainLines(lines)
    ensures Lines(JoinLines(lines)) == lines
    decreases |lines|
  {
    assert lines[0] in lines;
    if |lines| > 1 {
      LinesCut(lines[0], JoinLines(lines[1..]));
      LinesOfJoined(lines[1..]);
      assert lines == [lines[0]] + lines[1..];
    } else {
      assert lines == [lines[0]];
    }
  }

  /** A "key: value" line is read back whole, whatever the value. */
  lemma KeyValueLine<J>(rt: Runtime<J>, f: Fields, key: string, value: string)
    requires key != [] && ':' !in key
    ensures ApplyLine(rt, f, key + ": " + value) ==
      if key == "id" then f.(id := rt.number(value))
      else if key == "event" then f.(kind := value)
      else if key == "data" then f.(data := f.data + [value])
      else f
  {
    var line := key + ": " + value;
    assert line == key + [':'] + (" " + value);
    IndexOfFirst(key, ':', " " + value);
    assert line[..|key|] == key && line[|key| + 1..] == " " + value;
    assert (" " + value)[1..] == value;
  }

  lemma EventLinesApply<J(!new)>(rt: Runtime<J>, dumps: J -> string, e: Logged<J>)
    requires Inverts(rt, dumps) && Printable(e)
    ensures ApplyLines(rt, NO_FIELDS, FrameLines(dumps, EventItem(e))) == Fields(e.id, e.kind, [dumps(e.payload)])
  {
    hide ApplyLine;
    var lines := FrameLines(dumps, EventItem(e));
    assert lines[..2][..1] == lines[..1] && lines[..1][..0] == [];
    KeyValueLine(rt, NO_FIELDS, "id", Digits(e.id));
    var f := NO_FIELDS.(id := e.id);
    assert lines[0] == "id" + ": " + Digits(e.id);
    assert ApplyLines(rt, NO_FIELDS, lines[..1]) == f;
    KeyValueLine(rt, f, "event", e.kind);
    assert lines[1] == "event" + ": " + e.kind;
    assert ApplyLines(rt, NO_FIELDS, lines[..2]) == f.(kind := e.kind);
    KeyValueLine(rt, f.(kind := e.kind), "data", dumps(e.payload));
    assert lines[2] == "data" + ": " + dumps(e.payload);
  }

  lemma HeartbeatApplies<J>(rt: Runtime<J>, dumps: J -> string)
    ensures ApplyLines(rt, NO_FIELDS, FrameLines(dumps, Heartbeat)) == NO_FIELDS
  {
    var lines := FrameLines(dumps, Heartbeat);
    assert lines[..0] == [];
    assert IndexOf(lines[0], ':') == 0;
  }

  lemma FrameLinesArePlain<J(!new)>(rt: Runtime<J>, dumps: J -> string, it: Item<J>)
    requires Inverts(rt, dumps) && (it.EventItem? ==> Printable(it.e))
    ensures PlainLines(FrameLines(dumps, it))
  {
    if it.EventItem? {
      assert Plain(dumps(it.e.payload));
    }
  }

  /** What a frame's block parses to. */
  function BlockOf<J>(it: Item<J>): BlockResult<J> {
    match it
    case EventItem(e) => Event(ToEvent(e))
    case Heartbeat => Nothing
  }

  lemma FrameParses<J(!new)>(rt: Runtime<J>, dumps: J -> string, it: Item<J>)
    requires Inverts(rt, dumps) && (it.EventItem? ==> Printable(it.e))
    ensures ParseBlock(rt, JoinLines(FrameLines(dumps, it))) == BlockOf(it)
  {
    FrameLinesArePlain(rt, dumps, it);
    LinesOfJoined(FrameLines(dumps, it));
    match it
    case EventItem(e) =>
      EventLinesApply(rt, dumps, e);
      assert JoinLines([dumps(e.payload)]) == dumps(e.payload);
    case Heartbeat => HeartbeatApplies(rt, dumps);
  }

  // ---------- the whole text ----------

  lemma DrainFrame<J(!new)>(rt: Runtime<J>, dumps: J -> string, it: Item<J>, rest: string)
    requires Inverts(rt, dumps) && (it.EventItem? ==> Printable(it.e))
    ensures Drain(rt, Frame(dumps, it) + rest) == Prepend(EventsOfBlock(BlockOf(it)), Drain(rt, rest))
  {
    hide Drain, FirstSeparator, ParseBlock, FrameLines, JoinLines, Tight;
    var block := JoinLines(FrameLines(dumps, it));
    FrameLinesArePlain(rt, dumps, it);
    JoinedLinesAreTight(FrameLines(dumps, it));
    TightEndsAtSeparator(block, rest);
    FrameParses(rt, dumps, it);
    var text := block + "\n\n" + rest;
    assert text[..|block|] == block && text[|block| + 2..] == rest;
    DrainCut(rt, text);
  }

  /** Parsing what was printed gives the same events, and nothing of the heartbeats. */
  lemma {:induction false} PrintParse<J(!new)>(rt: Runtime<J>, dumps: J -> string, items: seq<Item<J>>)
    requires Inverts(rt, dumps) && AllPrintable(items)
    ensures Drain(rt, Print(dumps, items)) == Drained(ToEvents(EventsOf(items)), [], false)
  {
    hide Drain, Frame, Inverts;
    if items == [] {
      DrainCut(rt, []);
      assert FirstSeparator([], 0) == None;
    } else {
      assert items[0] in items;
      DrainFrame(rt, dumps, items[0], Print(dumps, items[1..]));
      PrintParse(rt, dumps, items[1..]);
      assert ToEvents(EventsOf(items)) == EventsOfBlock(BlockOf(items[0])) + ToEvents(EventsOf(items[1..]));
    }
  }

  /** Text that broke off anywhere, fed in any pieces, yields a prefix of the printed events. */
  lemma BrokenOffStream<J(!new)>(rt: Runtime<J>, dumps: J -> string, items: seq<Item<J>>, pieces: seq<string>)
    requires Inverts(rt, dumps) && AllPrintable(items)
    requires Concat(pieces) <= Print(dumps, items)
    ensures FeedAll(rt, pieces).received <= ToEvents(EventsOf(items))
  {
    hide Drain, FeedAll, Concat, Inverts, AllPrintable, Print;
    var got, text := Concat(pieces), Print(dumps, items);
    PrintParse(rt, dumps, items);
    assert text == got + text[|got|..];
    DrainAppend(rt, got, text[|got|..]);
    ReceivedIsPrefix(rt, pieces);
  }

  lemma {:induction false} ReceivedIsPrefix<J>(rt: Runtime<J>, pieces: seq<string>)
    ensures FeedAll(rt, pieces).received <= Drain(rt, Concat(pieces)).events
  {
    if pieces != [] {
      var init, text := pieces[..|pieces| - 1], pieces[|pieces| - 1];
      ReceivedIsPrefix(rt, init);
      DrainAppend(rt, Concat(init), text);
      if FeedAll(rt, pieces).last != TooLarge {
        PiecesMeanTheWhole(rt, pieces);
      }
    }
  }

  // ---------- the server's loop ----------

  const BATCH: nat := 200

  ghost predicate Ascending<J>(log: seq<Logged<J>>) {
    && (forall i :: 0 <= i < |log| ==> 0 < log[i].id && Printable(log[i]))
    && (forall i, j :: 0 <= i < j < |log| ==> log[i].id < log[j].id)
  }

  /** How many events the cursor is past. */
  function Past<J>(log: seq<Logged<J>>, cursor: nat): (n: nat)
    ensures n <= |log|
  {
    if log == [] || log[0].id > cursor then 0 else 1 + Past(log[1..], cursor)
  }

  lemma {:induction false} PastSplits<J>(log: seq<Logged<J>>, cursor: nat)
    requires Ascending(log)
    ensures forall i :: 0 <= i < |log| ==> (log[i].id <= cursor <==> i < Past(log, cursor))
  {
    if log != [] && log[0].id <= cursor {
      assert Ascending(log[1..]);
      PastSplits(log[1..], cursor);
      assert forall i :: 0 < i < |log| ==> log[i] == log[1..][i - 1];
    }
  }

  lemma PastIs<J>(log: seq<Logged<J>>, n: nat)
    requires Ascending(log) && 0 < n <= |log|
    ensures Past(log, log[n - 1].id) == n
  {
    PastSplits(log, log[n - 1].id);
    assert n < |log| ==> log[n - 1].id < log[n].id;
  }

  /** SELECT of the committed events after the cursor, in id order, at most 200. */
  method Query<J>(log: seq<Logged<J>>, committed: nat, cursor: nat) returns (batch: seq<Logged<J>>)
    requires Ascending(log) && committed <= |log|
    ensures var i := Past(log, cursor);
      batch == if committed <= i then [] else log[i..if committed < i + 200 then committed else i + 200]
  {
    PastSplits(log, cursor);
    batch := [];
    for k := 0 to committed
      invariant var i := Past(log, cursor);
        batch == if k <= i then [] else log[i..if k < i + BATCH then k else i + BATCH]
    {
      if log[k].id > cursor && |batch| < BATCH {
        batch := batch + [log[k]];
      }
    }
  }

  /** What has been sent is the stretch of the log from `start` to where the cursor is. */
  ghost predicate Sent<J>(log: seq<Logged<J>>, start: nat, items: seq<Item<J>>, cursor: nat) {
    && AllPrintable(items)
    && Past(log, cursor) == start + |EventsOf(items)|
    && EventsOf(items) == log[start..start + |EventsOf(items)|]
  }

  /** One stream from a cursor, over at most `polls` polls while the log grows: the events sent are
      exactly a contiguous stretch of the log from the cursor on, with heartbeats in between. */
  method Stream<J>(log: seq<Logged<J>>, after: nat, polls: nat) returns (items: seq<Item<J>>, last: nat)
    requires Ascending(log)
    ensures Sent(log, Past(log, after), items, last)
  {
    hide Sent, Ascending, Past, EventsOf;
    items := [];
    var cursor := after;
    var committed: nat := 0;
    ghost var start := Past(log, after);
    NothingSent(log, after);
    for poll := 0 to polls
      invariant committed <= |log| && Sent(log, start, items, cursor)
    {
      var now: nat :| committed <= now <= |log|;
      committed := now;
      var batch := Query(log, committed, cursor);
      items, cursor := Emit(log, items, cursor, batch, start);
      if |batch| == BATCH {
        continue;
      }
      if * {
        break;
      }
      if |batch| == 0 {
        HeartbeatSent(log, start, items, cursor);
        items := items + [Heartbeat];
      }
    }
    last := cursor;
  }

  lemma NothingSent<J>(log: seq<Logged<J>>, cursor: nat)
    ensures Sent(log, Past(log, cursor), [], cursor)
  {
  }

  lemma HeartbeatSent<J>(log: seq<Logged<J>>, start: nat, items: seq<Item<J>>, cursor: nat)
    requires Sent(log, start, items, cursor)
    ensures Sent(log, start, items + [Heartbeat], cursor)
  {
    EventsOfAppend(items, Heartbeat);
  }

  lemma EventSent<J>(log: seq<Logged<J>>, start: nat, items: seq<Item<J>>, cursor: nat)
    requires Ascending(log) && Sent(log, start, items, cursor) && Past(log, cursor) < |log|
    ensures var e := log[Past(log, cursor)];
      Sent(log, start, items + [EventItem(e)], e.id) && Past(log, e.id) == Past(log, cursor) + 1
  {
    var e := log[Past(log, cursor)];
    PastIs(log, Past(log, cursor) + 1);
    EventsOfAppend(items, EventItem(e));
  }

  /** Yield a batch event by event, moving the cursor along. */
  method Emit<J>(log: seq<Logged<J>>, sofar: seq<Item<J>>, after: nat, batch: seq<Logged<J>>, ghost start: nat)
    returns (items: seq<Item<J>>, cursor: nat)
    requires Ascending(log) && Sent(log, start, sofar, after)
    requires Past(log, after) + |batch| <= |log| && batch == log[Past(log, after)..Past(log, after) + |batch|]
    ensures Sent(log, start, items, cursor) && Past(log, cursor) == Past(log, after) + |batch|
  {
    hide Sent, Ascending, Past;
    items, cursor := sofar, after;
    for k := 0 to |batch|
      invariant Sent(log, start, items, cursor) && Past(log, cursor) == Past(log, after) + k
    {
      assert batch[k] == log[Past(log, after) + k];
      EventSent(log, start, items, cursor);
      cursor := batch[k].id;
      items := items + [EventItem(batch[k])];
    }
  }

  lemma {:induction false} EventsOfAppend<J>(items: seq<Item<J>>, it: Item<J>)
    ensures EventsOf(items + [it]) == EventsOf(items) + if it.EventItem? then [it.e] else []
  {
    if items == [] {
      assert ([] + [it])[1..] == [];
    } else {
      assert (items + [it])[1..] == items[1..] + [it];
      EventsOfAppend(items[1..], it);
    }
  }

  // ---------- the client ----------

  /** The text arrives in arbitrary pieces, up to where the connection breaks or the parser throws. */
  method Transfer<J(!new)>(rt: Runtime<J>, text: string) returns (events: seq<ServerEvent<J>>, pieces: seq<string>)
    ensures Concat(pieces) <= text && events == FeedAll(rt, pieces).received
  {
    hide FeedOne;
    var parser := new SSEParser<J>(rt);
    pieces := [];
    var sent := 0;
    var cut: nat :| cut <= |text|;
    var last := Fed;
    while sent < cut && last.Fed?
      invariant sent <= cut && Concat(pieces) == text[..sent]
      invariant fresh(parser) && parser.rt == rt
      invariant Session(parser.buffer, parser.received, last) == FeedAll(rt, pieces)
      decreases cut - sent
    {
      var end: nat :| sent < end <= cut;
      var more := pieces + [text[sent..end]];
      assert more[..|more| - 1] == pieces;
      assert text[..sent] + text[sent..end] == text[..end];
      last := parser.Feed(text[sent..end]);
      pieces := more;
      sent := end;
    }
    events := parser.received;
  }

  lemma SentIsPrintable<J>(log: seq<Logged<J>>, start: nat, items: seq<Item<J>>, cursor: nat)
    requires Sent(log, start, items, cursor)
    ensures AllPrintable(items)
  {
  }

  lemma SentEvents<J>(log: seq<Logged<J>>, start: nat, items: seq<Item<J>>, cursor: nat, events: seq<ServerEvent<J>>)
    requires Sent(log, start, items, cursor) && events <= ToEvents(EventsOf(items))
    ensures start + |events| <= |log| && forall i :: 0 <= i < |events| ==> events[i] == ToEvent(log[start + i])
  {
    var all := EventsOf(items);
    assert forall i :: 0 <= i < |events| ==> events[i] == ToEvents(all)[i] == ToEvent(all[i]);
    assert forall i :: 0 <= i < |all| ==> all[i] == log[start + i];
  }

  /** The watcher's memory: what it has shown and the id it resumes from. */
  class Watcher<J(!new)> {
    const rt: Runtime<J>
    var cursor: int
    var accepted: seq<ServerEvent<J>>

    constructor (rt: Runtime<J>)
      ensures this.rt == rt && cursor == 0 && accepted == []
    {
      this.rt := rt;
      cursor, accepted := 0, [];
    }

    /** The first n events of the log, no more and no less, have been accepted. */
    ghost predicate UpTo(log: seq<Logged<J>>, n: nat)
      reads this
    {
      && n <= |log|
      && accepted == ToEvents(log[..n])
      && cursor == (if n == 0 then 0 else log[n - 1].id)
    }

    method Receive(e: ServerEvent<J>)
      modifies this
      ensures if e.id <= old(cursor) then cursor == old(cursor) && accepted == old(accepted)
              else cursor == e.id && accepted == old(accepted) + [e]
    {
      if e.id <= cursor {
        return;
      }
      cursor := e.id;
      accepted := accepted + [e];
    }

    /** One connection: the server streams from the cursor, the text breaks off anywhere and arrives
        in any pieces, and every parsed event is offered. */
    method Connect(log: seq<Logged<J>>, dumps: J -> string, polls: nat, ghost n: nat) returns (ghost n': nat)
      requires Inverts(rt, dumps) && Ascending(log) && UpTo(log, n)
      modifies this
      ensures n <= n' && UpTo(log, n')
    {
      hide Inverts, Ascending, Past, Print, EventsOf, Sent, UpTo;
      PastCursor(log, n);
      var items, sent := Stream(log, cursor as nat, polls);
      var events, pieces := Transfer(rt, Print(dumps, items));
      assert AllPrintable(items) by { SentIsPrintable(log, n, items, sent); }
      BrokenOffStream(rt, dumps, items, pieces);
      SentEvents(log, n, items, sent, events);
      n' := Offer(log, events, n);
    }

    lemma PastCursor(log: seq<Logged<J>>, n: nat)
      requires Ascending(log) && UpTo(log, n)
      ensures cursor >= 0 && Past(log, cursor as nat) == n
    {
      if n > 0 { PastIs(log, n); } else { PastSplits(log, 0); }
    }

    /** Every parsed event is offered in turn; ids ascend, so none is dropped as old. */
    method Offer(log: seq<Logged<J>>, events: seq<ServerEvent<J>>, ghost n: nat) returns (ghost n': nat)
      requires Ascending(log) && UpTo(log, n)
      requires n + |events| <= |log| && forall i :: 0 <= i < |events| ==> events[i] == ToEvent(log[n + i])
      modifies this
      ensures n' == n + |events| && UpTo(log, n')
    {
      for i := 0 to |events|
        invariant UpTo(log, n + i)
      {
        var e := events[i];
        assert e == ToEvent(log[n + i]);
        assert n + i > 0 ==> log[n + i - 1].id < log[n + i].id;
        Receive(e);
        assert log[..n + i + 1] == log[..n + i] + [log[n + i]];
      }
      n' := n + |events|;
    }

    /** However often the connection breaks, what was accepted is an exact prefix of the log. */
    method Watch(log: seq<Logged<J>>, dumps: J -> string, connections: nat, polls: nat)
      requires Inverts(rt, dumps) && Ascending(log) && UpTo(log, 0)
      modifies this
      ensures exists n :: UpTo(log, n)
    {
      ghost var n := 0;
      for c := 0 to connections
        invariant UpTo(log, n)
      {
        n := Connect(log, dumps, polls, n);
      }
    }
  }
}
