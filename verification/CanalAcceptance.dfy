/** Exactly which bytes the message decoders accept: fields one after another up to the end, each with a
    complete tag, the wire type its number demands, and a complete payload, nested messages included. All
    other bytes are an error, and none is read past. */
module CanalAcceptance {
  import opened Wire
  import opened CanalCodec

  /** A varint of n bytes that fits 64 bits. */
  ghost predicate IsVarint(b: Bytes, off: nat, n: nat) {
    Terminated(b, off, n) && n <= 10 && GroupSum(b[off..off + n]) < 0x1_0000_0000_0000_0000
  }

  /** A length of n bytes and as many bytes of content. */
  ghost predicate IsCounted(b: Bytes, start: nat, n: nat, next: nat) {
    IsVarint(b, start, n) && next <= |b| && next == start + n + GroupSum(b[start..start + n])
  }

  /** What the wire types 0, 1, 2 and 5 take; there are no others. */
  ghost predicate IsPayload(b: Bytes, start: nat, next: nat, wire: nat) {
    && start <= next <= |b|
    && match wire
       case 0 => start < next && IsVarint(b, start, next - start)
       case 1 => next == start + 8
       case 2 => exists n: nat :: IsCounted(b, start, n, next)
       case 5 => next == start + 4
       case _ => false
  }

  /** The wire type each known number demands, and the numbers read as bytes whatever their wire type. */
  datatype Schema = Schema(demanded: map<nat, nat>, blind: set<nat>) {
    predicate ReadsBytes(num: nat) { num in blind || (num in demanded && demanded[num] == 2) }
  }

  type Content = (nat, Bytes) -> bool

  ghost predicate HoldsContent(b: Bytes, start: nat, n: nat, next: nat, num: nat, content: Content) {
    IsCounted(b, start, n, next) && content(num, b[start + n..next])
  }

  ghost predicate HasContent(b: Bytes, start: nat, next: nat, num: nat, content: Content) {
    exists n: nat :: HoldsContent(b, start, n, next, num, content)
  }

  /** A field: its tag of n bytes, and the payload up to next, whose content must do for its number. */
  ghost predicate IsField(b: Bytes, off: nat, n: nat, next: nat, schema: Schema, content: Content) {
    && IsVarint(b, off, n) && off + n <= next <= |b|
    && var tag := GroupSum(b[off..off + n]);
       var num, wire := tag / 8, tag % 8;
       && (num in schema.demanded ==> wire == schema.demanded[num])
       && (if schema.ReadsBytes(num)
           then HasContent(b, off + n, next, num, content)
           else IsPayload(b, off + n, next, wire))
  }

  ghost predicate IsMessage(b: Bytes, off: nat, schema: Schema, content: Content)
    decreases |b| - off
  {
    off == |b| || exists n: nat, next: nat :: off < next <= |b| && IsField(b, off, n, next, schema, content) && IsMessage(b, next, schema, content)
  }

  // ---------- the reader reads exactly that ----------

  lemma {:induction false} OkIsTerminated(b: Bytes, off: nat, index: nat)
    requires off <= |b| && index <= 10 && VarintAt(b, off, index).Ok?
    ensures var next := VarintAt(b, off, index).value.1; off < next && Terminated(b, off, next - off)
    decreases 10 - index
  {
    if b[off] >= 0x80 {
      OkIsTerminated(b, off + 1, index + 1);
    }
  }

  lemma VarintIff(b: Bytes, off: nat, n: nat)
    requires off <= |b|
    ensures IsVarint(b, off, n) ==> VarintAt(b, off, 0) == Ok((GroupSum(b[off..off + n]), off + n))
    ensures VarintAt(b, off, 0).Ok? ==>
      var (v, next) := VarintAt(b, off, 0).value; off < next <= |b| && IsVarint(b, off, next - off) && v == GroupSum(b[off..next])
  {
    hide VarintAt, GroupSum;
    if IsVarint(b, off, n) { VarintIsGroupSum(b, off, n); }
    if VarintAt(b, off, 0).Ok? {
      var next := VarintAt(b, off, 0).value.1;
      OkIsTerminated(b, off, 0);
      VarintIsGroupSum(b, off, next - off);
      assert off + (next - off) == next;
    }
  }

  lemma BytesIff(b: Bytes, start: nat, n: nat, next: nat)
    requires start <= |b|
    ensures IsCounted(b, start, n, next) ==> BytesAt(b, start) == Ok((b[start + n..next], next))
    ensures BytesAt(b, start).Ok? ==>
      var (data, end) := BytesAt(b, start).value;
      exists m: nat :: IsCounted(b, start, m, end) && data == b[start + m..end]
  {
    hide VarintAt, GroupSum, Terminated;
    VarintIff(b, start, n);
    VarintProgress(b, start, 0);
    if BytesAt(b, start).Ok? {
      var (data, end) := BytesAt(b, start).value;
      var m := VarintAt(b, start, 0).value.1 - start;
      assert IsCounted(b, start, m, end) && data == b[start + m..end];
    }
  }

  lemma PayloadIff(b: Bytes, start: nat, next: nat, wire: nat)
    requires start <= |b|
    ensures IsPayload(b, start, next, wire) <==> SkipAt(b, start, wire) == Ok(next)
  {
    hide VarintAt, GroupSum, BytesAt, IsCounted, IsVarint;
    if wire == 0 {
      VarintIff(b, start, if start <= next then next - start else 0);
    } else if wire == 2 {
      if IsPayload(b, start, next, 2) {
        var n: nat :| IsCounted(b, start, n, next);
        BytesIff(b, start, n, next);
      }
      BytesIff(b, start, 0, next);
      VarintProgress(b, start, 0);
      CountedEnds(b, start, next);
    }
  }

  lemma CountedEnds(b: Bytes, start: nat, next: nat)
    ensures forall n: nat :: IsCounted(b, start, n, next) ==> start <= next <= |b|
  {
    hide GroupSum, Terminated;
  }

  /** The decoder's table says the same as the schema. */
  ghost predicate Agrees(kind: nat -> Kind, schema: Schema) {
    forall num: nat :: kind(num) ==
      if num in schema.blind then AnyBytesKind
      else if num !in schema.demanded then SkipKind
      else if schema.demanded[num] == 2 then BytesKind
      else IntKind
  }

  ghost predicate Plain(schema: Schema) {
    schema.blind !! schema.demanded.Keys && forall num :: num in schema.demanded ==> schema.demanded[num] == 0 || schema.demanded[num] == 2
  }

  function BytesFieldAt(b: Bytes, start: nat, num: nat, demanded: bool): Result<(nat, Item, nat)>
    requires start <= |b|
  {
    if !demanded then Err(WireMismatch)
    else
      match BytesAt(b, start)
      case Ok((data, next)) => Ok((num, BytesItem(data), next))
      case Err(e) => Err(e)
  }

  /** What FieldAt makes of a complete tag, with the payload as the schema has it. */
  lemma FieldOfTag(b: Bytes, off: nat, kind: nat -> Kind, schema: Schema, n: nat)
    requires off <= |b| && Agrees(kind, schema) && Plain(schema) && IsVarint(b, off, n)
    ensures off + n <= |b|
    ensures var tag := GroupSum(b[off..off + n]);
      var num, wire, start := tag / 8, tag % 8, off + n;
      && (schema.ReadsBytes(num) ==> FieldAt(b, off, kind) == BytesFieldAt(b, start, num, num in schema.blind || wire == 2))
      && (!schema.ReadsBytes(num) ==>
           && (FieldAt(b, off, kind).Ok? <==> (num in schema.demanded ==> wire == 0) && SkipAt(b, start, wire).Ok?)
           && (FieldAt(b, off, kind).Ok? ==>
                && FieldAt(b, off, kind).value.0 == num && FieldAt(b, off, kind).value.2 == SkipAt(b, start, wire).value
                && !FieldAt(b, off, kind).value.1.BytesItem?))
  {
    hide GroupSum, BytesAt, VarintAt, IsVarint;
    VarintIff(b, off, n);
    VarintEnds(b, off, n);
    var num := GroupSum(b[off..off + n]) / 8;
    assert kind(num).SkipKind? <==> num !in schema.blind && num !in schema.demanded;
  }

  lemma VarintEnds(b: Bytes, off: nat, n: nat)
    ensures IsVarint(b, off, n) ==> off + n <= |b|
  {
    hide GroupSum;
  }

  /** A step that takes every number and skipped field, and exactly the contents that do. */
  ghost predicate Takes<T(!new)>(step: (T, nat, Item) -> Result<T>, content: Content) {
    forall acc: T, num: nat, item: Item :: step(acc, num, item).Ok? <==> (item.BytesItem? ==> content(num, item.data))
  }

  lemma FieldIff(b: Bytes, off: nat, kind: nat -> Kind, schema: Schema, content: Content, n: nat, next: nat)
    requires off <= |b| && Agrees(kind, schema) && Plain(schema)
    ensures IsField(b, off, n, next, schema, content) ==>
      && FieldAt(b, off, kind).Ok? && FieldAt(b, off, kind).value.2 == next
      && var (num, item, _) := FieldAt(b, off, kind).value; item.BytesItem? ==> content(num, item.data)
  {
    hide GroupSum, BytesAt, FieldAt, SkipAt, IsVarint, Agrees;
    if IsField(b, off, n, next, schema, content) {
      FieldOfTag(b, off, kind, schema, n);
      var tag := GroupSum(b[off..off + n]);
      if schema.ReadsBytes(tag / 8) {
        assert HasContent(b, off + n, next, tag / 8, content);
        var m: nat :| HoldsContent(b, off + n, m, next, tag / 8, content);
        BytesIff(b, off + n, m, next);
      } else {
        PayloadIff(b, off + n, next, tag % 8);
      }
    }
  }

  lemma ContentHeld(b: Bytes, start: nat, num: nat, content: Content)
    requires start <= |b| && BytesAt(b, start).Ok? && content(num, BytesAt(b, start).value.0)
    ensures HasContent(b, start, BytesAt(b, start).value.1, num, content)
    ensures start <= BytesAt(b, start).value.1 <= |b|
  {
    hide GroupSum, BytesAt, IsVarint;
    var next := BytesAt(b, start).value.1;
    BytesIff(b, start, 0, next);
    var n: nat :| IsCounted(b, start, n, next) && BytesAt(b, start).value.0 == b[start + n..next];
    assert HoldsContent(b, start, n, next, num, content);
    CountedEnds(b, start, next);
  }

  lemma FieldSpans(b: Bytes, off: nat, kind: nat -> Kind, schema: Schema, content: Content) returns (n: nat)
    requires off <= |b| && Agrees(kind, schema) && Plain(schema) && FieldAt(b, off, kind).Ok?
    requires var (num, item, _) := FieldAt(b, off, kind).value; item.BytesItem? ==> content(num, item.data)
    ensures IsField(b, off, n, FieldAt(b, off, kind).value.2, schema, content)
  {
    TagOk(b, off, kind);
    hide GroupSum, BytesAt, SkipAt, Agrees, IsVarint, FieldAt, VarintAt, HasContent, IsPayload;

    var next := FieldAt(b, off, kind).value.2;
    VarintIff(b, off, 0);
    n := VarintAt(b, off, 0).value.1 - off;
    FieldOfTag(b, off, kind, schema, n);
    var tag := GroupSum(b[off..off + n]);
    if schema.ReadsBytes(tag / 8) {
      ContentHeld(b, off + n, tag / 8, content);
    } else {
      PayloadIff(b, off + n, next, tag % 8);
      PayloadEnds(b, off + n, next, tag % 8);
    }
  }

  lemma TagOk(b: Bytes, off: nat, kind: nat -> Kind)
    requires off <= |b| && FieldAt(b, off, kind).Ok?
    ensures VarintAt(b, off, 0).Ok?
  {
    hide VarintAt, BytesAt, SkipAt;
  }

  lemma PayloadEnds(b: Bytes, start: nat, next: nat, wire: nat)
    ensures IsPayload(b, start, next, wire) ==> start <= next <= |b|
  {
  }

  /** A whole message is accepted if and only if it is one. */
  lemma {:induction false} FoldAccepts<T(!new)>(b: Bytes, off: nat, kind: nat -> Kind, step: (T, nat, Item) -> Result<T>, acc: T, schema: Schema, content: Content)
    requires off <= |b| && Agrees(kind, schema) && Plain(schema) && Takes(step, content)
    ensures Fold(b, off, kind, step, acc).Ok? <==> IsMessage(b, off, schema, content)
    decreases |b| - off
  {
    hide FieldAt, IsField, Agrees, Plain;
    if off < |b| {
      if FieldAt(b, off, kind).Ok? {
        var (num, item, next) := FieldAt(b, off, kind).value;
        if item.BytesItem? ==> content(num, item.data) {
          var n := FieldSpans(b, off, kind, schema, content);
          assert step(acc, num, item).Ok?;
          FoldAccepts(b, next, kind, step, step(acc, num, item).value, schema, content);
          OneSpan(b, off, kind, schema, content);
        } else {
          OneSpan(b, off, kind, schema, content);
        }
      } else {
        OneSpan(b, off, kind, schema, content);
      }
    }
  }

  /** There is at most one way to cut off a field. */
  lemma OneSpan(b: Bytes, off: nat, kind: nat -> Kind, schema: Schema, content: Content)
    requires off <= |b| && Agrees(kind, schema) && Plain(schema)
    ensures forall n: nat, next: nat :: IsField(b, off, n, next, schema, content) ==>
      && FieldAt(b, off, kind).Ok? && FieldAt(b, off, kind).value.2 == next
      && (FieldAt(b, off, kind).value.1.BytesItem? ==> content(FieldAt(b, off, kind).value.0, FieldAt(b, off, kind).value.1.data))
  {
    hide FieldAt, IsField, Agrees, Plain;
    forall n: nat, next: nat | IsField(b, off, n, next, schema, content)
      ensures FieldAt(b, off, kind).Ok? && FieldAt(b, off, kind).value.2 == next
      ensures FieldAt(b, off, kind).value.1.BytesItem? ==> content(FieldAt(b, off, kind).value.0, FieldAt(b, off, kind).value.1.data)
    {
      FieldIff(b, off, kind, schema, content, n, next);
    }
  }

  // ---------- the messages of Canal ----------

  ghost predicate AnyContent(num: nat, data: Bytes) { true }

  ghost predicate IsHeader(b: Bytes) {
    IsMessage(b, 0, Schema(map[2 := 2, 3 := 0, 6 := 0, 8 := 2, 9 := 2, 13 := 2], {}), AnyContent)
  }

  ghost predicate IsColumn(b: Bytes) {
    IsMessage(b, 0, Schema(map[2 := 0, 3 := 2, 4 := 0, 5 := 0, 6 := 0, 8 := 2, 10 := 2], {}), AnyContent)
  }

  ghost predicate RowContent(num: nat, data: Bytes) { num in {1, 2} ==> IsColumn(data) }

  ghost predicate IsRow(b: Bytes) {
    IsMessage(b, 0, Schema(map[1 := 2, 2 := 2], {}), RowContent)
  }

  ghost predicate ChangeContent(num: nat, data: Bytes) { num == 12 ==> IsRow(data) }

  ghost predicate IsChange(b: Bytes) {
    IsMessage(b, 0, Schema(map[2 := 0, 10 := 0, 11 := 2, 12 := 2], {}), ChangeContent)
  }

  ghost predicate EntryContent(num: nat, data: Bytes) { num == 1 ==> IsHeader(data) }

  ghost predicate IsEntry(b: Bytes) {
    IsMessage(b, 0, Schema(map[1 := 2, 2 := 0], {3}), EntryContent)
  }

  lemma HeaderAccepted(b: Bytes)
    ensures DecodeHeader(b).Ok? <==> IsHeader(b)
  {
    FoldAccepts(b, 0, HeaderKind, HeaderStep, EMPTY_HEADER, Schema(map[2 := 2, 3 := 0, 6 := 0, 8 := 2, 9 := 2, 13 := 2], {}), AnyContent);
  }

  lemma ColumnAccepted(b: Bytes)
    ensures DecodeColumn(b).Ok? <==> IsColumn(b)
  {
    FoldAccepts(b, 0, ColumnKind, ColumnStep, EMPTY_COLUMN, Schema(map[2 := 0, 3 := 2, 4 := 0, 5 := 0, 6 := 0, 8 := 2, 10 := 2], {}), AnyContent);
  }

  lemma RowAccepted(b: Bytes)
    ensures DecodeRowData(b).Ok? <==> IsRow(b)
  {
    assert DecodeColumn([]).Ok?;
    hide DecodeColumn, IsColumn;
    forall data: Bytes ensures DecodeColumn(data).Ok? <==> IsColumn(data) { ColumnAccepted(data); }
    FoldAccepts(b, 0, RowDataKind, RowDataStep, RowData([], []), Schema(map[1 := 2, 2 := 2], {}), RowContent);
  }

  lemma ChangeAccepted(b: Bytes)
    ensures DecodeRowChange(b).Ok? <==> IsChange(b)
  {
    assert DecodeRowData([]).Ok?;
    hide DecodeRowData, IsRow;
    forall data: Bytes ensures DecodeRowData(data).Ok? <==> IsRow(data) { RowAccepted(data); }
    FoldAccepts(b, 0, RowChangeKind, RowChangeStep, EMPTY_ROW_CHANGE, Schema(map[2 := 0, 10 := 0, 11 := 2, 12 := 2], {}), ChangeContent);
  }

  lemma EntryAccepted(b: Bytes)
    ensures DecodeEntry(b).Ok? <==> IsEntry(b)
  {
    assert DecodeHeader([]).Ok?;
    hide DecodeHeader, IsHeader;
    forall data: Bytes ensures DecodeHeader(data).Ok? <==> IsHeader(data) { HeaderAccepted(data); }
    FoldAccepts(b, 0, EntryKind, EntryStep, EMPTY_ENTRY, Schema(map[1 := 2, 2 := 0], {3}), EntryContent);
  }

  ghost predicate IsMessages(b: Bytes) {
    IsMessage(b, 0, Schema(map[1 := 0, 2 := 2], {}), AnyContent)
  }

  ghost predicate IsPacket(b: Bytes) {
    IsMessage(b, 0, Schema(map[3 := 0, 4 := 0], {5}), AnyContent)
  }

  lemma MessagesAccepted(b: Bytes)
    ensures DecodeMessages(b).Ok? <==> IsMessages(b)
  {
    FoldAccepts(b, 0, MessagesKind, MessagesStep, Messages(0, []), Schema(map[1 := 0, 2 := 2], {}), AnyContent);
  }

  lemma PacketAccepted(b: Bytes)
    ensures DecodePacket(b).Ok? <==> IsPacket(b)
  {
    FoldAccepts(b, 0, PacketKind, PacketStep, Packet(0, 0, []), Schema(map[3 := 0, 4 := 0], {5}), AnyContent);
  }

  /** A row data entry whose change is no message makes the whole message an error; any other entry has only
      to be one itself. */
  ghost predicate EntryDoes(eb: Bytes) {
    && IsEntry(eb) && DecodeEntry(eb).Ok?
    && var e := DecodeEntry(eb).value; e.entryType == 2 && e.storeValue != [] ==> IsChange(e.storeValue)
  }

  lemma EntryDoesIff(eb: Bytes)
    ensures EntryToFlat(eb).Ok? <==> EntryDoes(eb)
  {
    hide DecodeEntry, DecodeRowChange, IsEntry, IsChange, AddRows, NewFlat;
    EntryAccepted(eb);
    if DecodeEntry(eb).Ok? { ChangeAccepted(DecodeEntry(eb).value.storeValue); }
  }

  lemma {:induction false} EntriesDo(entries: seq<Bytes>)
    ensures EntriesToFlats(entries).Ok? <==> forall eb :: eb in entries ==> EntryDoes(eb)
  {
    hide EntryToFlat, EntryDoes;
    if entries != [] {
      var init, last := entries[..|entries| - 1], entries[|entries| - 1];
      EntriesDo(init);
      EntryDoesIff(last);
      assert entries == init + [last];
    }
  }

  /** A Kafka message is an error exactly when it is no packet, or holds messages that are compressed, are
      none, or have an entry that will not do. */
  lemma MessageAccepted(value: Bytes)
    ensures DecodeMessage(value).Ok? <==>
      (value == [] || (
        && IsPacket(value) && DecodePacket(value).Ok?
        && var p := DecodePacket(value).value;
           p.messageType == 7 ==> (
             && (p.compression == 0 || p.compression == 1)
             && IsMessages(p.body) && DecodeMessages(p.body).Ok?
             && forall eb :: eb in DecodeMessages(p.body).value.entries ==> EntryDoes(eb))))
  {
    hide DecodePacket, DecodeMessages, IsPacket, IsMessages, EntryDoes, EntriesToFlats;
    PacketAccepted(value);
    if DecodePacket(value).Ok? {
      var body := DecodePacket(value).value.body;
      MessagesAccepted(body);
      if DecodeMessages(body).Ok? { EntriesDo(DecodeMessages(body).value.entries); }
    }
  }
}
