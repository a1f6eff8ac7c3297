/** What a Canal packet means, stated on the tree of messages a producer writes, and the proof
    that the decoder returns it. At every level the known fields may come in any order and any
    number, with unknown well-formed fields anywhere among them. */
module CanalRoundTrip {
  import opened Wire
  import opened CanalCodec

  // ---------- one flat message: a scalar field is its last occurrence, absent means default ----------

  function LastField(fs: seq<Field>, num: nat): Option<Field> {
    if fs == [] then None
    else if fs[|fs| - 1].num == num then Some(fs[|fs| - 1])
    else LastField(fs[..|fs| - 1], num)
  }

  function IntAt(fs: seq<Field>, num: nat): (v: nat)
    ensures v < U64
  {
    match LastField(fs, num)
    case Some(VarintField(_, v)) => if v < U64 then v else 0
    case _ => 0
  }

  function DataAt(fs: seq<Field>, num: nat): Bytes {
    match LastField(fs, num)
    case Some(BytesField(_, data)) => data
    case _ => []
  }

  ghost predicate AllTyped(fs: seq<Field>, kind: nat -> Kind) {
    forall f :: f in fs ==> WellTyped(f, kind)
  }

  function ColumnOf(fs: seq<Field>): Column {
    Column(ToInt32(IntAt(fs, 2)), DataAt(fs, 3), IntAt(fs, 4) != 0, IntAt(fs, 5) != 0, IntAt(fs, 6) != 0,
      DataAt(fs, 8), DataAt(fs, 10))
  }

  function HeaderOf(fs: seq<Field>): Header {
    Header(DataAt(fs, 2), ToInt64(IntAt(fs, 3)), ToInt64(IntAt(fs, 6)), DataAt(fs, 8), DataAt(fs, 9), DataAt(fs, 13))
  }

  // ---------- the tree ----------

  datatype RowItem = BeforeColumn(fs: seq<Field>) | AfterColumn(fs: seq<Field>) | RowOther(f: Field)
  datatype ChangeItem = ChangeRow(row: seq<RowItem>) | ChangeOther(f: Field)
  datatype EntryItem = EntryHeader(fs: seq<Field>) | EntryStore(change: seq<ChangeItem>) | EntryRawStore(raw: Bytes) | EntryOther(f: Field)
  datatype MessagesItem = MessagesEntry(entry: seq<EntryItem>) | MessagesOther(f: Field)
  datatype PacketItem = PacketBody(messages: seq<MessagesItem>) | PacketRawBody(raw: Bytes) | PacketOther(f: Field)

  /** What the last occurrence of a nested message holds: a tree that is to be read, or just bytes. */
  datatype Nested<T> = Absent | Tree(items: seq<T>) | Raw(raw: Bytes)

  function RowField(it: RowItem): Field {
    match it
    case BeforeColumn(fs) => BytesField(1, EncodeAll(fs))
    case AfterColumn(fs) => BytesField(2, EncodeAll(fs))
    case RowOther(f) => f
  }

  function RowFields(items: seq<RowItem>): seq<Field> {
    if items == [] then [] else RowFields(items[..|items| - 1]) + [RowField(items[|items| - 1])]
  }

  function ChangeField(it: ChangeItem): Field {
    match it
    case ChangeRow(row) => BytesField(12, EncodeAll(RowFields(row)))
    case ChangeOther(f) => f
  }

  function ChangeFields(items: seq<ChangeItem>): seq<Field> {
    if items == [] then [] else ChangeFields(items[..|items| - 1]) + [ChangeField(items[|items| - 1])]
  }

  function EntryField(it: EntryItem): Field {
    match it
    case EntryHeader(fs) => BytesField(1, EncodeAll(fs))
    case EntryStore(change) => BytesField(3, EncodeAll(ChangeFields(change)))
    case EntryRawStore(raw) => BytesField(3, raw)
    case EntryOther(f) => f
  }

  function EntryFields(items: seq<EntryItem>): seq<Field> {
    if items == [] then [] else EntryFields(items[..|items| - 1]) + [EntryField(items[|items| - 1])]
  }

  function MessagesField(it: MessagesItem): Field {
    match it
    case MessagesEntry(entry) => BytesField(2, EncodeAll(EntryFields(entry)))
    case MessagesOther(f) => f
  }

  function MessagesFields(items: seq<MessagesItem>): seq<Field> {
    if items == [] then [] else MessagesFields(items[..|items| - 1]) + [MessagesField(items[|items| - 1])]
  }

  function PacketField(it: PacketItem): Field {
    match it
    case PacketBody(messages) => BytesField(5, EncodeAll(MessagesFields(messages)))
    case PacketRawBody(raw) => BytesField(5, raw)
    case PacketOther(f) => f
  }

  function PacketFields(items: seq<PacketItem>): seq<Field> {
    if items == [] then [] else PacketFields(items[..|items| - 1]) + [PacketField(items[|items| - 1])]
  }

  /** The bytes a producer puts on the topic. */
  function Print(packet: seq<PacketItem>): Bytes {
    EncodeAll(PacketFields(packet))
  }

  // ---------- well-formed trees: right wire types, lengths that fit a Go slice ----------

  ghost predicate RowItemValid(it: RowItem) {
    && RowField(it).Valid()
    && match it
       case BeforeColumn(fs) => AllTyped(fs, ColumnKind)
       case AfterColumn(fs) => AllTyped(fs, ColumnKind)
       case RowOther(f) => f.num != 1 && f.num != 2
  }

  ghost predicate RowValid(row: seq<RowItem>) {
    forall it :: it in row ==> RowItemValid(it)
  }

  ghost predicate ChangeItemValid(it: ChangeItem) {
    && ChangeField(it).Valid()
    && match it
       case ChangeRow(row) => RowValid(row)
       case ChangeOther(f) => f.num != 12 && WellTyped(f, RowChangeKind)
  }

  ghost predicate ChangeValid(change: seq<ChangeItem>) {
    forall it :: it in change ==> ChangeItemValid(it)
  }

  ghost predicate EntryItemValid(it: EntryItem) {
    && EntryField(it).Valid()
    && match it
       case EntryHeader(fs) => AllTyped(fs, HeaderKind)
       case EntryStore(change) => ChangeValid(change)
       case EntryRawStore(_) => true
       case EntryOther(f) => f.num != 1 && f.num != 3 && WellTyped(f, EntryKind)
  }

  /** A store that is not a row change is allowed wherever it is not read: in entries of another type,
      such as the begin and end of a transaction, or where it is empty or a later store replaces it. */
  ghost predicate EntryValid(entry: seq<EntryItem>) {
    && (forall it :: it in entry ==> EntryItemValid(it))
    && (LastStore(entry).Raw? ==> IntAt(EntryFields(entry), 2) != 2 || LastStore(entry).raw == [])
  }

  ghost predicate MessagesItemValid(it: MessagesItem) {
    && MessagesField(it).Valid()
    && match it
       case MessagesEntry(entry) => EntryValid(entry)
       case MessagesOther(f) => f.num != 2 && WellTyped(f, MessagesKind)
  }

  ghost predicate MessagesValid(messages: seq<MessagesItem>) {
    forall it :: it in messages ==> MessagesItemValid(it)
  }

  ghost predicate PacketItemValid(it: PacketItem) {
    && PacketField(it).Valid()
    && match it
       case PacketBody(messages) => MessagesValid(messages)
       case PacketRawBody(_) => true
       case PacketOther(f) => f.num != 5 && WellTyped(f, PacketKind)
  }

  /** A body that is no list of messages is allowed wherever it is not read: in packets of another type,
      in compressed ones, or where a later body replaces it. */
  ghost predicate PacketValid(packet: seq<PacketItem>) {
    && (forall it :: it in packet ==> PacketItemValid(it))
    && (LastBody(packet).Raw? ==> IntAt(PacketFields(packet), 3) != 7 || IntAt(PacketFields(packet), 4) > 1)
  }

  // ---------- what the tree means ----------

  function Columns(row: seq<RowItem>, before: bool): seq<Column> {
    if row == [] then []
    else
      var init, last := Columns(row[..|row| - 1], before), row[|row| - 1];
      if (if before then last.BeforeColumn? else last.AfterColumn?) then init + [ColumnOf(last.fs)] else init
  }

  function RowDataOf(row: seq<RowItem>): RowData {
    RowData(Columns(row, true), Columns(row, false))
  }

  function Rows(change: seq<ChangeItem>): seq<RowData> {
    if change == [] then []
    else
      var init, last := Rows(change[..|change| - 1]), change[|change| - 1];
      if last.ChangeRow? then init + [RowDataOf(last.row)] else init
  }

  function RowChangeOf(change: seq<ChangeItem>): RowChange {
    var fs := ChangeFields(change);
    RowChange(ToInt64(IntAt(fs, 2)), IntAt(fs, 10) != 0, DataAt(fs, 11), Rows(change))
  }

  function LastHeader(entry: seq<EntryItem>): Header {
    if entry == [] then EMPTY_HEADER
    else if entry[|entry| - 1].EntryHeader? then HeaderOf(entry[|entry| - 1].fs)
    else LastHeader(entry[..|entry| - 1])
  }

  function LastStore(entry: seq<EntryItem>): Nested<ChangeItem> {
    if entry == [] then Absent
    else
      match entry[|entry| - 1]
      case EntryStore(change) => Tree(change)
      case EntryRawStore(raw) => Raw(raw)
      case _ => LastStore(entry[..|entry| - 1])
  }

  /** A row image; no column at all is no row. */
  function Image(cols: seq<Column>): Option<Row> {
    if cols == [] then None else Some(RowOf(cols))
  }

  /** All columns that report a type, row by row: of the after image, or of the before image without one. */
  function Typed(rows: seq<RowData>): seq<Column> {
    if rows == [] then []
    else
      var last := rows[|rows| - 1];
      Typed(rows[..|rows| - 1]) + if last.after != [] then last.after else last.before
  }

  /** The event of a change of kind 1 (INSERT), 2 (UPDATE) or 3 (DELETE), field by field. */
  function FlatOf(h: Header, rc: RowChange): Flat
    requires 1 <= rc.eventType <= 3
  {
    var rows := rc.rowDatas;
    Flat(
      h.schemaName, h.tableName, if rc.eventType == 1 then Insert else if rc.eventType == 2 then Update else Delete,
      rc.isDdl, h.executeTime, rc.sql, h.gtid, h.logfile, h.offset,
      seq(|rows|, i requires 0 <= i < |rows| => Image(if rc.eventType == 3 then rows[i].before else rows[i].after)),
      if rc.eventType == 2 then seq(|rows|, i requires 0 <= i < |rows| => Image(rows[i].before)) else [],
      MysqlTypes(map[], Typed(rows)), SqlTypes(map[], Typed(rows)))
  }

  /** The row event an entry carries: only for ROWDATA entries (type 2) with a change of a row-level kind. */
  function EventOf(entry: seq<EntryItem>): Option<Flat> {
    if IntAt(EntryFields(entry), 2) != 2 then None
    else
      match LastStore(entry)
      case Absent => None
      case Raw(_) => None
      case Tree(change) =>
        var rc := RowChangeOf(change);
        if change == [] || !(1 <= rc.eventType <= 3) then None else Some(FlatOf(LastHeader(entry), rc))
  }

  function EventsOfMessages(messages: seq<MessagesItem>): seq<Flat> {
    if messages == [] then []
    else
      var init, last := EventsOfMessages(messages[..|messages| - 1]), messages[|messages| - 1];
      if last.MessagesEntry? && EventOf(last.entry).Some? then init + [EventOf(last.entry).value] else init
  }

  function LastBody(packet: seq<PacketItem>): Nested<MessagesItem> {
    if packet == [] then Absent
    else
      match packet[|packet| - 1]
      case PacketBody(messages) => Tree(messages)
      case PacketRawBody(raw) => Raw(raw)
      case _ => LastBody(packet[..|packet| - 1])
  }

  function EventsOf(packet: seq<PacketItem>): Result<seq<Flat>> {
    var fs := PacketFields(packet);
    if IntAt(fs, 3) != 7 then Ok([])
    else if IntAt(fs, 4) > 1 then Err(BadCompression)
    else Ok(if LastBody(packet).Tree? then EventsOfMessages(LastBody(packet).items) else [])
  }

  // ---------- folding, one more field at the end ----------

  lemma {:induction false} FoldFieldsLast<T>(
    fs: seq<Field>, f: Field, kind: nat -> Kind, step: (T, nat, Item) -> Result<T>, acc: T)
    ensures var r := FoldFields(fs, kind, step, acc);
      FoldFields(fs + [f], kind, step, acc) == if r.Err? then r else step(r.value, f.num, ItemOf(f, kind))
  {
    if fs == [] {
      assert ([f])[1..] == [];
      assert [] + [f] == [f];
      var s := step(acc, f.num, ItemOf(f, kind));
      assert s.Ok? ==> Ok(s.value) == s;
    } else {
      assert (fs + [f])[1..] == fs[1..] + [f];
      var s := step(acc, fs[0].num, ItemOf(fs[0], kind));
      if s.Ok? {
        FoldFieldsLast(fs[1..], f, kind, step, s.value);
      }
    }
  }

  lemma DecodeIsFold<T>(fs: seq<Field>, kind: nat -> Kind, step: (T, nat, Item) -> Result<T>, init: T)
    requires AllTyped(fs, kind)
    ensures Fold(EncodeAll(fs), 0, kind, step, init) == FoldFields(fs, kind, step, init)
  {
    FoldRoundTrip(fs, [], kind, step, init);
    assert [] + EncodeAll(fs) == EncodeAll(fs);
  }

  /** A later field hides earlier ones of its number and no other. */
  lemma LastFieldOf(fs: seq<Field>, f: Field, num: nat)
    ensures LastField(fs + [f], num) == if f.num == num then Some(f) else LastField(fs, num)
  {
    assert (fs + [f])[..|fs|] == fs;
  }

  // ---------- leaf messages ----------

  lemma {:induction false} ColumnFold(fs: seq<Field>)
    requires AllTyped(fs, ColumnKind)
    ensures FoldFields(fs, ColumnKind, ColumnStep, EMPTY_COLUMN) == Ok(ColumnOf(fs))
  {
    if fs != [] {
      var init, f := fs[..|fs| - 1], fs[|fs| - 1];
      assert fs == init + [f];
      ColumnFold(init);
      FoldFieldsLast(init, f, ColumnKind, ColumnStep, EMPTY_COLUMN);
    }
  }

  lemma ColumnRoundTrip(fs: seq<Field>)
    requires AllTyped(fs, ColumnKind)
    ensures DecodeColumn(EncodeAll(fs)) == Ok(ColumnOf(fs))
  {
    DecodeIsFold(fs, ColumnKind, ColumnStep, EMPTY_COLUMN);
    ColumnFold(fs);
  }

  lemma {:induction false} HeaderFold(fs: seq<Field>)
    requires AllTyped(fs, HeaderKind)
    ensures FoldFields(fs, HeaderKind, HeaderStep, EMPTY_HEADER) == Ok(HeaderOf(fs))
  {
    if fs != [] {
      var init, f := fs[..|fs| - 1], fs[|fs| - 1];
      assert fs == init + [f];
      HeaderFold(init);
      FoldFieldsLast(init, f, HeaderKind, HeaderStep, EMPTY_HEADER);
    }
  }

  lemma HeaderRoundTrip(fs: seq<Field>)
    requires AllTyped(fs, HeaderKind)
    ensures DecodeHeader(EncodeAll(fs)) == Ok(HeaderOf(fs))
  {
    DecodeIsFold(fs, HeaderKind, HeaderStep, EMPTY_HEADER);
    HeaderFold(fs);
  }

  // ---------- nested messages ----------

  lemma {:induction false} RowFold(row: seq<RowItem>)
    requires RowValid(row)
    ensures AllTyped(RowFields(row), RowDataKind)
    ensures FoldFields(RowFields(row), RowDataKind, RowDataStep, RowData([], [])) == Ok(RowDataOf(row))
  {
    if row != [] {
      var init, it := row[..|row| - 1], row[|row| - 1];
      RowFold(init);
      assert RowItemValid(it);
      FoldFieldsLast(RowFields(init), RowField(it), RowDataKind, RowDataStep, RowData([], []));
      if !it.RowOther? { ColumnRoundTrip(it.fs); }
    }
  }

  lemma RowRoundTrip(row: seq<RowItem>)
    requires RowValid(row)
    ensures DecodeRowData(EncodeAll(RowFields(row))) == Ok(RowDataOf(row))
  {
    RowFold(row);
    DecodeIsFold(RowFields(row), RowDataKind, RowDataStep, RowData([], []));
  }

  lemma {:induction false} ChangeFold(change: seq<ChangeItem>)
    requires ChangeValid(change)
    ensures AllTyped(ChangeFields(change), RowChangeKind)
    ensures FoldFields(ChangeFields(change), RowChangeKind, RowChangeStep, EMPTY_ROW_CHANGE) == Ok(RowChangeOf(change))
  {
    if change != [] {
      var init, it := change[..|change| - 1], change[|change| - 1];
      var fs, f := ChangeFields(init), ChangeField(it);
      ChangeFold(init);
      assert ChangeItemValid(it);
      FoldFieldsLast(fs, f, RowChangeKind, RowChangeStep, EMPTY_ROW_CHANGE);
      LastFieldOf(fs, f, 2);
      LastFieldOf(fs, f, 10);
      LastFieldOf(fs, f, 11);
      if it.ChangeRow? { RowRoundTrip(it.row); }
    }
  }

  lemma ChangeRoundTrip(change: seq<ChangeItem>)
    requires ChangeValid(change)
    ensures DecodeRowChange(EncodeAll(ChangeFields(change))) == Ok(RowChangeOf(change))
  {
    ChangeFold(change);
    DecodeIsFold(ChangeFields(change), RowChangeKind, RowChangeStep, EMPTY_ROW_CHANGE);
  }

  // ---------- the event is built row by row ----------

  lemma {:induction false} TypesAppend(mysql: map<Text, Text>, sql: map<Text, int>, cols: seq<Column>, more: seq<Column>)
    ensures MysqlTypes(mysql, cols + more) == MysqlTypes(MysqlTypes(mysql, cols), more)
    ensures SqlTypes(sql, cols + more) == SqlTypes(SqlTypes(sql, cols), more)
    decreases |cols|
  {
    if cols == [] {
      assert cols + more == more;
    } else {
      var c := cols[0];
      assert (cols + more)[0] == c && (cols + more)[1..] == cols[1..] + more;
      TypesAppend(if c.name in mysql then mysql else mysql[c.name := c.mysqlType], if c.name in sql then sql else sql[c.name := c.sqlType], cols[1..], more);
    }
  }

  lemma {:induction false} RowsKeepTheRest(fm: Flat, rows: seq<RowData>)
    ensures var r := AddRows(fm, rows);
      r == fm.(data := r.data, olds := r.olds, mysqlTypes := r.mysqlTypes, sqlTypes := r.sqlTypes)
    ensures AddRows(fm, rows).mysqlTypes == MysqlTypes(fm.mysqlTypes, Typed(rows)) && AddRows(fm, rows).sqlTypes == SqlTypes(fm.sqlTypes, Typed(rows))
  {
    if rows != [] {
      var init, last := rows[..|rows| - 1], rows[|rows| - 1];
      RowsKeepTheRest(fm, init);
      TypesAppend(fm.mysqlTypes, fm.sqlTypes, Typed(init), TypedColumns(last));
    }
  }

  lemma FlatIsBuilt(h: Header, rc: RowChange)
    requires DmlOf(rc.eventType).Some?
    ensures 1 <= rc.eventType <= 3 && AddRows(NewFlat(h, DmlOf(rc.eventType).value, rc), rc.rowDatas) == FlatOf(h, rc)
  {
    var fm, rows := NewFlat(h, DmlOf(rc.eventType).value, rc), rc.rowDatas;
    var r := AddRows(fm, rows);
    RowsKeepTheRest(fm, rows);
    RowsAreCounted(fm, rows);
    forall i | 0 <= i < |rows| ensures r.data[i] == FlatOf(h, rc).data[i] && (rc.eventType == 2 ==> r.olds[i] == FlatOf(h, rc).olds[i]) {
      RowKeepsItsImages(fm, rows, i);
    }
    assert r.data == FlatOf(h, rc).data && r.olds == FlatOf(h, rc).olds;
  }

  function StoreBytes(entry: seq<EntryItem>): Bytes {
    match LastStore(entry)
    case Absent => []
    case Tree(change) => EncodeAll(ChangeFields(change))
    case Raw(raw) => raw
  }

  function DecodedEntry(entry: seq<EntryItem>): Entry {
    Entry(LastHeader(entry), ToInt64(IntAt(EntryFields(entry), 2)), StoreBytes(entry))
  }

  lemma {:induction false} EntryFold(entry: seq<EntryItem>)
    requires forall it :: it in entry ==> EntryItemValid(it)
    ensures AllTyped(EntryFields(entry), EntryKind) && (LastStore(entry).Tree? ==> ChangeValid(LastStore(entry).items))
    ensures FoldFields(EntryFields(entry), EntryKind, EntryStep, EMPTY_ENTRY) == Ok(DecodedEntry(entry))
  {
    if entry != [] {
      var init, it := entry[..|entry| - 1], entry[|entry| - 1];
      var fs, f := EntryFields(init), EntryField(it);
      EntryFold(init);
      assert EntryItemValid(it);
      FoldFieldsLast(fs, f, EntryKind, EntryStep, EMPTY_ENTRY);
      LastFieldOf(fs, f, 2);
      if it.EntryHeader? { HeaderRoundTrip(it.fs); }
    }
  }

  lemma NonEmptyEncodes(change: seq<ChangeItem>)
    ensures EncodeAll(ChangeFields(change)) == [] <==> change == []
  {
    if change != [] {
      assert ChangeFields(change) != [];
    }
  }

  lemma EntryRoundTrip(entry: seq<EntryItem>)
    requires EntryValid(entry)
    ensures EntryToFlat(EncodeAll(EntryFields(entry))) == Ok(EventOf(entry))
  {
    EntryFold(entry);
    DecodeIsFold(EntryFields(entry), EntryKind, EntryStep, EMPTY_ENTRY);
    if LastStore(entry).Tree? {
      var change := LastStore(entry).items;
      NonEmptyEncodes(change);
      ChangeRoundTrip(change);
      if DmlOf(RowChangeOf(change).eventType).Some? { FlatIsBuilt(LastHeader(entry), RowChangeOf(change)); }
    }
  }

  /** An entry that begins or ends a transaction carries no row event, whatever its store holds. */
  lemma OtherEntriesAreSkipped(entry: seq<EntryItem>)
    requires forall it :: it in entry ==> EntryItemValid(it)
    requires IntAt(EntryFields(entry), 2) != 2
    ensures EntryToFlat(EncodeAll(EntryFields(entry))) == Ok(None)
  {
    EntryRoundTrip(entry);
  }

  function EntryBytes(messages: seq<MessagesItem>): seq<Bytes> {
    if messages == [] then []
    else
      var init, last := EntryBytes(messages[..|messages| - 1]), messages[|messages| - 1];
      if last.MessagesEntry? then init + [EncodeAll(EntryFields(last.entry))] else init
  }

  lemma {:induction false} MessagesFold(messages: seq<MessagesItem>)
    requires MessagesValid(messages)
    ensures AllTyped(MessagesFields(messages), MessagesKind)
    ensures FoldFields(MessagesFields(messages), MessagesKind, MessagesStep, Messages(0, []))
         == Ok(Messages(ToInt64(IntAt(MessagesFields(messages), 1)), EntryBytes(messages)))
    ensures EntriesToFlats(EntryBytes(messages)) == Ok(EventsOfMessages(messages))
  {
    hide EntryToFlat, EventOf, EncodeAll, EntryFields;
    if messages != [] {
      var init, it := messages[..|messages| - 1], messages[|messages| - 1];
      var fs, f := MessagesFields(init), MessagesField(it);
      MessagesFold(init);
      assert MessagesItemValid(it);
      FoldFieldsLast(fs, f, MessagesKind, MessagesStep, Messages(0, []));
      LastFieldOf(fs, f, 1);
      if it.MessagesEntry? {
        EntryRoundTrip(it.entry);
        assert EntryBytes(messages)[..|EntryBytes(init)|] == EntryBytes(init);
      }
    }
  }

  function BodyBytes(packet: seq<PacketItem>): Bytes {
    match LastBody(packet)
    case Absent => []
    case Tree(messages) => EncodeAll(MessagesFields(messages))
    case Raw(raw) => raw
  }

  lemma {:induction false} PacketFold(packet: seq<PacketItem>)
    requires forall it :: it in packet ==> PacketItemValid(it)
    ensures AllTyped(PacketFields(packet), PacketKind) && (LastBody(packet).Tree? ==> MessagesValid(LastBody(packet).items))
    ensures var fs := PacketFields(packet);
      FoldFields(fs, PacketKind, PacketStep, Packet(0, 0, []))
      == Ok(Packet(ToInt64(IntAt(fs, 3)), ToInt64(IntAt(fs, 4)), BodyBytes(packet)))
  {
    if packet != [] {
      var init, it := packet[..|packet| - 1], packet[|packet| - 1];
      var fs, f := PacketFields(init), PacketField(it);
      PacketFold(init);
      assert PacketItemValid(it);
      FoldFieldsLast(fs, f, PacketKind, PacketStep, Packet(0, 0, []));
      LastFieldOf(fs, f, 3);
      LastFieldOf(fs, f, 4);
    }
  }

  /** Decoding what a producer printed gives exactly the row events of the tree, in order. */
  lemma DecodeMessageRoundTrip(packet: seq<PacketItem>)
    requires PacketValid(packet)
    ensures DecodeMessage(Print(packet)) == EventsOf(packet)
  {
    var fs := PacketFields(packet);
    PacketFold(packet);
    DecodeIsFold(fs, PacketKind, PacketStep, Packet(0, 0, []));
    var messages := if LastBody(packet).Tree? then LastBody(packet).items else [];
    MessagesFold(messages);
    DecodeIsFold(MessagesFields(messages), MessagesKind, MessagesStep, Messages(0, []));
    if Print(packet) == [] {
      assert fs == [];
    }
  }
}
