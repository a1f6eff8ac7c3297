/** Decoding a Canal packet into row events: seven protobuf messages, each a fold over its
    fields with a table of the numbers it knows and a step that files one of them. */
module CanalCodec {
  import opened Wire

  datatype Option<+T> = None | Some(value: T)

  /** Go strings are byte sequences. */
  type Text = Bytes

  // ---------- Go integer conversions of a uint64 ----------

  function ToInt64(v: nat): int
    requires v < U64
  {
    if v < U64 / 2 then v else v - U64
  }

  function ToInt32(v: nat): int {
    var low := v % 0x1_0000_0000;
    if low < 0x8000_0000 then low else low - 0x1_0000_0000
  }

  /** The conversions keep the value modulo the width and land in the signed range. */
  lemma ConversionsWrap(v: nat)
    requires v < U64
    ensures -0x8000_0000_0000_0000 <= ToInt64(v) < 0x8000_0000_0000_0000 && (v - ToInt64(v)) % 0x1_0000_0000_0000_0000 == 0
    ensures -0x8000_0000 <= ToInt32(v) < 0x8000_0000 && (v - ToInt32(v)) % 0x1_0000_0000 == 0
  {
    assert v - ToInt32(v) == 0x1_0000_0000 * (v / 0x1_0000_0000 + if v % 0x1_0000_0000 < 0x8000_0000 then 0 else 1);
    MultipleIsZero(v / 0x1_0000_0000 + if v % 0x1_0000_0000 < 0x8000_0000 then 0 else 1);
  }

  lemma MultipleIsZero(n: nat)
    ensures (0x1_0000_0000 * n) % 0x1_0000_0000 == 0
  {
  }

  // ---------- messages ----------

  datatype Header = Header(logfile: Text, offset: int, executeTime: int, schemaName: Text, tableName: Text, gtid: Text)
  datatype Column = Column(sqlType: int, name: Text, isKey: bool, updated: bool, isNull: bool, value: Text, mysqlType: Text)
  datatype RowData = RowData(before: seq<Column>, after: seq<Column>)
  datatype RowChange = RowChange(eventType: int, isDdl: bool, sql: Text, rowDatas: seq<RowData>)
  datatype Entry = Entry(header: Header, entryType: int, storeValue: Bytes)
  datatype Messages = Messages(batchId: int, entries: seq<Bytes>)
  datatype Packet = Packet(messageType: int, compression: int, body: Bytes)

  const EMPTY_HEADER := Header([], 0, 0, [], [], [])
  const EMPTY_COLUMN := Column(0, [], false, false, false, [], [])
  const EMPTY_ROW_CHANGE := RowChange(0, false, [], [])
  const EMPTY_ENTRY := Entry(EMPTY_HEADER, 0, [])

  const PACKET_TYPE_MESSAGES := 7
  const COMPRESSION_PROTO2_NONE := 0
  const COMPRESSION_NONE := 1
  const ENTRY_TYPE_ROW_DATA := 2

  function Int(item: Item): (v: nat)
    ensures v < U64
  {
    if item.IntItem? && item.v < U64 then item.v else 0
  }

  function Data(item: Item): Bytes {
    if item.BytesItem? then item.data else []
  }

  function HeaderKind(num: nat): Kind {
    if num in {3, 6} then IntKind else if num in {2, 8, 9, 13} then BytesKind else SkipKind
  }

  function HeaderStep(h: Header, num: nat, item: Item): Result<Header> {
    match num
    case 2 => Ok(h.(logfile := Data(item)))
    case 3 => Ok(h.(offset := ToInt64(Int(item))))
    case 6 => Ok(h.(executeTime := ToInt64(Int(item))))
    case 8 => Ok(h.(schemaName := Data(item)))
    case 9 => Ok(h.(tableName := Data(item)))
    case 13 => Ok(h.(gtid := Data(item)))
    case _ => Ok(h)
  }

  function DecodeHeader(b: Bytes): Result<Header> {
    Fold(b, 0, HeaderKind, HeaderStep, EMPTY_HEADER)
  }

  function ColumnKind(num: nat): Kind {
    if num in {2, 4, 5, 6} then IntKind else if num in {3, 8, 10} then BytesKind else SkipKind
  }

  function ColumnStep(c: Column, num: nat, item: Item): Result<Column> {
    match num
    case 2 => Ok(c.(sqlType := ToInt32(Int(item))))
    case 3 => Ok(c.(name := Data(item)))
    case 4 => Ok(c.(isKey := Int(item) != 0))
    case 5 => Ok(c.(updated := Int(item) != 0))
    case 6 => Ok(c.(isNull := Int(item) != 0))
    case 8 => Ok(c.(value := Data(item)))
    case 10 => Ok(c.(mysqlType := Data(item)))
    case _ => Ok(c)
  }

  function DecodeColumn(b: Bytes): Result<Column> {
    Fold(b, 0, ColumnKind, ColumnStep, EMPTY_COLUMN)
  }

  function RowDataKind(num: nat): Kind {
    if num in {1, 2} then BytesKind else SkipKind
  }

  function RowDataStep(rd: RowData, num: nat, item: Item): Result<RowData> {
    if num == 1 || num == 2 then
      var c :- DecodeColumn(Data(item));
      Ok(if num == 1 then rd.(before := rd.before + [c]) else rd.(after := rd.after + [c]))
    else Ok(rd)
  }

  function DecodeRowData(b: Bytes): Result<RowData> {
    Fold(b, 0, RowDataKind, RowDataStep, RowData([], []))
  }

  function RowChangeKind(num: nat): Kind {
    if num in {2, 10} then IntKind else if num in {11, 12} then BytesKind else SkipKind
  }

  function RowChangeStep(rc: RowChange, num: nat, item: Item): Result<RowChange> {
    match num
    case 2 => Ok(rc.(eventType := ToInt64(Int(item))))
    case 10 => Ok(rc.(isDdl := Int(item) != 0))
    case 11 => Ok(rc.(sql := Data(item)))
    case 12 => var rd :- DecodeRowData(Data(item)); Ok(rc.(rowDatas := rc.rowDatas + [rd]))
    case _ => Ok(rc)
  }

  function DecodeRowChange(b: Bytes): Result<RowChange> {
    Fold(b, 0, RowChangeKind, RowChangeStep, EMPTY_ROW_CHANGE)
  }

  /** storeValue is read as bytes without looking at its wire type. */
  function EntryKind(num: nat): Kind {
    if num == 1 then BytesKind else if num == 2 then IntKind else if num == 3 then AnyBytesKind else SkipKind
  }

  function EntryStep(e: Entry, num: nat, item: Item): Result<Entry> {
    match num
    case 1 => var h :- DecodeHeader(Data(item)); Ok(e.(header := h))
    case 2 => Ok(e.(entryType := ToInt64(Int(item))))
    case 3 => Ok(e.(storeValue := Data(item)))
    case _ => Ok(e)
  }

  function DecodeEntry(b: Bytes): Result<Entry> {
    Fold(b, 0, EntryKind, EntryStep, EMPTY_ENTRY)
  }

  function MessagesKind(num: nat): Kind {
    if num == 1 then IntKind else if num == 2 then BytesKind else SkipKind
  }

  function MessagesStep(m: Messages, num: nat, item: Item): Result<Messages> {
    match num
    case 1 => Ok(m.(batchId := ToInt64(Int(item))))
    case 2 => Ok(m.(entries := m.entries + [Data(item)]))
    case _ => Ok(m)
  }

  function DecodeMessages(b: Bytes): Result<Messages> {
    Fold(b, 0, MessagesKind, MessagesStep, Messages(0, []))
  }

  /** body, too, is read without looking at its wire type. */
  function PacketKind(num: nat): Kind {
    if num in {3, 4} then IntKind else if num == 5 then AnyBytesKind else SkipKind
  }

  function PacketStep(p: Packet, num: nat, item: Item): Result<Packet> {
    match num
    case 3 => Ok(p.(messageType := ToInt64(Int(item))))
    case 4 => Ok(p.(compression := ToInt64(Int(item))))
    case 5 => Ok(p.(body := Data(item)))
    case _ => Ok(p)
  }

  function DecodePacket(b: Bytes): Result<Packet> {
    Fold(b, 0, PacketKind, PacketStep, Packet(0, 0, []))
  }

  // ---------- row events ----------

  /** A row image: column name to value, None standing for SQL NULL. */
  type Row = map<Text, Option<Text>>

  datatype Dml = Insert | Update | Delete

  /** One ROWDATA event. A row without columns is a nil map in the source: None here. */
  datatype Flat = Flat(
    database: Text, table: Text, dml: Dml, isDdl: bool, es: int, sql: Text, gtid: Text, binlogFile: Text,
    binlogPosition: int, data: seq<Option<Row>>, olds: seq<Option<Row>>,
    mysqlTypes: map<Text, Text>, sqlTypes: map<Text, int>)

  function DmlOf(eventType: int): Option<Dml> {
    match eventType
    case 1 => Some(Insert)
    case 2 => Some(Update)
    case 3 => Some(Delete)
    case _ => None
  }

  /** What a column contributes to a row. */
  function CellOf(c: Column): Option<Text> {
    if c.isNull then None else Some(c.value)
  }

  function RowOf(cols: seq<Column>): Row {
    if cols == [] then map[]
    else
      var last := cols[|cols| - 1];
      RowOf(cols[..|cols| - 1])[last.name := CellOf(last)]
  }

  function ImageOf(cols: seq<Column>): Option<Row> {
    if cols == [] then None else Some(RowOf(cols))
  }

  /** A row maps the names of its columns and no other. */
  lemma {:induction false} RowOfKeys(cols: seq<Column>, name: Text)
    ensures name in RowOf(cols) <==> exists c :: c in cols && c.name == name
  {
    if cols != [] {
      var init, last := cols[..|cols| - 1], cols[|cols| - 1];
      RowOfKeys(init, name);
      assert forall c :: c in cols <==> c in init || c == last;
    }
  }

  /** A name maps to the cell of the last column that carries it. */
  lemma {:induction false} RowOfCell(cols: seq<Column>, i: nat)
    requires i < |cols|
    requires forall j :: i < j < |cols| ==> cols[j].name != cols[i].name
    ensures cols[i].name in RowOf(cols)
    ensures RowOf(cols)[cols[i].name] == if cols[i].isNull then None else Some(cols[i].value)
  {
    if i < |cols| - 1 {
      RowOfCell(cols[..|cols| - 1], i);
    }
  }

  /** The columns a row reports types for: the after image, or the before image when there is none. */
  function TypedColumns(rd: RowData): seq<Column> {
    if rd.after == [] then rd.before else rd.after
  }

  /** The first column of a name decides its type. */
  function MysqlTypes(known: map<Text, Text>, cols: seq<Column>): map<Text, Text>
    decreases |cols|
  {
    if cols == [] then known
    else
      var c := cols[0];
      MysqlTypes(if c.name in known then known else known[c.name := c.mysqlType], cols[1..])
  }

  function SqlTypes(known: map<Text, int>, cols: seq<Column>): map<Text, int>
    decreases |cols|
  {
    if cols == [] then known
    else
      var c := cols[0];
      SqlTypes(if c.name in known then known else known[c.name := c.sqlType], cols[1..])
  }

  /** The types gathered are those known before, and for any other name those of its first column. */
  lemma {:induction false} TypesAreFirst(mysql: map<Text, Text>, sql: map<Text, int>, cols: seq<Column>, i: nat)
    requires i < |cols| && forall j :: 0 <= j < i ==> cols[j].name != cols[i].name
    ensures var n, m, s := cols[i].name, MysqlTypes(mysql, cols), SqlTypes(sql, cols);
      && n in m && m[n] == (if n in mysql then mysql[n] else cols[i].mysqlType)
      && n in s && s[n] == (if n in sql then sql[n] else cols[i].sqlType)
    decreases |cols|
  {
    var c := cols[0];
    var mysql', sql' := if c.name in mysql then mysql else mysql[c.name := c.mysqlType], if c.name in sql then sql else sql[c.name := c.sqlType];
    if i == 0 {
      KnownTypesStay(mysql', sql', cols[1..], c.name);
    } else {
      TypesAreFirst(mysql', sql', cols[1..], i - 1);
    }
  }

  lemma {:induction false} KnownTypesStay(mysql: map<Text, Text>, sql: map<Text, int>, cols: seq<Column>, name: Text)
    ensures name in mysql ==> name in MysqlTypes(mysql, cols) && MysqlTypes(mysql, cols)[name] == mysql[name]
    ensures name in sql ==> name in SqlTypes(sql, cols) && SqlTypes(sql, cols)[name] == sql[name]
    decreases |cols|
  {
    if cols != [] {
      var c := cols[0];
      KnownTypesStay(if c.name in mysql then mysql else mysql[c.name := c.mysqlType], if c.name in sql then sql else sql[c.name := c.sqlType], cols[1..], name);
    }
  }

  /** The event with one more row. DELETE rows carry their before image as data. */
  function AddRow(fm: Flat, rd: RowData): Flat {
    var fm := fm.(mysqlTypes := MysqlTypes(fm.mysqlTypes, TypedColumns(rd)), sqlTypes := SqlTypes(fm.sqlTypes, TypedColumns(rd)));
    match fm.dml
    case Insert => fm.(data := fm.data + [ImageOf(rd.after)])
    case Update => fm.(data := fm.data + [ImageOf(rd.after)], olds := fm.olds + [ImageOf(rd.before)])
    case Delete => fm.(data := fm.data + [ImageOf(rd.before)])
  }

  function AddRows(fm: Flat, rows: seq<RowData>): Flat {
    if rows == [] then fm else AddRow(AddRows(fm, rows[..|rows| - 1]), rows[|rows| - 1])
  }

  lemma {:induction false} RowsAreCounted(fm: Flat, rows: seq<RowData>)
    requires fm.data == [] && fm.olds == []
    ensures var r := AddRows(fm, rows);
      r.dml == fm.dml && |r.data| == |rows| && |r.olds| == if r.dml.Update? then |rows| else 0
  {
    if rows != [] {
      RowsAreCounted(fm, rows[..|rows| - 1]);
    }
  }

  /** Row i of an event is row i of the change, and an UPDATE pairs it with its own old image. */
  lemma {:induction false} RowKeepsItsImages(fm: Flat, rows: seq<RowData>, i: nat)
    requires fm.data == [] && fm.olds == [] && i < |rows|
    ensures |AddRows(fm, rows).data| == |rows|
    ensures AddRows(fm, rows).data[i] == ImageOf(if fm.dml.Delete? then rows[i].before else rows[i].after)
    ensures fm.dml.Update? ==> |AddRows(fm, rows).olds| == |rows| && AddRows(fm, rows).olds[i] == ImageOf(rows[i].before)
  {
    var init := rows[..|rows| - 1];
    RowsAreCounted(fm, rows);
    RowsAreCounted(fm, init);
    if i < |init| {
      assert init[i] == rows[i];
      RowKeepsItsImages(fm, init, i);
    }
  }

  function NewFlat(h: Header, dml: Dml, rc: RowChange): Flat {
    Flat(h.schemaName, h.tableName, dml, rc.isDdl, h.executeTime, rc.sql, h.gtid, h.logfile, h.offset,
      [], [], map[], map[])
  }

  /** The event of one entry, or None for anything that is not a row-level INSERT, UPDATE or DELETE. */
  function EntryToFlat(eb: Bytes): Result<Option<Flat>> {
    var e :- DecodeEntry(eb);
    if e.entryType != ENTRY_TYPE_ROW_DATA || e.storeValue == [] then Ok(None)
    else
      var rc :- DecodeRowChange(e.storeValue);
      match DmlOf(rc.eventType)
      case None => Ok(None)
      case Some(dml) => Ok(Some(AddRows(NewFlat(e.header, dml, rc), rc.rowDatas)))
  }

  /** The events of all entries, in order; the first entry that fails fails the message. */
  function EntriesToFlats(entries: seq<Bytes>): Result<seq<Flat>> {
    if entries == [] then Ok([])
    else
      var before :- EntriesToFlats(entries[..|entries| - 1]);
      var fm :- EntryToFlat(entries[|entries| - 1]);
      Ok(if fm.Some? then before + [fm.value] else before)
  }

  function DecodeMessage(value: Bytes): Result<seq<Flat>> {
    if value == [] then Ok([])
    else
      var p :- DecodePacket(value);
      if p.messageType != PACKET_TYPE_MESSAGES then Ok([])
      else if p.compression != COMPRESSION_NONE && p.compression != COMPRESSION_PROTO2_NONE then Err(BadCompression)
      else
        var m :- DecodeMessages(p.body);
        EntriesToFlats(m.entries)
  }

  // ---------- the same, step by step ----------

  /** The field loop all seven message decoders share. */
  method FoldMessage<T(0)>(b: Bytes, kind: nat -> Kind, step: (T, nat, Item) -> Result<T>, init: T) returns (r: Result<T>)
    ensures r == Fold(b, 0, kind, step, init)
  {
    var acc := init;
    var reader := new Reader(b);
    while !reader.Done()
      invariant reader.b == b && reader.Valid() && fresh(reader)
      invariant Fold(b, reader.off, kind, step, acc) == Fold(b, 0, kind, step, init)
      decreases |b| - reader.off
    {
      var field := reader.Field(kind);
      if field.Err? {
        return Err(field.error);
      }
      var (num, item) := field.value;
      var next := step(acc, num, item);
      if next.Err? {
        return Err(next.error);
      }
      acc := next.value;
    }
    return Ok(acc);
  }

  method BuildRow(cols: seq<Column>) returns (image: Option<Row>)
    ensures image == ImageOf(cols)
  {
    if |cols| == 0 {
      return None;
    }
    var m: Row := map[];
    for i := 0 to |cols|
      invariant m == RowOf(cols[..i])
    {
      assert cols[..i + 1][..i] == cols[..i];
      m := m[cols[i].name := if cols[i].isNull then None else Some(cols[i].value)];
    }
    assert cols[..|cols|] == cols;
    return Some(m);
  }

  method FillTypes(mysql: map<Text, Text>, sql: map<Text, int>, rd: RowData) returns (mysql': map<Text, Text>, sql': map<Text, int>)
    ensures mysql' == MysqlTypes(mysql, TypedColumns(rd)) && sql' == SqlTypes(sql, TypedColumns(rd))
  {
    var cols := rd.after;
    if |cols| == 0 {
      cols := rd.before;
    }
    mysql', sql' := mysql, sql;
    for i := 0 to |cols|
      invariant MysqlTypes(mysql', cols[i..]) == MysqlTypes(mysql, cols)
      invariant SqlTypes(sql', cols[i..]) == SqlTypes(sql, cols)
    {
      var c := cols[i];
      assert cols[i..][0] == c && cols[i..][1..] == cols[i + 1..];
      if c.name !in mysql' {
        mysql' := mysql'[c.name := c.mysqlType];
      }
      if c.name !in sql' {
        sql' := sql'[c.name := c.sqlType];
      }
    }
  }

  method AppendRow(fm: Flat, rd: RowData) returns (fm': Flat)
    ensures fm' == AddRow(fm, rd)
  {
    var after := BuildRow(rd.after);
    var before := BuildRow(rd.before);
    var mysql, sql := FillTypes(fm.mysqlTypes, fm.sqlTypes, rd);
    fm' := fm.(mysqlTypes := mysql, sqlTypes := sql);
    match fm.dml {
      case Insert => fm' := fm'.(data := fm'.data + [after]);
      case Update => fm' := fm'.(data := fm'.data + [after], olds := fm'.olds + [before]);
      case Delete => fm' := fm'.(data := fm'.data + [before]);
    }
  }

  method BuildFlat(eb: Bytes) returns (r: Result<Option<Flat>>)
    ensures r == EntryToFlat(eb)
  {
    var entry := FoldMessage(eb, EntryKind, EntryStep, EMPTY_ENTRY);
    if entry.Err? {
      return Err(entry.error);
    }
    var e := entry.value;
    if e.entryType != ENTRY_TYPE_ROW_DATA || |e.storeValue| == 0 {
      return Ok(None);
    }
    var change := FoldMessage(e.storeValue, RowChangeKind, RowChangeStep, EMPTY_ROW_CHANGE);
    if change.Err? {
      return Err(change.error);
    }
    var rc := change.value;
    var dml := DmlOf(rc.eventType);
    if dml.None? {
      return Ok(None);
    }
    var fm := NewFlat(e.header, dml.value, rc);
    for i := 0 to |rc.rowDatas|
      invariant fm == AddRows(NewFlat(e.header, dml.value, rc), rc.rowDatas[..i])
    {
      assert rc.rowDatas[..i + 1][..i] == rc.rowDatas[..i];
      fm := AppendRow(fm, rc.rowDatas[i]);
    }
    assert rc.rowDatas[..|rc.rowDatas|] == rc.rowDatas;
    return Ok(Some(fm));
  }

  method DecodeValue(value: Bytes) returns (r: Result<seq<Flat>>)
    ensures r == DecodeMessage(value)
  {
    if |value| == 0 {
      return Ok([]);
    }
    var packet := FoldMessage(value, PacketKind, PacketStep, Packet(0, 0, []));
    if packet.Err? {
      return Err(packet.error);
    }
    var p := packet.value;
    if p.messageType != PACKET_TYPE_MESSAGES {
      return Ok([]);
    }
    if p.compression != COMPRESSION_NONE && p.compression != COMPRESSION_PROTO2_NONE {
      return Err(BadCompression);
    }
    var messages := FoldMessage(p.body, MessagesKind, MessagesStep, Messages(0, []));
    if messages.Err? {
      return Err(messages.error);
    }
    var entries := messages.value.entries;
    var out := [];
    for i := 0 to |entries|
      invariant EntriesToFlats(entries[..i]) == Ok(out)
    {
      assert entries[..i + 1][..i] == entries[..i];
      var fm := BuildFlat(entries[i]);
      if fm.Err? {
        EntryErrorIsFinal(entries, i);
        return Err(fm.error);
      }
      if fm.value.Some? {
        out := out + [fm.value.value];
      }
    }
    assert entries[..|entries|] == entries;
    return Ok(out);
  }

  lemma {:induction false} EntryErrorIsFinal(entries: seq<Bytes>, i: nat)
    requires i < |entries| && EntriesToFlats(entries[..i]).Ok? && EntryToFlat(entries[i]).Err?
    ensures EntriesToFlats(entries) == Err(EntryToFlat(entries[i]).error)
    decreases |entries|
  {
    var n := |entries| - 1;
    hide EntryToFlat;
    if i < n {
      assert entries[..n][..i] == entries[..i];
      EntryErrorIsFinal(entries[..n], i);
    } else {
      assert entries[..n] == entries[..i];
    }
  }
}
