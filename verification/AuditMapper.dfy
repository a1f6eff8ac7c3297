/** From row events to audit records: masking, rebuilding the before image, the column diff,
    and the key that makes a replayed row idempotent. */
module AuditMapper {
  import opened Wire
  import opened CanalCodec

  // ---------- masking ----------

  function Masked(fields: set<Text>, replacement: Text, row: Row): (out: Row)
    ensures out.Keys == row.Keys
  {
    map c | c in row :: if c in fields then Some(replacement) else row[c]
  }

  class Sanitizer {
    const fields: set<Text>
    const replacement: Text

    constructor (names: seq<Text>, replacement: Text)
      ensures fields == (set f | f in names) && this.replacement == replacement
    {
      var seen: set<Text> := {};
      for i := 0 to |names|
        invariant seen == set f | f in names[..i]
      {
        seen := seen + {names[i]};
      }
      assert names[..|names|] == names;
      fields := seen;
      this.replacement := replacement;
    }

    /** A masked copy: a masked column reads the replacement, any other keeps its value; a nil row stays nil. */
    method MaskRow(row: Option<Row>) returns (out: Option<Row>)
      ensures out == if row.None? then None else Some(Masked(fields, replacement, row.value))
      ensures row.Some? ==> out.value.Keys == row.value.Keys
      ensures row.Some? ==> forall c :: c in row.value ==> out.value[c] == if c in fields then Some(replacement) else row.value[c]
    {
      if row.None? {
        return None;
      }
      var copy: Row := map[];
      var todo := row.value.Keys;
      while todo != {}
        invariant todo <= row.value.Keys && copy.Keys == row.value.Keys - todo
        invariant forall c :: c in copy ==> copy[c] == Masked(fields, replacement, row.value)[c]
        decreases todo
      {
        var c :| c in todo;
        if c in fields {
          copy := copy[c := Some(replacement)];
        } else {
          copy := copy[c := row.value[c]];
        }
        todo := todo - {c};
      }
      assert copy == Masked(fields, replacement, row.value);
      return Some(copy);
    }
  }

  // ---------- before image ----------

  function Rebuilt(current: Row, oldColumns: Row): Row {
    current + oldColumns
  }

  /** An old column has its old value, whatever the current row says; the others are as they are now. */
  method RebuildBeforeRow(current: Row, oldColumns: Row) returns (before: Row)
    ensures before == Rebuilt(current, oldColumns)
    ensures forall c :: c in before <==> c in current || c in oldColumns
    ensures forall c :: c in oldColumns ==> before[c] == oldColumns[c]
    ensures forall c :: c in current && c !in oldColumns ==> before[c] == current[c]
  {
    before := current;
    var todo := oldColumns.Keys;
    while todo != {}
      invariant todo <= oldColumns.Keys
      invariant before.Keys == current.Keys + (oldColumns.Keys - todo)
      invariant forall c :: c in before ==> before[c] == if c in oldColumns && c !in todo then oldColumns[c] else current[c]
      decreases todo
    {
      var c :| c in todo;
      before := before[c := oldColumns[c]];
      todo := todo - {c};
    }
  }

  // ---------- diff ----------

  /** What changed in one column; a column gone from the after row keeps only its old value. */
  datatype Change = Changed(was: Option<Text>, now: Option<Text>) | Gone(was: Option<Text>)

  const CREATED_BY: Text := [99, 114, 101, 97, 116, 101, 100, 95, 98, 121]
  const UPDATED_BY: Text := [117, 112, 100, 97, 116, 101, 100, 95, 98, 121]
  const REQUEST_ID: Text := [114, 101, 113, 117, 101, 115, 116, 95, 105, 100]
  const CREATE_TIME: Text := [99, 114, 101, 97, 116, 101, 95, 116, 105, 109, 101]
  const UPDATE_TIME: Text := [117, 112, 100, 97, 116, 101, 95, 116, 105, 109, 101]

  /** Technical columns, never part of a diff. */
  const IGNORED: set<Text> := {CREATED_BY, UPDATED_BY, REQUEST_ID, CREATE_TIME, UPDATE_TIME}

  /** A Go map lookup: a missing column reads as nil, like a NULL one. */
  function Lookup(row: Row, c: Text): Option<Text> {
    if c in row then row[c] else None
  }

  function ChangeOf(before: Row, after: Row, c: Text): Option<Change> {
    if c in IGNORED then None
    else if c in after then
      if Lookup(before, c) != after[c] then Some(Changed(Lookup(before, c), after[c])) else None
    else if c in before then Some(Gone(before[c]))
    else None
  }

  function DiffOf(before: Row, after: Row): map<Text, Change> {
    map c | c in before.Keys + after.Keys && ChangeOf(before, after, c).Some? :: ChangeOf(before, after, c).value
  }

  method DiffChangedColumns(before: Row, after: Row) returns (changed: map<Text, Change>)
    ensures changed == DiffOf(before, after)
  {
    changed := map[];
    var todo := after.Keys;
    while todo != {}
      invariant todo <= after.Keys
      invariant forall c :: c in changed <==> c in after && c !in todo && ChangeOf(before, after, c).Some?
      invariant forall c :: c in changed ==> ChangeOf(before, after, c) == Some(changed[c])
      decreases todo
    {
      var c :| c in todo;
      todo := todo - {c};
      if c !in IGNORED {
        var was := Lookup(before, c);
        if was != after[c] {
          changed := changed[c := Changed(was, after[c])];
        }
      }
    }
    todo := before.Keys;
    while todo != {}
      invariant todo <= before.Keys
      invariant forall c :: c in changed <==> (c in after || (c in before && c !in todo)) && ChangeOf(before, after, c).Some?
      invariant forall c :: c in changed ==> ChangeOf(before, after, c) == Some(changed[c])
      decreases todo
    {
      var c :| c in todo;
      todo := todo - {c};
      if c !in after && c !in IGNORED {
        changed := changed[c := Gone(before[c])];
      }
    }
  }

  /** The rows differ on a column: one lacks it, or both have it with different values. */
  predicate Differs(before: Row, after: Row, c: Text) {
    (c in before) != (c in after) || (c in before && c in after && before[c] != after[c])
  }

  /** The diff lists precisely the non-technical columns on which the rows differ, if and only if
      no such column is new and NULL: that one reads as unchanged. */
  lemma DiffIsExactIff(before: Row, after: Row)
    ensures (forall c :: c in DiffOf(before, after) <==> c !in IGNORED && Differs(before, after, c))
       <==> (forall c :: c in after && c !in IGNORED && c !in before ==> after[c].Some?)
  {
    forall c
      ensures (c in DiffOf(before, after) <==> c !in IGNORED && Differs(before, after, c))
         <==> (c in after && c !in IGNORED && c !in before ==> after[c].Some?)
    {
      assert c in DiffOf(before, after) <==> ChangeOf(before, after, c).Some?;
    }
  }

  /** Applying a diff to the row it was taken from. */
  function Replay(before: Row, changed: map<Text, Change>): Row {
    map c | c in before.Keys + changed.Keys && !(c in changed && changed[c].Gone?) ::
      if c in changed then changed[c].now else before[c]
  }

  /** Replaying the diff on a before row that has every column of the after row gives the after
      row on the non-technical columns. */
  lemma ReplayGivesAfter(before: Row, after: Row, c: Text)
    requires after.Keys <= before.Keys && c !in IGNORED
    ensures c in Replay(before, DiffOf(before, after)) <==> c in after
    ensures c in after ==> Replay(before, DiffOf(before, after))[c] == after[c]
  {
    assert c in DiffOf(before, after) <==> ChangeOf(before, after, c).Some?;
  }

  // ---------- snapshot ----------

  /** The detail column, before it is written as JSON. */
  datatype Detail = AfterDetail(after: Row) | ChangedDetail(changed: map<Text, Change>) | BeforeDetail(before: Row)

  datatype Snapshot = Snapshot(detail: Detail, beforeData: Option<Row>)

  function OldColumnsAt(flat: Flat, index: nat): Row {
    if index >= |flat.olds| || flat.olds[index].None? then map[] else flat.olds[index].value
  }

  /** The masked images of a row, or their diff. */
  function SnapshotOf(fields: set<Text>, replacement: Text, flat: Flat, index: nat, row: Row): Snapshot {
    var masked := Masked(fields, replacement, row);
    match flat.dml
    case Insert => Snapshot(AfterDetail(masked), None)
    case Update =>
      var before := Masked(fields, replacement, Rebuilt(row, OldColumnsAt(flat, index)));
      Snapshot(ChangedDetail(DiffOf(before, masked)), Some(before))
    case Delete => Snapshot(BeforeDetail(masked), Some(masked))
  }

  method TakeSnapshot(san: Sanitizer, flat: Flat, index: nat, row: Row) returns (s: Snapshot)
    ensures s == SnapshotOf(san.fields, san.replacement, flat, index, row)
  {
    var masked := san.MaskRow(Some(row));
    match flat.dml {
      case Insert =>
        s := Snapshot(AfterDetail(masked.value), None);
      case Update =>
        var rebuilt := RebuildBeforeRow(row, OldColumnsAt(flat, index));
        var before := san.MaskRow(Some(rebuilt));
        var changed := DiffChangedColumns(before.value, masked.value);
        s := Snapshot(ChangedDetail(changed), before);
      case Delete =>
        s := Snapshot(BeforeDetail(masked.value), masked);
    }
  }

  /** In an UPDATE record the diff is exact and replays, whatever columns the old image reported. */
  lemma UpdateDiffIsExact(fields: set<Text>, replacement: Text, flat: Flat, index: nat, row: Row, c: Text)
    requires flat.dml.Update?
    ensures var s, after := SnapshotOf(fields, replacement, flat, index, row), Masked(fields, replacement, row);
      var before, changed := s.beforeData.value, s.detail.changed;
      && (c in changed <==> c !in IGNORED && Differs(before, after, c))
      && (c !in IGNORED ==> (c in Replay(before, changed) <==> c in after))
      && (c !in IGNORED && c in after ==> Replay(before, changed)[c] == after[c])
  {
    var before := Masked(fields, replacement, Rebuilt(row, OldColumnsAt(flat, index)));
    var after := Masked(fields, replacement, row);
    DiffIsExactIff(before, after);
    if c !in IGNORED {
      ReplayGivesAfter(before, after, c);
    }
  }

  /** What every record of a row says, field by field, told without the functions that build it: where it
      belongs, whose request it was, and the masked image of an INSERT or a DELETE. */
  lemma RecordSays(cfg: MapperConfig, flat: Flat, i: nat)
    requires flat.table in cfg.tables && i < |flat.data| && flat.data[i].Some?
    ensures var r, row, tm := RecordOf(cfg, flat, i), flat.data[i].value, cfg.tables[flat.table];
      && r.targetType == tm.targetType
      && r.targetId == (if tm.key in row && row[tm.key].Some? then row[tm.key].value else [])
      && r.requestId == (if REQUEST_ID in row && row[REQUEST_ID] != Some([]) then row[REQUEST_ID] else None)
      && (flat.dml.Insert? ==> r.snapshot.detail.AfterDetail? && IsMasked(cfg, row, r.snapshot.detail.after) && r.snapshot.beforeData.None?)
      && (flat.dml.Update? ==> r.snapshot.detail.ChangedDetail?)
      && (flat.dml.Delete? ==> r.snapshot.detail.BeforeDetail? && IsMasked(cfg, row, r.snapshot.detail.before) && r.snapshot.beforeData == Some(r.snapshot.detail.before))
  {
  }

  /** The row with the configured columns replaced and the others as they were. */
  ghost predicate IsMasked(cfg: MapperConfig, row: Row, out: Row) {
    && out.Keys == row.Keys
    && forall c :: c in row ==> out[c] == if c in cfg.fields then Some(cfg.replacement) else row[c]
  }

  /** Two rows with the same columns that agree wherever nothing is masked. */
  ghost predicate AgreeUnmasked(fields: set<Text>, a: Row, b: Row) {
    a.Keys == b.Keys && forall c :: c in a && c !in fields ==> a[c] == b[c]
  }

  /** Detail and before data do not depend on the values of masked columns. */
  lemma SnapshotIsMaskIndependent(
    fields: set<Text>, replacement: Text, f: Flat, g: Flat, index: nat, row: Row, row': Row)
    requires f.dml == g.dml && AgreeUnmasked(fields, row, row')
    requires AgreeUnmasked(fields, OldColumnsAt(f, index), OldColumnsAt(g, index))
    ensures SnapshotOf(fields, replacement, f, index, row) == SnapshotOf(fields, replacement, g, index, row')
  {
    MaskingForgets(fields, replacement, row, row');
    var a, b := Rebuilt(row, OldColumnsAt(f, index)), Rebuilt(row', OldColumnsAt(g, index));
    assert AgreeUnmasked(fields, a, b);
    MaskingForgets(fields, replacement, a, b);
  }

  lemma MaskingForgets(fields: set<Text>, replacement: Text, a: Row, b: Row)
    requires AgreeUnmasked(fields, a, b)
    ensures Masked(fields, replacement, a) == Masked(fields, replacement, b)
  {
  }

  // ---------- dedup key ----------

  const BAR: Byte := 124

  function Decimal(n: nat): (d: Bytes)
    ensures |d| > 0
    ensures forall b :: b in d ==> 48 <= b < 58
  {
    if n < 10 then [48 + n] else Decimal(n / 10) + [48 + n % 10]
  }

  function PrintInt(n: int): (d: Bytes)
    ensures BAR !in d
  {
    if n < 0 then [45] + Decimal(-n) else Decimal(n)
  }

  function DmlName(dml: Dml): (d: Text)
    ensures BAR !in d
  {
    match dml
    case Insert => [73, 78, 83, 69, 82, 84]
    case Update => [85, 80, 68, 65, 84, 69]
    case Delete => [68, 69, 76, 69, 84, 69]
  }

  function Join(parts: seq<Bytes>): Bytes {
    if parts == [] then [] else if |parts| == 1 then parts[0] else parts[0] + [BAR] + Join(parts[1..])
  }

  function KeyParts(sourceId: Text, flat: Flat, index: nat): seq<Bytes> {
    [sourceId, flat.database, flat.table, DmlName(flat.dml), flat.gtid, flat.binlogFile, PrintInt(flat.binlogPosition), PrintInt(index)]
  }

  /** The text whose hash is the dedup key; the hash is taken as injective. */
  function DedupKey(sourceId: Text, flat: Flat, index: nat): Bytes {
    Join(KeyParts(sourceId, flat, index))
  }

  lemma {:induction false} DecimalInjective(m: nat, n: nat)
    requires Decimal(m) == Decimal(n)
    ensures m == n
    decreases m
  {
    var d := Decimal(m);
    assert d[|d| - 1] == 48 + m % 10 == 48 + n % 10;
    if m >= 10 && n >= 10 {
      assert d[..|d| - 1] == Decimal(m / 10) == Decimal(n / 10);
      DecimalInjective(m / 10, n / 10);
    }
  }

  lemma PrintIntInjective(m: int, n: int)
    requires PrintInt(m) == PrintInt(n)
    ensures m == n
  {
    if n >= 0 { assert Decimal(n)[0] in Decimal(n); }
    if m >= 0 { assert Decimal(m)[0] in Decimal(m); }
    if m < 0 && n < 0 {
      assert Decimal(-m) == PrintInt(m)[1..] == PrintInt(n)[1..] == Decimal(-n);
      DecimalInjective(-m, -n);
    } else if m >= 0 && n >= 0 {
      DecimalInjective(m, n);
    }
  }

  ghost predicate NoBar(parts: seq<Bytes>) {
    forall i :: 0 <= i < |parts| ==> BAR !in parts[i]
  }

  lemma FirstBar(a: Bytes, x: Bytes, b: Bytes, y: Bytes)
    requires BAR !in a && BAR !in b && a + [BAR] + x == b + [BAR] + y
    ensures a == b && x == y
  {
    var t := a + [BAR] + x;
    assert t[|a|] == BAR && t[|b|] == BAR;
    assert forall i :: 0 <= i < |a| ==> t[i] == a[i];
    assert forall i :: 0 <= i < |b| ==> t[i] == b[i];
    assert |a| == |b|;
    assert a == t[..|a|] && x == t[|a| + 1..];
    assert b == t[..|b|] && y == t[|b| + 1..];
  }

  lemma {:induction false} JoinInjective(p: seq<Bytes>, q: seq<Bytes>)
    requires |p| == |q| && NoBar(p) && NoBar(q) && Join(p) == Join(q)
    ensures p == q
    decreases |p|
  {
    if |p| > 1 {
      FirstBar(p[0], Join(p[1..]), q[0], Join(q[1..]));
      JoinInjective(p[1..], q[1..]);
      assert p == [p[0]] + p[1..] && q == [q[0]] + q[1..];
    }
  }

  function Bars(parts: seq<Bytes>): nat {
    if parts == [] then 0 else multiset(parts[0])[BAR] + Bars(parts[1..])
  }

  lemma {:induction false} JoinCountsBars(p: seq<Bytes>)
    requires p != []
    ensures multiset(Join(p))[BAR] == Bars(p) + |p| - 1
  {
    if |p| > 1 {
      JoinCountsBars(p[1..]);
    } else {
      assert Bars(p[1..]) == 0;
    }
  }

  lemma {:induction false} NoBarCounted(p: seq<Bytes>)
    ensures NoBar(p) <==> Bars(p) == 0
  {
    if p != [] {
      NoBarCounted(p[1..]);
      assert NoBar(p) <==> BAR !in p[0] && NoBar(p[1..]) by {
        if BAR !in p[0] && NoBar(p[1..]) {
          forall i | 0 <= i < |p| ensures BAR !in p[i] { if i > 0 { assert p[i] == p[1..][i - 1]; } }
        }
        if NoBar(p) {
          forall i | 0 <= i < |p[1..]| ensures BAR !in p[1..][i] { assert p[1..][i] == p[i + 1]; }
        }
      }
    }
  }

  /** Moving the separator between two neighbours does not show in the joined text. */
  lemma {:induction false} JoinPair(p: seq<Bytes>, k: nat, x: Bytes, y: Bytes)
    requires k + 1 < |p| && x + [BAR] + y == p[k] + [BAR] + p[k + 1]
    ensures Join(p[k := x][k + 1 := y]) == Join(p)
    decreases k
  {
    var q := p[k := x][k + 1 := y];
    if k > 0 {
      JoinPair(p[1..], k - 1, x, y);
      assert q[1..] == p[1..][k - 1 := x][k := y];
    } else if |p| > 2 {
      var rest := [BAR] + Join(p[2..]);
      assert p[1..][1..] == p[2..] && q[1..][1..] == p[2..];
      assert Join(p) == p[0] + [BAR] + (p[1] + rest) == (p[0] + [BAR] + p[1]) + rest;
      assert Join(q) == x + [BAR] + (y + rest) == (x + [BAR] + y) + rest;
    }
  }

  /** Two neighbours of which one holds the separator read the same as another pair. */
  lemma OtherSplit(x: Bytes, y: Bytes) returns (x': Bytes, y': Bytes)
    requires BAR in x || BAR in y
    ensures x' + [BAR] + y' == x + [BAR] + y && x' != x
  {
    if BAR in x {
      var i :| 0 <= i < |x| && x[i] == BAR;
      x', y' := x[..i], x[i + 1..] + [BAR] + y;
      assert x == x[..i] + [BAR] + x[i + 1..];
    } else {
      var i :| 0 <= i < |y| && y[i] == BAR;
      x', y' := x + [BAR] + y[..i], y[i + 1..];
      assert y == y[..i] + [BAR] + y[i + 1..];
    }
  }

  function TextParts(sourceId: Text, flat: Flat): seq<Text> {
    [sourceId, flat.database, flat.table, flat.gtid, flat.binlogFile]
  }

  /** Same source, database, table, kind, gtid, position and row number. */
  predicate SameRowChange(sourceId: Text, f: Flat, i: nat, sourceId': Text, g: Flat, j: nat) {
    && TextParts(sourceId, f) == TextParts(sourceId', g)
    && f.dml == g.dml && f.binlogPosition == g.binlogPosition && i == j
  }

  lemma SamePartsSameRowChange(sourceId: Text, f: Flat, i: nat, sourceId': Text, g: Flat, j: nat)
    requires KeyParts(sourceId, f, i) == KeyParts(sourceId', g, j)
    ensures SameRowChange(sourceId, f, i, sourceId', g, j)
  {
    var p, q := KeyParts(sourceId, f, i), KeyParts(sourceId', g, j);
    assert p[0] == q[0] && p[1] == q[1] && p[2] == q[2] && p[4] == q[4] && p[5] == q[5];
    assert f.dml == g.dml by { assert p[3][0] == q[3][0]; }
    assert p[6] == q[6] && p[7] == q[7];
    PrintIntInjective(f.binlogPosition, g.binlogPosition);
    PrintIntInjective(i, j);
  }

  lemma KeyPartsHaveNoBar(sourceId: Text, f: Flat, i: nat)
    requires NoBar(TextParts(sourceId, f))
    ensures NoBar(KeyParts(sourceId, f, i))
  {
    var p, t := KeyParts(sourceId, f, i), TextParts(sourceId, f);
    assert t[0] == p[0] && t[1] == p[1] && t[2] == p[2] && t[3] == p[4] && t[4] == p[5];
  }

  lemma KeyWithoutSeparatorIsUnique(sourceId: Text, f: Flat, i: nat, sourceId': Text, g: Flat, j: nat)
    requires NoBar(TextParts(sourceId, f)) && DedupKey(sourceId, f, i) == DedupKey(sourceId', g, j)
    ensures SameRowChange(sourceId, f, i, sourceId', g, j)
  {
    hide Join;
    var p, q := KeyParts(sourceId, f, i), KeyParts(sourceId', g, j);
    KeyPartsHaveNoBar(sourceId, f, i);
    NoBarFromJoin(p, q);
    JoinInjective(p, q);
    SamePartsSameRowChange(sourceId, f, i, sourceId', g, j);
  }

  lemma NoBarFromJoin(p: seq<Bytes>, q: seq<Bytes>)
    requires |p| == |q| > 0 && NoBar(p) && Join(p) == Join(q)
    ensures NoBar(q)
  {
    JoinCountsBars(p);
    JoinCountsBars(q);
    NoBarCounted(p);
    NoBarCounted(q);
  }

  ghost predicate Collides(sourceId: Text, f: Flat, i: nat, sourceId': Text, g: Flat, j: nat) {
    DedupKey(sourceId, f, i) == DedupKey(sourceId', g, j) && !SameRowChange(sourceId, f, i, sourceId', g, j)
  }

  lemma KeyWithSeparatorCollides(sourceId: Text, f: Flat, i: nat) returns (sourceId': Text, g: Flat)
    requires !NoBar(TextParts(sourceId, f))
    ensures Collides(sourceId, f, i, sourceId', g, i)
  {
    var p := KeyParts(sourceId, f, i);
    sourceId', g := sourceId, f;
    if BAR in f.database || BAR in f.table {
      var x, y := OtherSplit(f.database, f.table);
      g := f.(database := x, table := y);
      JoinPair(p, 1, x, y);
      assert KeyParts(sourceId', g, i) == p[1 := x][2 := y];
      assert TextParts(sourceId', g)[1] != TextParts(sourceId, f)[1];
    } else if BAR in sourceId {
      var x, y := OtherSplit(sourceId, f.database);
      sourceId', g := x, f.(database := y);
      JoinPair(p, 0, x, y);
      assert KeyParts(sourceId', g, i) == p[0 := x][1 := y];
      assert TextParts(sourceId', g)[0] != TextParts(sourceId, f)[0];
    } else {
      var x, y := OtherSplit(f.gtid, f.binlogFile);
      g := f.(gtid := x, binlogFile := y);
      JoinPair(p, 4, x, y);
      assert KeyParts(sourceId', g, i) == p[4 := x][5 := y];
      assert TextParts(sourceId', g)[3] != TextParts(sourceId, f)[3];
    }
  }

  /** A key identifies its row change among all others if and only if none of the text parts
      holds the separator the parts are joined with. */
  lemma KeyIsUniqueIffNoSeparator(sourceId: Text, f: Flat, i: nat)
    ensures NoBar(TextParts(sourceId, f)) <==> forall sourceId', g, j :: !Collides(sourceId, f, i, sourceId', g, j)
  {
    if NoBar(TextParts(sourceId, f)) {
      forall sourceId', g, j
        ensures !Collides(sourceId, f, i, sourceId', g, j)
      {
        if DedupKey(sourceId, f, i) == DedupKey(sourceId', g, j) {
          KeyWithoutSeparatorIsUnique(sourceId, f, i, sourceId', g, j);
        }
      }
    } else {
      var sourceId', g := KeyWithSeparatorCollides(sourceId, f, i);
    }
  }

  // ---------- records ----------

  datatype TableMapping = TableMapping(targetType: Text, key: Text)

  datatype Record = Record(targetType: Text, targetId: Text, requestId: Option<Text>, snapshot: Snapshot, dedupKey: Bytes)

  datatype MapperConfig = MapperConfig(tables: map<Text, TableMapping>, fields: set<Text>, replacement: Text, sourceId: Text)

  function StringValue(value: Option<Text>): Text {
    if value.None? then [] else value.value
  }

  function NonEmpty(value: Option<Text>): Option<Text> {
    if value == Some([]) then None else value
  }

  /** The record of row `index` of an event of a mapped table. */
  function RecordOf(cfg: MapperConfig, flat: Flat, index: nat): (r: Record)
    requires flat.table in cfg.tables && index < |flat.data| && flat.data[index].Some?
  {
    var row, tm := flat.data[index].value, cfg.tables[flat.table];
    Record(tm.targetType, StringValue(Lookup(row, tm.key)), NonEmpty(Lookup(row, REQUEST_ID)),
      SnapshotOf(cfg.fields, cfg.replacement, flat, index, row), DedupKey(cfg.sourceId, flat, index))
  }

  /** One record per non-nil row among the first `upTo`, in row order; none for an unmapped table. */
  function RecordsOf(cfg: MapperConfig, flat: Flat, upTo: nat): seq<Record>
    requires upTo <= |flat.data|
  {
    if flat.table !in cfg.tables || upTo == 0 then []
    else
      var before := RecordsOf(cfg, flat, upTo - 1);
      if flat.data[upTo - 1].Some? then before + [RecordOf(cfg, flat, upTo - 1)] else before
  }

  class Mapper {
    const cfg: MapperConfig
    const san: Sanitizer

    constructor (tables: map<Text, TableMapping>, san: Sanitizer, sourceId: Text)
      ensures cfg == MapperConfig(tables, san.fields, san.replacement, sourceId) && this.san == san
    {
      this.san := san;
      cfg := MapperConfig(tables, san.fields, san.replacement, sourceId);
    }

    ghost predicate Valid() {
      cfg.fields == san.fields && cfg.replacement == san.replacement
    }

    method Build(flat: Flat) returns (records: seq<Record>)
      requires Valid()
      ensures records == RecordsOf(cfg, flat, |flat.data|)
    {
      records := [];
      if flat.table !in cfg.tables {
        return;
      }
      var tm := cfg.tables[flat.table];
      for index := 0 to |flat.data|
        invariant records == RecordsOf(cfg, flat, index)
      {
        if flat.data[index].Some? {
          var row := flat.data[index].value;
          var s := TakeSnapshot(san, flat, index, row);
          records := records + [Record(tm.targetType, StringValue(Lookup(row, tm.key)), NonEmpty(Lookup(row, REQUEST_ID)),
            s, DedupKey(cfg.sourceId, flat, index))];
        }
      }
    }
  }

  /** Two rows of one event never share a key. */
  lemma RowsOfAnEventHaveOwnKeys(sourceId: Text, flat: Flat, i: nat, j: nat)
    requires DedupKey(sourceId, flat, i) == DedupKey(sourceId, flat, j)
    ensures i == j
  {
    var p, q := KeyParts(sourceId, flat, i), KeyParts(sourceId, flat, j);
    SamePrefixSameEnd(p, q);
    PrintIntInjective(i, j);
  }

  lemma {:induction false} SamePrefixSameEnd(p: seq<Bytes>, q: seq<Bytes>)
    requires |p| == |q| > 0 && p[..|p| - 1] == q[..|q| - 1] && Join(p) == Join(q)
    ensures p[|p| - 1] == q[|q| - 1]
    decreases |p|
  {
    if |p| > 1 {
      assert p[0] == p[..|p| - 1][0] == q[0];
      var head := p[0] + [BAR];
      assert Join(p[1..]) == (head + Join(p[1..]))[|head|..];
      assert Join(q[1..]) == (head + Join(q[1..]))[|head|..];
      assert p[1..][..|p| - 2] == p[..|p| - 1][1..] && q[1..][..|q| - 2] == q[..|q| - 1][1..];
      SamePrefixSameEnd(p[1..], q[1..]);
    }
  }

  /** From the wire to the record: the record of row i of an UPDATE shows the masked before image
      rebuilt from row i's own before and after columns, and nothing of any other row. */
  lemma UpdateRecordUsesItsOwnRow(cfg: MapperConfig, h: Header, rc: RowChange, i: nat)
    requires i < |rc.rowDatas| && rc.rowDatas[i].after != [] && h.tableName in cfg.tables
    ensures var fm, rd := AddRows(NewFlat(h, Update, rc), rc.rowDatas), rc.rowDatas[i];
      && fm.table in cfg.tables && |fm.data| == |rc.rowDatas| && fm.data[i].Some?
      && var before := Masked(cfg.fields, cfg.replacement, Rebuilt(RowOf(rd.after), RowOf(rd.before)));
        var after := Masked(cfg.fields, cfg.replacement, RowOf(rd.after));
        RecordOf(cfg, fm, i).snapshot == Snapshot(ChangedDetail(DiffOf(before, after)), Some(before))
  {
    var fm := NewFlat(h, Update, rc);
    RowKeepsItsImages(fm, rc.rowDatas, i);
    RowsAreCounted(fm, rc.rowDatas);
    AddRowsKeepsTable(fm, rc.rowDatas);
  }

  /** And what that record shows of column c, told by the two images alone: an unmasked column of the old
      image has its old value in the before data, one only the new image has its new value; and the changes
      are exactly the non-technical columns of the old image that are gone, or unmasked and different, with
      just the two values. */
  lemma UpdateRecordShowsTheChange(cfg: MapperConfig, h: Header, rc: RowChange, i: nat, c: Text)
    requires i < |rc.rowDatas| && rc.rowDatas[i].after != [] && h.tableName in cfg.tables
    ensures var fm, was, now := AddRows(NewFlat(h, Update, rc), rc.rowDatas), RowOf(rc.rowDatas[i].before), RowOf(rc.rowDatas[i].after);
      && fm.table in cfg.tables && i < |fm.data| && fm.data[i].Some?
      && var snap := RecordOf(cfg, fm, i).snapshot;
        && snap.beforeData.Some? && snap.detail.ChangedDetail?
        && var before, changed := snap.beforeData.value, snap.detail.changed;
          && (c in before <==> c in was || c in now)
          && (c in was && c !in cfg.fields ==> before[c] == was[c])
          && (c in now && c !in was && c !in cfg.fields ==> before[c] == now[c])
          && (c in before && c in cfg.fields ==> before[c] == Some(cfg.replacement))
          && (c in changed <==> c !in IGNORED && c in was && (c !in now || (c !in cfg.fields && was[c] != now[c])))
          && (c in changed && c in now ==> changed[c] == Changed(was[c], now[c]))
          && (c in changed && c !in now ==> changed[c] == Gone(if c in cfg.fields then Some(cfg.replacement) else was[c]))
  {
    UpdateRecordUsesItsOwnRow(cfg, h, rc, i);
    var was, now := RowOf(rc.rowDatas[i].before), RowOf(rc.rowDatas[i].after);
    var before, after := Masked(cfg.fields, cfg.replacement, Rebuilt(now, was)), Masked(cfg.fields, cfg.replacement, now);
    hide RowOf, RecordOf, AddRows;
    assert c in DiffOf(before, after) <==> c in before.Keys + after.Keys && ChangeOf(before, after, c).Some?;
  }

  /** The records of an event are those of its rows that are there, in row order. */
  lemma {:induction false} RecordsAreInRowOrder(cfg: MapperConfig, flat: Flat, upTo: nat, i: nat)
    requires flat.table in cfg.tables && i < upTo <= |flat.data| && flat.data[i].Some?
    ensures |RecordsOf(cfg, flat, upTo)| == RowsThere(flat, upTo)
    ensures RowsThere(flat, i) < RowsThere(flat, upTo) && RecordsOf(cfg, flat, upTo)[RowsThere(flat, i)] == RecordOf(cfg, flat, i)
  {
    if i == upTo - 1 {
      RecordsAreCounted(cfg, flat, i);
    } else {
      RecordsAreInRowOrder(cfg, flat, upTo - 1, i);
    }
  }

  lemma {:induction false} RecordsAreCounted(cfg: MapperConfig, flat: Flat, upTo: nat)
    requires flat.table in cfg.tables && upTo <= |flat.data|
    ensures |RecordsOf(cfg, flat, upTo)| == RowsThere(flat, upTo)
  {
    if upTo > 0 { RecordsAreCounted(cfg, flat, upTo - 1); }
  }

  function RowsThere(flat: Flat, upTo: nat): nat
    requires upTo <= |flat.data|
  {
    if upTo == 0 then 0 else RowsThere(flat, upTo - 1) + if flat.data[upTo - 1].Some? then 1 else 0
  }

  lemma {:induction false} AddRowsKeepsTable(fm: Flat, rows: seq<RowData>)
    ensures AddRows(fm, rows).table == fm.table && AddRows(fm, rows).dml == fm.dml
  {
    if rows != [] { AddRowsKeepsTable(fm, rows[..|rows| - 1]); }
  }
}
