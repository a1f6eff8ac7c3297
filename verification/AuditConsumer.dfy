/** The consumer as it is written: nested loops over fetch, decode, map, chunked insert and
    commit. Each external call may fail, with or without effect; a ghost trace records the steps,
    so every state this object passes through is a state of the pipeline machine. */
module AuditConsumer {
  import opened Wire
  import opened CanalCodec
  import opened AuditMapper
  import opened AuditPipeline

  /** The records of the events of one message that are row changes and not DDL. */
  function EventRecords(cfg: MapperConfig, flats: seq<Flat>): seq<Record> {
    if flats == [] then []
    else
      var before, last := EventRecords(cfg, flats[..|flats| - 1]), flats[|flats| - 1];
      if last.isDdl then before else before + RecordsOf(cfg, last, |last.data|)
  }

  function MessageRecords(cfg: MapperConfig, value: Bytes): Option<seq<Record>> {
    match DecodeMessage(value)
    case Err(_) => None
    case Ok(flats) => Some(EventRecords(cfg, flats))
  }

  // ---------- when the keys tell the records of a log apart ----------

  /** Row i of the event becomes a record. */
  predicate Mapped(cfg: MapperConfig, f: Flat, i: nat) {
    !f.isDdl && f.table in cfg.tables && i < |f.data| && f.data[i].Some?
  }

  ghost predicate Makes(cfg: MapperConfig, f: Flat, i: nat, r: Record) {
    Mapped(cfg, f, i) && RecordOf(cfg, f, i) == r
  }

  lemma {:induction false} RecordsOfRows(cfg: MapperConfig, f: Flat, upTo: nat, r: Record)
    requires upTo <= |f.data| && !f.isDdl
    ensures r in RecordsOf(cfg, f, upTo) <==> exists i: nat :: i < upTo && Makes(cfg, f, i, r)
  {
    if f.table in cfg.tables && upTo > 0 {
      RecordsOfRows(cfg, f, upTo - 1, r);
      assert Mapped(cfg, f, upTo - 1) ==> Makes(cfg, f, upTo - 1, RecordOf(cfg, f, upTo - 1));
    }
  }

  lemma {:induction false} RecordsOfEvents(cfg: MapperConfig, flats: seq<Flat>, r: Record)
    ensures r in EventRecords(cfg, flats) <==> exists f, i :: f in flats && Makes(cfg, f, i, r)
  {
    if flats != [] {
      var init, last := flats[..|flats| - 1], flats[|flats| - 1];
      RecordsOfEvents(cfg, init, r);
      if !last.isDdl { RecordsOfRows(cfg, last, |last.data|, r); }
      assert forall f :: f in flats <==> f in init || f == last;
    }
  }

  /** The pipeline's records are those of this configuration. */
  ghost predicate Maps(w: World, cfg: MapperConfig) {
    forall value :: w.recordsOf(value) == MessageRecords(cfg, value)
  }

  /** An event of some message of the log. */
  ghost predicate InLog(w: World, f: Flat) {
    exists m: Message :: w.Has(m) && EventsAt(w, m).Ok? && f in EventsAt(w, m).value
  }

  function EventsAt(w: World, m: Message): Result<seq<Flat>>
    requires w.Has(m)
  {
    DecodeMessage(w.log[m.partition][m.offset])
  }

  /** No name, id or file name in the log holds the separator. */
  ghost predicate NoSeparators(w: World, cfg: MapperConfig) {
    forall f, i :: InLog(w, f) && Mapped(cfg, f, i) ==> NoBar(TextParts(cfg.sourceId, f))
  }

  /** Two events of one row change, as after a replay at the source, tell the same story. */
  ghost predicate SameChangeSameRecord(w: World, cfg: MapperConfig) {
    forall f, i, g, j :: (
      InLog(w, f) && InLog(w, g) && Mapped(cfg, f, i) && Mapped(cfg, g, j) && SameRowChange(cfg.sourceId, f, i, cfg.sourceId, g, j)
      ==> RecordOf(cfg, f, i) == RecordOf(cfg, g, j))
  }

  lemma RecordsAreMade(w: World, cfg: MapperConfig, r: Record)
    requires Maps(w, cfg)
    ensures FromLog(w, r) <==> exists f, i :: InLog(w, f) && Makes(cfg, f, i, r)
  {
    hide DecodeMessage, EventRecords, Makes;
    if FromLog(w, r) {
      var m: Message :| w.Has(m) && w.Records(m).Some? && r in w.Records(m).value;
      assert w.Records(m) == MessageRecords(cfg, w.log[m.partition][m.offset]);
      RecordsOfEvents(cfg, EventsAt(w, m).value, r);
      var f, i :| f in EventsAt(w, m).value && Makes(cfg, f, i, r);
      assert InLog(w, f);
    }
    if exists f, i :: InLog(w, f) && Makes(cfg, f, i, r) {
      var f, i :| InLog(w, f) && Makes(cfg, f, i, r);
      var m: Message :| w.Has(m) && EventsAt(w, m).Ok? && f in EventsAt(w, m).value;
      RecordsOfEvents(cfg, EventsAt(w, m).value, r);
      assert w.Records(m) == MessageRecords(cfg, w.log[m.partition][m.offset]);
    }
  }

  /** In a log without separators, keys tell the records apart if and only if a row change that occurs
      twice is told the same way both times. */
  lemma KeysTellIff(w: World, cfg: MapperConfig)
    requires Maps(w, cfg) && NoSeparators(w, cfg)
    ensures KeysTell(w) <==> SameChangeSameRecord(w, cfg)
  {
    hide Maps, FromLog, RecordOf, DedupKey, NoBar;
    if SameChangeSameRecord(w, cfg) {
      forall r, q | FromLog(w, r) && FromLog(w, q) && r.dedupKey == q.dedupKey ensures r == q {
        RecordsAreMade(w, cfg, r);
        RecordsAreMade(w, cfg, q);
        var f, i :| InLog(w, f) && Makes(cfg, f, i, r);
        var g, j :| InLog(w, g) && Makes(cfg, g, j, q);
        RecordHasItsKey(cfg, f, i);
        RecordHasItsKey(cfg, g, j);
        KeyWithoutSeparatorIsUnique(cfg.sourceId, f, i, cfg.sourceId, g, j);
      }
    }
    if KeysTell(w) {
      forall f, i, g, j | InLog(w, f) && InLog(w, g) && Mapped(cfg, f, i) && Mapped(cfg, g, j)
          && SameRowChange(cfg.sourceId, f, i, cfg.sourceId, g, j)
        ensures RecordOf(cfg, f, i) == RecordOf(cfg, g, j)
      {
        var r, q := RecordOf(cfg, f, i), RecordOf(cfg, g, j);
        assert Makes(cfg, f, i, r) && Makes(cfg, g, j, q);
        RecordsAreMade(w, cfg, r);
        RecordsAreMade(w, cfg, q);
        RecordHasItsKey(cfg, f, i);
        RecordHasItsKey(cfg, g, j);
        SameChangeSameKey(cfg.sourceId, f, g, i);
      }
    }
  }

  lemma RecordHasItsKey(cfg: MapperConfig, f: Flat, i: nat)
    requires Mapped(cfg, f, i)
    ensures RecordOf(cfg, f, i).dedupKey == DedupKey(cfg.sourceId, f, i)
  {
  }

  lemma SameChangeSameKey(sourceId: Text, f: Flat, g: Flat, i: nat)
    requires SameRowChange(sourceId, f, i, sourceId, g, i)
    ensures DedupKey(sourceId, f, i) == DedupKey(sourceId, g, i)
  {
    var p, q := TextParts(sourceId, f), TextParts(sourceId, g);
    assert p[1] == q[1] && p[2] == q[2] && p[3] == q[3] && p[4] == q[4];
  }

  // ---------- the consumer ----------

  lemma PartitionsHavePositions(w: World, run: seq<Action>)
    ensures Exec(w, run).position.Keys == Exec(w, run).committed.Keys == w.log.Keys
  {
  }

  lemma FetchedAreInLog(w: World, run: seq<Action>, m: Message)
    requires m in BatchOf(Exec(w, run).phase)
    ensures w.Has(m)
  {
    Reachable(w, run);
    BatchInLog(w, Exec(w, run));
  }

  class Consumer {
    const w: World
    const mapper: Mapper
    const batchSize: nat

    var committed: map<nat, nat>
    var position: map<nat, nat>
    var table: seq<Record>
    var dead: seq<Message>
    ghost var trace: seq<Action>

    constructor (log: map<nat, seq<Bytes>>, mapper: Mapper, batchSize: nat)
      requires mapper.Valid()
      ensures Wired() && At(Idle) && w.log == log && this.mapper == mapper
    {
      var cfg := mapper.cfg;
      w := World(log, value => MessageRecords(cfg, value));
      this.mapper := mapper;
      this.batchSize := batchSize;
      committed := map p | p in log :: 0;
      position := map p | p in log :: 0;
      table, dead, trace := [], [], [];
    }

    ghost predicate Wired() {
      mapper.Valid() && Maps(w, mapper.cfg)
    }

    /** The trace leads the machine to this object's state, in the given phase. */
    ghost predicate At(phase: Phase)
      reads this
    {
      Exec(w, trace) == State(committed, position, phase, table, dead)
    }

    ghost method Advance(a: Action)
      modifies this`trace
      ensures Exec(w, trace) == Step(w, Exec(w, old(trace)), a)
    {
      ExecStep(w, trace, a);
      trace := trace + [a];
    }

    method AnyOutcome() returns (o: Outcome)
    {
      if * { o := Success; } else if * { o := FailedApplied; } else { o := FailedClean; }
    }

    /** One message from any partition that has one, or an error or timeout. */
    method FetchMessage(ghost phase: Phase) returns (m: Option<Message>)
      requires At(phase) && (phase.Idle? || phase.Fetching?)
      modifies this`position, this`trace
      ensures match m
              case None => At(phase)
              case Some(msg) => At(Fetching(BatchOf(phase) + [msg]))
    {
      hide Inv, Exec;
      if * {
        return None;
      } else {
        var todo := w.log.Keys;
        while todo != {}
          invariant At(phase) && todo <= w.log.Keys
          decreases todo
        {
          var p :| p in todo;
          todo := todo - {p};
          PartitionsHavePositions(w, trace);
          if position[p] < |w.log[p]| {
            if * {
              Advance(Fetch(p));
              m := Some(Message(p, position[p]));
              position := position[p := position[p] + 1];
              return;
            }
          }
        }
        return None;
      }
    }

    method FetchBatch() returns (batch: seq<Message>)
      requires At(Idle)
      modifies this`position, this`trace
      ensures At(if batch == [] then Idle else Building(batch, 0, []))
    {
      hide Inv, Exec;
      var first := FetchMessage(Idle);
      if first.None? {
        return [];
      }
      batch := [first.value];
      assert BatchOf(Idle) + [first.value] == batch;
      while |batch| < batchSize
        invariant batch != [] && At(Fetching(batch))
      {
        var m := FetchMessage(Fetching(batch));
        if m.None? {
          break;
        }
        batch := batch + [m.value];
      }
      Advance(StopFetching);
    }

    method MapEvents(flats: seq<Flat>) returns (rs: seq<Record>)
      requires mapper.Valid()
      ensures rs == EventRecords(mapper.cfg, flats)
    {
      rs := [];
      for i := 0 to |flats|
        invariant rs == EventRecords(mapper.cfg, flats[..i])
      {
        assert flats[..i + 1][..i] == flats[..i];
        if !flats[i].isDdl {
          var more := mapper.Build(flats[i]);
          rs := rs + more;
        }
      }
      assert flats[..|flats|] == flats;
    }

    /** The records of one message; a message that does not decode is dead-lettered instead. */
    method BuildMessageRecords(m: Message, ghost batch: seq<Message>, ghost next: nat, ghost records: seq<Record>)
      returns (ok: bool, rs: seq<Record>)
      requires Wired() && At(Building(batch, next, records)) && next < |batch| && batch[next] == m
      modifies this`dead, this`trace
      ensures At(if ok then Building(batch, next + 1, records + rs) else Building(batch, 0, []))
    {
      hide Inv, Exec, DecodeMessage, EventRecords;
      FetchedAreInLog(w, trace, m);
      var value := w.log[m.partition][m.offset];
      assert w.Records(m) == MessageRecords(mapper.cfg, value);
      var flats := DecodeValue(value);
      if flats.Err? {
        var o := AnyOutcome();
        Advance(BuildNext(o));
        if !o.FailedClean? {
          dead := dead + [m];
        }
        assert records + [] == records;
        return o.Success?, [];
      }
      rs := MapEvents(flats.value);
      Advance(BuildNext(Success));
      return true, rs;
    }

    method BuildRecords(batch: seq<Message>) returns (ok: bool, records: seq<Record>)
      requires Wired() && At(Building(batch, 0, []))
      modifies this`dead, this`trace
      ensures At(if ok then Building(batch, |batch|, records) else Building(batch, 0, []))
    {
      hide Inv, Exec;
      records := [];
      for next := 0 to |batch|
        invariant At(Building(batch, next, records))
      {
        var built, rs := BuildMessageRecords(batch[next], batch, next, records);
        if !built {
          return false, [];
        }
        records := records + rs;
      }
      return true, records;
    }

    /** Chunks of at most 500 rows, one statement each; the first error stops. */
    method BatchInsert(records: seq<Record>, ghost batch: seq<Message>) returns (ok: bool)
      requires At(Writing(batch, records, 0))
      modifies this`table, this`trace
      ensures At(if ok then Writing(batch, records, |records|) else Building(batch, 0, []))
    {
      hide Inv, Exec;
      var start := 0;
      while start < |records|
        invariant start <= |records| && At(Writing(batch, records, start))
        decreases |records| - start
      {
        var end := if start + MAX_ROWS_PER_STMT < |records| then start + MAX_ROWS_PER_STMT else |records|;
        var o := AnyOutcome();
        Advance(WriteChunk(o));
        if !o.FailedClean? {
          table := InsertRows(table, records[start..end]);
        }
        if !o.Success? {
          return false;
        }
        start := end;
      }
      return true;
    }

    method Process(batch: seq<Message>) returns (ok: bool)
      requires Wired() && At(Building(batch, 0, []))
      modifies this`dead, this`table, this`trace
      ensures At(if ok then Committing(batch) else Building(batch, 0, []))
    {
      hide Inv, Exec;
      var built, records := BuildRecords(batch);
      if !built {
        return false;
      }
      Advance(FinishBuilding);
      if |records| == 0 {
        return true;
      }
      ok := BatchInsert(records, batch);
      if ok {
        Advance(FinishWriting);
      }
    }

    method CommitBatch(batch: seq<Message>) returns (ok: bool)
      requires At(Committing(batch))
      modifies this`committed, this`trace
      ensures At(if ok then Idle else Committing(batch))
    {
      hide Inv, Exec;
      var o := AnyOutcome();
      var applied: set<nat> := {};
      if * { applied := w.log.Keys; }
      Advance(Commit(o, applied));
      committed := map p | p in committed ::
        if CommitOffset(batch, p) > 0 && (o.Success? || (o.Applied() && p in applied)) then CommitOffset(batch, p) else committed[p];
      return o.Success?;
    }

    /** Any number of turns of the main loop, from any number of earlier ones. At every point the
        object is a state of the machine; after the last turn that gives the audit guarantee. */
    method Run(turns: nat)
      requires Wired() && At(Idle)
      modifies this
      ensures Wired()
      ensures forall m :: Committed(m) ==> AuditedOnce(m)
      ensures NoSeparators(w, mapper.cfg) && SameChangeSameRecord(w, mapper.cfg) ==> forall m :: Committed(m) ==> Recorded(m)
    {
      hide Inv, Exec;
      var pending: seq<Message> := [];
      var processed := false;
      ghost var phase := Idle;
      for turn := 0 to turns
        invariant phase == if pending == [] then Idle else if processed then Committing(pending) else Building(pending, 0, [])
        invariant At(phase)
      {
        if |pending| == 0 {
          pending := FetchBatch();
          processed := false;
          if |pending| == 0 {
            phase := Idle;
            continue;
          }
        }
        if !processed {
          processed := Process(pending);
          phase := if processed then Committing(pending) else Building(pending, 0, []);
          if !processed {
            continue;
          }
        }
        var ok := CommitBatch(pending);
        phase := if ok then Idle else Committing(pending);
        if ok {
          pending, processed := [], false;
        }
      }
      forall m | Committed(m) ensures AuditedOnce(m) { RecordsOfCommitted(m); }
      if NoSeparators(w, mapper.cfg) && SameChangeSameRecord(w, mapper.cfg) {
        KeysTellIff(w, mapper.cfg);
        forall m | Committed(m) ensures Recorded(m) { CommittedIsRecorded(m); }
      }
    }

    predicate Committed(m: Message)
      reads this
    {
      w.Has(m) && m.partition in committed && m.offset < committed[m.partition]
    }

    /** Dead-lettered, or every record's key is in the table exactly once, with the record or, in its place,
        another record of the log that has its key. */
    ghost predicate AuditedOnce(m: Message)
      requires w.Has(m)
      reads this
    {
      match MessageRecords(mapper.cfg, w.log[m.partition][m.offset])
      case None => m in dead
      case Some(rs) => forall r :: r in rs ==> |Rows(table, r.dedupKey)| == 1 && (r in table || Displaced(r))
    }

    ghost predicate Displaced(r: Record)
      reads this
    {
      exists q :: q in table && FromLog(w, q) && q.dedupKey == r.dedupKey && q != r
    }

    /** Dead-lettered, or every record is in the table. */
    ghost predicate Recorded(m: Message)
      requires w.Has(m)
      reads this
    {
      match MessageRecords(mapper.cfg, w.log[m.partition][m.offset])
      case None => m in dead
      case Some(rs) => forall r :: r in rs ==> r in table
    }

    lemma RecordsOfCommitted(m: Message)
      requires Wired() && Committed(m) && (exists phase :: At(phase))
      ensures AuditedOnce(m)
    {
      hide Inv, Exec, MessageRecords, Rows;
      CommittedExactlyOnce(w, trace, m);
      assert w.Records(m) == MessageRecords(mapper.cfg, w.log[m.partition][m.offset]);
      if w.Records(m).Some? {
        forall r | r in w.Records(m).value ensures |Rows(table, r.dedupKey)| == 1 && (r in table || Displaced(r)) {
          RecordIsLostIff(w, trace, m, r);
        }
      }
    }

    lemma CommittedIsRecorded(m: Message)
      requires Wired() && Committed(m) && KeysTell(w) && (exists phase :: At(phase))
      ensures Recorded(m)
    {
      hide Inv, Exec, MessageRecords, KeysTell;
      CommittedExactlyOnce(w, trace, m);
      assert w.Records(m) == MessageRecords(mapper.cfg, w.log[m.partition][m.offset]);
      if w.Records(m).Some? {
        forall r | r in w.Records(m).value ensures r in table {
          CommittedRecordsAreInTable(w, trace, m, r);
        }
      }
    }
  }
}
