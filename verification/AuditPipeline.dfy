/** The consume loop as a state machine: fetch a batch, build its records, write them in chunks,
    commit. Any call may fail, with or without effect, and the process may die between any two. */
module AuditPipeline {
  import opened Wire
  import opened CanalCodec
  import opened AuditMapper

  /** A Kafka message, by place; its value is in the log. */
  datatype Message = Message(partition: nat, offset: nat)

  /** What does not change: the partition logs, and what a message value decodes and maps to
      (None when it does not decode). */
  datatype World = World(log: map<nat, seq<Bytes>>, recordsOf: Bytes -> Option<seq<Record>>) {
    predicate Has(m: Message) {
      m.partition in log && m.offset < |log[m.partition]|
    }

    function Records(m: Message): Option<seq<Record>> {
      if Has(m) then recordsOf(log[m.partition][m.offset]) else None
    }
  }

  datatype Phase =
    | Idle
    | Fetching(batch: seq<Message>)
    | Building(batch: seq<Message>, next: nat, records: seq<Record>)
    | Writing(batch: seq<Message>, records: seq<Record>, start: nat)
    | Committing(batch: seq<Message>)

  /** committed and table survive a crash, dead is the history of dead-letter lines written. */
  datatype State = State(
    committed: map<nat, nat>, position: map<nat, nat>, phase: Phase, table: seq<Record>, dead: seq<Message>)

  /** The outcome of a call that may fail: did it take effect, and did the caller see success. */
  datatype Outcome = Success | FailedApplied | FailedClean {
    predicate Applied() { !FailedClean? }
  }

  datatype Action =
    | Fetch(partition: nat)               // one more message
    | StopFetching                        // deadline, full batch, or a fetch error after the first message
    | BuildNext(deadLetter: Outcome)      // decode one message; the outcome matters if it must be dead-lettered
    | FinishBuilding
    | WriteChunk(outcome: Outcome)
    | FinishWriting
    | Commit(outcome: Outcome, applied: set<nat>)  // a failed commit may have reached some partitions
    | Crash                               // and restart from the committed offsets

  const MAX_ROWS_PER_STMT: nat := 500

  function Keys(table: seq<Record>): set<Bytes> {
    set r | r in table :: r.dedupKey
  }

  /** INSERT ... ON DUPLICATE KEY UPDATE dedup_key = dedup_key, one row. */
  function InsertRow(table: seq<Record>, r: Record): seq<Record> {
    if r.dedupKey in Keys(table) then table else table + [r]
  }

  function InsertRows(table: seq<Record>, rows: seq<Record>): seq<Record> {
    if rows == [] then table else InsertRow(InsertRows(table, rows[..|rows| - 1]), rows[|rows| - 1])
  }

  function ChunkEnd(start: nat, n: nat): (end: nat)
    requires start <= n
    ensures start <= end <= n && end - start <= 500 && (start < n ==> start < end)
  {
    if start + MAX_ROWS_PER_STMT < n then start + MAX_ROWS_PER_STMT else n
  }

  /** The offset a commit of the batch stores for a partition; 0 when the batch has none of it. */
  function CommitOffset(batch: seq<Message>, partition: nat): nat {
    if batch == [] then 0
    else
      var before, last := CommitOffset(batch[..|batch| - 1], partition), batch[|batch| - 1];
      if last.partition == partition && last.offset + 1 > before then last.offset + 1 else before
  }

  /** Messages of the partition below this offset are committed. */
  function UpTo(s: State, partition: nat): nat {
    if partition in s.committed then s.committed[partition] else 0
  }

  function BatchOf(phase: Phase): seq<Message> {
    if phase.Idle? then [] else phase.batch
  }

  /** One step; an action the phase does not allow changes nothing. */
  function Step(w: World, s: State, a: Action): State {
    match a
    case Fetch(p) =>
      if (s.phase.Idle? || s.phase.Fetching?) && p in w.log && p in s.position && s.position[p] < |w.log[p]| then
        s.(phase := Fetching(BatchOf(s.phase) + [Message(p, s.position[p])]), position := s.position[p := s.position[p] + 1])
      else s
    case StopFetching =>
      if s.phase.Fetching? then s.(phase := Building(s.phase.batch, 0, [])) else s
    case BuildNext(deadLetter) =>
      if s.phase.Building? && s.phase.next < |s.phase.batch| then
        var m := s.phase.batch[s.phase.next];
        match w.Records(m)
        case Some(rs) => s.(phase := s.phase.(next := s.phase.next + 1, records := s.phase.records + rs))
        case None =>
          s.(dead := if deadLetter.Applied() then s.dead + [m] else s.dead,
             phase := if deadLetter.Success? then s.phase.(next := s.phase.next + 1) else Building(s.phase.batch, 0, []))
      else s
    case FinishBuilding =>
      if s.phase.Building? && s.phase.next == |s.phase.batch| then
        s.(phase := if s.phase.records == [] then Committing(s.phase.batch) else Writing(s.phase.batch, s.phase.records, 0))
      else s
    case WriteChunk(outcome) =>
      if s.phase.Writing? && s.phase.start < |s.phase.records| then
        var end := ChunkEnd(s.phase.start, |s.phase.records|);
        s.(table := if outcome.Applied() then InsertRows(s.table, s.phase.records[s.phase.start..end]) else s.table,
           phase := if outcome.Success? then s.phase.(start := end) else Building(s.phase.batch, 0, []))
      else s
    case FinishWriting =>
      if s.phase.Writing? && s.phase.start >= |s.phase.records| then s.(phase := Committing(s.phase.batch)) else s
    case Commit(outcome, applied) =>
      if s.phase.Committing? then
        s.(committed := map p | p in s.committed ::
             if CommitOffset(s.phase.batch, p) > 0 && (outcome.Success? || (outcome.Applied() && p in applied))
             then CommitOffset(s.phase.batch, p) else s.committed[p],
           phase := if outcome.Success? then Idle else s.phase)
      else s
    case Crash => s.(position := s.committed, phase := Idle)
  }

  // ---------- the invariant ----------

  /** The message left its trace: its records are in the table, or it was dead-lettered. */
  ghost predicate Audited(w: World, s: State, m: Message)
    requires w.Has(m)
  {
    match w.Records(m)
    case None => m in s.dead
    case Some(rs) => forall r :: r in rs ==> r.dedupKey in Keys(s.table)
  }

  /** The same, for a batch whose records are still in memory. */
  ghost predicate Collected(w: World, s: State, records: seq<Record>, m: Message)
    requires w.Has(m)
  {
    match w.Records(m)
    case None => m in s.dead
    case Some(rs) => forall r :: r in rs ==> r in records
  }

  ghost predicate UniqueKeys(table: seq<Record>) {
    forall i, j :: 0 <= i < j < |table| ==> table[i].dedupKey != table[j].dedupKey
  }

  ghost predicate FromLog(w: World, r: Record) {
    exists m :: w.Has(m) && w.Records(m).Some? && r in w.Records(m).value
  }

  ghost predicate OffsetsValid(w: World, s: State) {
    && s.committed.Keys == s.position.Keys == w.log.Keys
    && (forall p :: p in w.log ==> s.committed[p] <= s.position[p] <= |w.log[p]|)
    && (forall m :: m in BatchOf(s.phase) ==> m.partition in w.log && m.offset < s.position[m.partition])
    && (forall p :: p in w.log ==> CommitOffset(BatchOf(s.phase), p) in {0, s.position[p]})
    && (forall m: Message :: m.partition in w.log && s.committed[m.partition] <= m.offset < s.position[m.partition]
         ==> m in BatchOf(s.phase))
  }

  ghost predicate PhaseValid(w: World, s: State)
    requires OffsetsValid(w, s)
  {
    match s.phase
    case Idle => true
    case Fetching(_) => true
    case Building(batch, next, records) =>
      next <= |batch| && (forall i :: 0 <= i < next ==> Collected(w, s, records, batch[i])) && (forall r :: r in records ==> FromLog(w, r))
    case Writing(batch, records, start) =>
      && start <= |records|
      && (forall m :: m in batch ==> Collected(w, s, records, m))
      && (forall r :: r in records ==> FromLog(w, r))
      && (forall i :: 0 <= i < start ==> records[i].dedupKey in Keys(s.table))
    case Committing(batch) => forall m :: m in batch ==> Audited(w, s, m)
  }

  ghost predicate Inv(w: World, s: State) {
    && OffsetsValid(w, s)
    && PhaseValid(w, s)
    && (forall m: Message :: m.partition in w.log && m.offset < s.committed[m.partition] ==> Audited(w, s, m))
    && UniqueKeys(s.table)
    && (forall r :: r in s.table ==> FromLog(w, r))
  }

  function Init(w: World): State {
    State(map p | p in w.log :: 0, map p | p in w.log :: 0, Idle, [], [])
  }

  // ---------- the table ----------

  /** An insert of rows keeps what was there, adds no key twice, and leaves every key present. */
  lemma {:induction false} InsertRowsIsIdempotentUnion(table: seq<Record>, rows: seq<Record>)
    requires UniqueKeys(table)
    ensures var t := InsertRows(table, rows);
      && table <= t && UniqueKeys(t) && Keys(t) == Keys(table) + Keys(rows)
      && (forall r :: r in t ==> r in table || r in rows)
  {
    if rows != [] {
      var init, r := rows[..|rows| - 1], rows[|rows| - 1];
      InsertRowsIsIdempotentUnion(table, init);
      assert rows == init + [r];
      KeysOfAppend(init, r);
      KeysOfAppend(InsertRows(table, init), r);
    } else {
      assert Keys(rows) == {};
    }
  }

  lemma KeysOfAppend(table: seq<Record>, r: Record)
    ensures Keys(table + [r]) == Keys(table) + {r.dedupKey}
  {
    assert forall x :: x in table + [r] <==> x in table || x == r;
  }

  /** A batch already in the table is written again without effect. */
  lemma {:induction false} ReplayIsNoOp(table: seq<Record>, rows: seq<Record>)
    requires Keys(rows) <= Keys(table)
    ensures InsertRows(table, rows) == table
  {
    if rows != [] {
      var init, r := rows[..|rows| - 1], rows[|rows| - 1];
      assert r in rows && forall x :: x in init ==> x in rows;
      ReplayIsNoOp(table, init);
    }
  }

  // ---------- every step keeps the invariant ----------

  lemma BatchInLog(w: World, s: State)
    requires OffsetsValid(w, s)
    ensures forall m :: m in BatchOf(s.phase) ==> w.Has(m)
  {
  }

  lemma FetchKeepsInv(w: World, s: State, p: nat)
    requires Inv(w, s)
    ensures Inv(w, Step(w, s, Fetch(p)))
  {
    BatchInLog(w, s);
    var t := Step(w, s, Fetch(p));
    if t != s {
      var batch := BatchOf(s.phase);
      assert t.phase.batch[..|batch|] == batch;
      forall m: Message | m.partition in w.log && t.committed[m.partition] <= m.offset < t.position[m.partition]
        ensures m in BatchOf(t.phase)
      {
        if m != Message(p, s.position[p]) {
          assert m in batch;
        }
      }
      forall q | q in w.log
        ensures CommitOffset(t.phase.batch, q) in {0, t.position[q]}
      {
        assert CommitOffset(batch, q) in {0, s.position[q]};
      }
      SameTraces(w, s, t);
    }
  }

  /** Audited messages stay audited while tables and dead letters only grow. */
  lemma SameTraces(w: World, s: State, t: State)
    requires s.table <= t.table && s.dead <= t.dead
    ensures forall m :: w.Has(m) && Audited(w, s, m) ==> Audited(w, t, m)
    ensures forall m, rs :: w.Has(m) && Collected(w, s, rs, m) ==> Collected(w, t, rs, m)
    ensures Keys(s.table) <= Keys(t.table)
  {
  }

  lemma BuildNextKeepsInv(w: World, s: State, o: Outcome)
    requires Inv(w, s)
    ensures Inv(w, Step(w, s, BuildNext(o)))
  {
    hide UniqueKeys, FromLog, CommitOffset;
    BatchInLog(w, s);
    var t := Step(w, s, BuildNext(o));
    SameTraces(w, s, t);
    if s.phase.Building? && s.phase.next < |s.phase.batch| {
      var m := s.phase.batch[s.phase.next];
      if w.Records(m).Some? {
        RecordsCollected(w, s, t, m);
      }
    }
  }

  lemma RecordsCollected(w: World, s: State, t: State, m: Message)
    requires Inv(w, s) && s.phase.Building? && s.phase.next < |s.phase.batch| && m == s.phase.batch[s.phase.next]
    requires w.Has(m) && w.Records(m).Some?
    requires t == s.(phase := Building(s.phase.batch, s.phase.next + 1, s.phase.records + w.Records(m).value))
    ensures OffsetsValid(w, t) && PhaseValid(w, t)
  {
    var rs := w.Records(m).value;
    forall i | 0 <= i < t.phase.next
      ensures Collected(w, t, t.phase.records, s.phase.batch[i])
    {
      if i < s.phase.next { assert Collected(w, s, s.phase.records, s.phase.batch[i]); }
    }
    forall r | r in t.phase.records
      ensures FromLog(w, r)
    {
      if r !in s.phase.records { assert r in rs; }
    }
  }

  lemma FinishBuildingKeepsInv(w: World, s: State)
    requires Inv(w, s)
    ensures Inv(w, Step(w, s, FinishBuilding))
  {
    BatchInLog(w, s);
    SameTraces(w, s, Step(w, s, FinishBuilding));
  }

  lemma WriteChunkKeepsInv(w: World, s: State, o: Outcome)
    requires Inv(w, s)
    ensures Inv(w, Step(w, s, WriteChunk(o)))
  {
    hide FromLog, CommitOffset, InsertRows, Audited, Collected, UniqueKeys;
    BatchInLog(w, s);
    var t := Step(w, s, WriteChunk(o));
    if s.phase.Writing? && s.phase.start < |s.phase.records| {
      var start, end := s.phase.start, ChunkEnd(s.phase.start, |s.phase.records|);
      InsertRowsIsIdempotentUnion(s.table, s.phase.records[start..end]);
      SameTraces(w, s, t);
      if o.Success? {
        ChunkIsInTable(s.phase.records, start, end, Keys(s.table), Keys(t.table));
      }
    }
  }

  lemma ChunkIsInTable(records: seq<Record>, start: nat, end: nat, before: set<Bytes>, after: set<Bytes>)
    requires start <= end <= |records| && after == before + Keys(records[start..end])
    requires forall i :: 0 <= i < start ==> records[i].dedupKey in before
    ensures forall i :: 0 <= i < end ==> records[i].dedupKey in after
  {
    forall i | 0 <= i < end
      ensures records[i].dedupKey in after
    {
      if i >= start { assert records[i] == records[start..end][i - start]; }
    }
  }

  lemma FinishWritingKeepsInv(w: World, s: State)
    requires Inv(w, s)
    ensures Inv(w, Step(w, s, FinishWriting))
  {
    BatchInLog(w, s);
    var t := Step(w, s, FinishWriting);
    SameTraces(w, s, t);
    if t != s {
      forall m | m in t.phase.batch
        ensures Audited(w, t, m)
      {
        assert Collected(w, s, s.phase.records, m);
      }
    }
  }

  lemma CommitKeepsInv(w: World, s: State, o: Outcome, applied: set<nat>)
    requires Inv(w, s)
    ensures Inv(w, Step(w, s, Commit(o, applied)))
  {
    hide UniqueKeys, FromLog;
    var t := Step(w, s, Commit(o, applied));
    if s.phase.Committing? {
      assert OffsetsValid(w, t) by { CommitKeepsOffsets(w, s, o, applied); }
      BatchInLog(w, s);
      SameTraces(w, s, t);
      hide OffsetsValid, Audited;
    }
  }

  /** A partition that was committed is committed up to the position; the others stay where they were. */
  lemma CommitKeepsOffsets(w: World, s: State, o: Outcome, applied: set<nat>)
    requires OffsetsValid(w, s) && s.phase.Committing?
    ensures OffsetsValid(w, Step(w, s, Commit(o, applied)))
  {
    forall m: Message | m.partition in w.log && s.committed[m.partition] <= m.offset < s.position[m.partition]
      ensures CommitOffset(s.phase.batch, m.partition) == s.position[m.partition]
    {
      CommitOffsetCovers(s.phase.batch, m);
    }
  }

  lemma {:induction false} CommitOffsetCovers(batch: seq<Message>, m: Message)
    requires m in batch
    ensures CommitOffset(batch, m.partition) > m.offset
  {
    if m != batch[|batch| - 1] {
      CommitOffsetCovers(batch[..|batch| - 1], m);
    }
  }

  lemma StepKeepsInv(w: World, s: State, a: Action)
    requires Inv(w, s)
    ensures Inv(w, Step(w, s, a))
  {
    BatchInLog(w, s);
    match a
    case Fetch(p) => FetchKeepsInv(w, s, p);
    case StopFetching =>
    case BuildNext(o) => BuildNextKeepsInv(w, s, o);
    case FinishBuilding => FinishBuildingKeepsInv(w, s);
    case WriteChunk(o) => WriteChunkKeepsInv(w, s, o);
    case FinishWriting => FinishWritingKeepsInv(w, s);
    case Commit(o, applied) => CommitKeepsInv(w, s, o, applied);
    case Crash =>
  }

  // ---------- whole runs ----------

  /** The state after any sequence of steps from the start. */
  ghost function Exec(w: World, run: seq<Action>): State {
    if run == [] then Init(w) else Step(w, Exec(w, run[..|run| - 1]), run[|run| - 1])
  }

  /** The invariant holds in every reachable state. */
  lemma {:induction false} Reachable(w: World, run: seq<Action>)
    ensures Inv(w, Exec(w, run))
  {
    hide Step;
    if run != [] {
      hide Inv;
      Reachable(w, run[..|run| - 1]);
      StepKeepsInv(w, Exec(w, run[..|run| - 1]), run[|run| - 1]);
    }
  }

  lemma ExecStep(w: World, run: seq<Action>, a: Action)
    ensures Exec(w, run + [a]) == Step(w, Exec(w, run), a)
  {
    assert (run + [a])[..|run|] == run;
  }

  ghost function Rows(table: seq<Record>, key: Bytes): set<nat> {
    set i | 0 <= i < |table| && table[i].dedupKey == key
  }

  /** Whatever failed, was replayed or crashed: every message below a committed offset was
      dead-lettered, or each of its records has its key in the table exactly once. */
  lemma CommittedExactlyOnce(w: World, run: seq<Action>, m: Message)
    requires m.offset < UpTo(Exec(w, run), m.partition)
    ensures w.Has(m)
    ensures match w.Records(m)
            case None => m in Exec(w, run).dead
            case Some(rs) => forall r :: r in rs ==> |Rows(Exec(w, run).table, r.dedupKey)| == 1
  {
    hide PhaseValid, FromLog, Rows;
    Reachable(w, run);
    var s := Exec(w, run);
    assert Audited(w, s, m);
    if w.Records(m).Some? {
      forall r | r in w.Records(m).value
        ensures |Rows(s.table, r.dedupKey)| == 1
      {
        OneRowPerKey(s.table, r.dedupKey);
      }
    }
  }

  lemma OneRowPerKey(table: seq<Record>, key: Bytes)
    requires UniqueKeys(table) && key in Keys(table)
    ensures |Rows(table, key)| == 1
  {
    var row :| row in table && row.dedupKey == key;
    var i :| 0 <= i < |table| && table[i] == row;
    assert Rows(table, key) == {i};
  }

  /** No two different records of the log have one key. */
  ghost predicate KeysTell(w: World) {
    forall r, q :: FromLog(w, r) && FromLog(w, q) && r.dedupKey == q.dedupKey ==> r == q
  }

  /** A record of a committed message is missing from the table if and only if another record of the log,
      with its key, is there in its place. */
  lemma RecordIsLostIff(w: World, run: seq<Action>, m: Message, r: Record)
    requires m.offset < UpTo(Exec(w, run), m.partition) && w.Records(m).Some? && r in w.Records(m).value
    ensures var table := Exec(w, run).table;
      r !in table <==> exists q :: q in table && FromLog(w, q) && q.dedupKey == r.dedupKey && q != r
  {
    hide PhaseValid, OffsetsValid;
    Reachable(w, run);
    var s := Exec(w, run);
    CommittedExactlyOnce(w, run, m);
    assert Audited(w, s, m);
    assert r.dedupKey in Keys(s.table);
    if r !in s.table {
      var q :| q in s.table && q.dedupKey == r.dedupKey;
      assert FromLog(w, q);
    } else {
      forall q | q in s.table && q.dedupKey == r.dedupKey ensures q == r {
        var i :| 0 <= i < |s.table| && s.table[i] == r;
        var j :| 0 <= j < |s.table| && s.table[j] == q;
      }
    }
  }

  /** Where keys tell records apart, every record of a committed message is in the table, whole. */
  lemma CommittedRecordsAreInTable(w: World, run: seq<Action>, m: Message, r: Record)
    requires KeysTell(w)
    requires m.offset < UpTo(Exec(w, run), m.partition) && w.Records(m).Some? && r in w.Records(m).value
    ensures r in Exec(w, run).table
  {
    CommittedExactlyOnce(w, run, m);
    assert FromLog(w, r);
    RecordIsLostIff(w, run, m, r);
  }

  /** And only there: once the whole log is committed, the table holds all its records if and only if keys
      tell them apart. */
  lemma AllRecordsIffKeysTell(w: World, run: seq<Action>)
    requires forall m: Message :: w.Has(m) ==> m.offset < UpTo(Exec(w, run), m.partition)
    ensures KeysTell(w) <==> forall r :: FromLog(w, r) ==> r in Exec(w, run).table
  {
    hide PhaseValid, OffsetsValid;
    var table := Exec(w, run).table;
    if KeysTell(w) {
      forall r | FromLog(w, r) ensures r in table {
        var m: Message :| w.Has(m) && w.Records(m).Some? && r in w.Records(m).value;
        CommittedRecordsAreInTable(w, run, m, r);
      }
    }
    if forall r :: FromLog(w, r) ==> r in table {
      Reachable(w, run);
      forall r, q | FromLog(w, r) && FromLog(w, q) && r.dedupKey == q.dedupKey ensures r == q {
        var i :| 0 <= i < |table| && table[i] == r;
        var j :| 0 <= j < |table| && table[j] == q;
      }
    }
  }

  /** No key twice in the table, and every row is a record some message maps to. */
  lemma TableIsSound(w: World, run: seq<Action>, i: nat)
    requires i < |Exec(w, run).table|
    ensures Rows(Exec(w, run).table, Exec(w, run).table[i].dedupKey) == {i}
    ensures FromLog(w, Exec(w, run).table[i])
  {
    Reachable(w, run);
    var t := Exec(w, run).table;
    assert t[i] in t;
    forall j | j in Rows(t, t[i].dedupKey) ensures j == i {}
  }

  /** As a run goes on, rows are only appended, never changed, and commits never go back. */
  lemma {:induction false} RunsOnlyAppend(w: World, run: seq<Action>, more: seq<Action>)
    ensures Exec(w, run).table <= Exec(w, run + more).table
    ensures forall p :: UpTo(Exec(w, run), p) <= UpTo(Exec(w, run + more), p)
    decreases |more|
  {
    hide Step, PhaseValid;
    if more == [] {
      assert run + more == run;
    } else {
      var init, a := more[..|more| - 1], more[|more| - 1];
      RunsOnlyAppend(w, run, init);
      assert run + more == (run + init) + [a];
      ExecStep(w, run + init, a);
      Reachable(w, run + init);
      StepOnlyAppends(w, Exec(w, run + init), a);
    }
  }

  lemma StepOnlyAppends(w: World, s: State, a: Action)
    requires Inv(w, s)
    ensures s.table <= Step(w, s, a).table
    ensures forall p :: UpTo(s, p) <= UpTo(Step(w, s, a), p)
  {
    BatchInLog(w, s);
    if a.WriteChunk? && s.phase.Writing? && s.phase.start < |s.phase.records| {
      var end := ChunkEnd(s.phase.start, |s.phase.records|);
      InsertRowsIsIdempotentUnion(s.table, s.phase.records[s.phase.start..end]);
    }
  }
}
