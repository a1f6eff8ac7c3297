/** At-least-once delivery as interleaved steps. Any number of gateway instances, each with its own
    consumer group on one event stream, share the delivery hash; each has two consumer workers (the
    reader and the claimer of pending entries), a hub, handshakes and connections. Every call to the
    outside may fail, connections may close and instances may crash between any two steps. */
module GatewayProtocol {
  import opened GatewayObjects

  // ---------- the state ----------

  /** Where a worker is with the first entry of its batch. */
  datatype Phase = Saving | Acking | Getting | Sending(c: nat) | Overflowed(c: nat)

  datatype Worker = Worker(todo: seq<nat>, phase: Phase) {
    predicate Working() { todo != [] }

    function Next(): Worker
      requires todo != []
    {
      Worker(todo[1..], Saving)
    }
  }

  const RESTING := Worker([], Saving)

  datatype Which = Reader | Claimer

  /** saved is the history of entries this instance stored successfully. */
  datatype Gate = Gate(next: nat, pel: set<nat>, saved: set<nat>, hub: map<Session, nat>, reader: Worker, claimer: Worker) {
    function Get(w: Which): Worker { if w.Reader? then reader else claimer }

    function Set(w: Which, k: Worker): Gate { if w.Reader? then this.(reader := k) else this.(claimer := k) }
  }

  /** How far the handshake is with replaying stored events to its connection. */
  datatype Shake = Registered | Replaying(rest: seq<Payload>) | Overflow | Finished | Failed

  function Replay(rest: seq<Payload>): Shake { if rest == [] then Finished else Replaying(rest) }

  datatype Conn = Conn(gate: nat, session: Session, pipe: Pipe, shake: Shake)

  /** Connections are named by their position. acked and expired are histories: what a client's ack
      removed from the hash, and what its expiry took. */
  datatype State = State(
    stream: seq<Entry>, trimmed: nat, store: Deliveries, gates: seq<Gate>, conns: seq<Conn>,
    acked: set<(Session, EventId)>, expired: set<(Session, EventId)>)

  const INIT := State([], 0, map[], [], [], {}, {})

  datatype Outcome = Success | FailedApplied | FailedClean {
    predicate Applied() { !FailedClean? }
  }

  datatype Action =
    | Publish(e: Entry)
    | Trim(upTo: nat)
    | AddGate
    | Read(g: nat, n: nat, answered: bool)                     // XREADGROUP; the reply may be lost
    | Claim(g: nat, batch: seq<nat>, gone: set<nat>, answered: bool) // XAUTOCLAIM
    | Skip(g: nat, w: Which, o: Outcome)                       // a malformed entry is acknowledged away
    | Save(g: nat, w: Which, o: Outcome)
    | XAck(g: nat, w: Which, o: Outcome)
    | Get(g: nat, w: Which)
    | Send(g: nat, w: Which, late: bool)
    | CloseSlow(g: nat, w: Which)
    | Connect(g: nat, session: Session, queueSize: int)
    | ReadPending(c: nat, order: seq<Payload>, ok: bool)
    | ReplayOne(c: nat, late: bool)
    | CloseOverflow(c: nat)
    | Take(c: nat)
    | Write(c: nat)
    | Close(c: nat)
    | Unregister(c: nat)
    | CloseAll(g: nat)
    | Ack(c: nat, id: EventId, o: Outcome)
    | Expire(session: Session)
    | Crash(g: nat)

  // ---------- the steps ----------

  function Range(from: nat, n: nat): (r: seq<nat>)
    ensures |r| == n && forall k :: 0 <= k < n ==> r[k] == from + k
  {
    seq(n, k requires 0 <= k < n => from + k)
  }

  predicate Busy(s: State, g: nat, w: Which) {
    g < |s.gates| && s.gates[g].Get(w).Working() && s.gates[g].Get(w).todo[0] < |s.stream|
  }

  function Head(s: State, g: nat, w: Which): nat
    requires Busy(s, g, w)
  {
    s.gates[g].Get(w).todo[0]
  }

  function PhaseOf(s: State, g: nat, w: Which): Phase
    requires Busy(s, g, w)
  {
    s.gates[g].Get(w).phase
  }

  function SetGate(s: State, g: nat, gate: Gate): State
    requires g < |s.gates|
  {
    s.(gates := s.gates[g := gate])
  }

  function SetWorker(s: State, g: nat, w: Which, k: Worker): State
    requires g < |s.gates|
  {
    SetGate(s, g, s.gates[g].Set(w, k))
  }

  function SetPhase(s: State, g: nat, w: Which, phase: Phase): State
    requires g < |s.gates|
  {
    SetWorker(s, g, w, s.gates[g].Get(w).(phase := phase))
  }

  /** On to the next entry of the batch. */
  function Pop(s: State, g: nat, w: Which): State
    requires Busy(s, g, w)
  {
    SetWorker(s, g, w, s.gates[g].Get(w).Next())
  }

  function XAcked(s: State, g: nat, i: nat, o: Outcome): State
    requires g < |s.gates|
  {
    if o.Applied() then SetGate(s, g, s.gates[g].(pel := s.gates[g].pel - {i})) else s
  }

  function SetPipe(s: State, c: nat, pipe: Pipe): State
    requires c < |s.conns|
  {
    s.(conns := s.conns[c := s.conns[c].(pipe := pipe)])
  }

  function SetShake(s: State, c: nat, shake: Shake): State
    requires c < |s.conns|
  {
    s.(conns := s.conns[c := s.conns[c].(shake := shake)])
  }

  function WithClosed(s: State, c: nat): State
    requires c < |s.conns|
  {
    SetPipe(s, c, s.conns[c].pipe.(closed := true))
  }

  function StepRead(s: State, g: nat, n: nat, answered: bool): State {
    if g < |s.gates| && !s.gates[g].reader.Working() then
      var gate := s.gates[g];
      var from := if gate.next < s.trimmed then s.trimmed else gate.next;
      if from + n <= |s.stream| then
        var batch := Range(from, n);
        SetGate(s, g, gate.(next := from + n, pel := gate.pel + (set i | i in batch),
                            reader := if answered then Worker(batch, Saving) else RESTING))
      else s
    else s
  }

  function StepClaim(s: State, g: nat, batch: seq<nat>, gone: set<nat>, answered: bool): State {
    if g < |s.gates| && !s.gates[g].claimer.Working() && (forall i :: i in batch ==> i in s.gates[g].pel)
       && (forall i :: i in gone ==> i < s.trimmed) then
      SetGate(s, g, s.gates[g].(pel := s.gates[g].pel - gone, claimer := if answered then Worker(batch, Saving) else RESTING))
    else s
  }

  function StepSkip(s: State, g: nat, w: Which, o: Outcome): State {
    if Busy(s, g, w) && PhaseOf(s, g, w).Saving? && !s.stream[Head(s, g, w)].WellFormed() then
      Pop(XAcked(s, g, Head(s, g, w), o), g, w)
    else s
  }

  /** Only a save that reported success is followed by XACK; otherwise the entry stays pending. */
  function StepSave(s: State, g: nat, w: Which, o: Outcome): State {
    if Busy(s, g, w) && PhaseOf(s, g, w).Saving? && s.stream[Head(s, g, w)].WellFormed() then
      var e := s.stream[Head(s, g, w)];
      var after := s.(store := if o.Applied() then s.store[e.Key() := e.Message()] else s.store);
      if o.Success? then
        SetPhase(SetGate(after, g, s.gates[g].(saved := s.gates[g].saved + {Head(s, g, w)})), g, w, Acking)
      else Pop(after, g, w)
    else s
  }

  /** A failed XACK is logged and delivery goes on. */
  function StepXAck(s: State, g: nat, w: Which, o: Outcome): State {
    if Busy(s, g, w) && PhaseOf(s, g, w).Acking? then SetPhase(XAcked(s, g, Head(s, g, w), o), g, w, Getting) else s
  }

  function StepGet(s: State, g: nat, w: Which): State {
    if Busy(s, g, w) && PhaseOf(s, g, w).Getting? then
      var target := s.stream[Head(s, g, w)].target;
      if target in s.gates[g].hub then SetPhase(s, g, w, Sending(s.gates[g].hub[target])) else Pop(s, g, w)
    else s
  }

  function StepSend(s: State, g: nat, w: Which, late: bool): State {
    if Busy(s, g, w) && PhaseOf(s, g, w).Sending? && PhaseOf(s, g, w).c < |s.conns| then
      var c, p := PhaseOf(s, g, w).c, s.stream[Head(s, g, w)].Message();
      if SendResultOf(s.conns[c].pipe, late).QueueFull? then SetPhase(s, g, w, Overflowed(c))
      else Pop(SetPipe(s, c, AfterSend(s.conns[c].pipe, p, late)), g, w)
    else s
  }

  function StepCloseSlow(s: State, g: nat, w: Which): State {
    if Busy(s, g, w) && PhaseOf(s, g, w).Overflowed? && PhaseOf(s, g, w).c < |s.conns| then
      Pop(WithClosed(s, PhaseOf(s, g, w).c), g, w)
    else s
  }

  function StepConnect(s: State, g: nat, session: Session, queueSize: int): State {
    if g < |s.gates| then
      SetGate(s.(conns := s.conns + [Conn(g, session, NewPipe(queueSize), Registered)]), g,
              s.gates[g].(hub := RegisterIn(s.gates[g].hub, session, |s.conns|)))
    else s
  }

  function StepReadPending(s: State, c: nat, order: seq<Payload>, ok: bool): State {
    if c < |s.conns| && s.conns[c].shake.Registered? && (ok ==> IsPending(s.store, s.conns[c].session, order)) then
      SetShake(s, c, if ok then Replay(order) else Failed)
    else s
  }

  /** Only a full queue stops the replay; a closed connection is sent to in vain. */
  function StepReplayOne(s: State, c: nat, late: bool): State {
    if c < |s.conns| && s.conns[c].shake.Replaying? && s.conns[c].shake.rest != [] then
      var rest, pipe := s.conns[c].shake.rest, s.conns[c].pipe;
      if SendResultOf(pipe, late).QueueFull? then SetShake(s, c, Overflow)
      else SetShake(SetPipe(s, c, AfterSend(pipe, rest[0], late)), c, Replay(rest[1..]))
    else s
  }

  function StepUnregister(s: State, c: nat): State {
    if c < |s.conns| && s.conns[c].pipe.closed && s.conns[c].gate < |s.gates| then
      var g := s.conns[c].gate;
      SetGate(s, g, s.gates[g].(hub := UnregisterFrom(s.gates[g].hub, s.conns[c].session, c)))
    else s
  }

  function StepAck(s: State, c: nat, id: EventId, o: Outcome): State {
    if c < |s.conns| && id != "" && o.Applied() then
      var key := (s.conns[c].session, id);
      s.(store := s.store - {key}, acked := s.acked + {key})
    else s
  }

  function StepExpire(s: State, session: Session): State {
    var gone := set key | key in s.store && key.0 == session;
    s.(store := s.store - gone, expired := s.expired + gone)
  }

  /** The process dies and comes back: its workers, hub and connections are gone, its group is not. */
  function StepCrash(s: State, g: nat): State {
    if g < |s.gates| then
      SetGate(s.(conns := seq(|s.conns|, c requires 0 <= c < |s.conns| =>
                   if s.conns[c].gate == g then s.conns[c].(pipe := s.conns[c].pipe.(closed := true), shake := Failed) else s.conns[c])),
              g, s.gates[g].(hub := map[], reader := RESTING, claimer := RESTING))
    else s
  }

  function Step(s: State, a: Action): State {
    match a
    case Publish(e) => s.(stream := s.stream + [e])
    case Trim(upTo) => if s.trimmed <= upTo <= |s.stream| then s.(trimmed := upTo) else s
    case AddGate => s.(gates := s.gates + [Gate(0, {}, {}, map[], RESTING, RESTING)])
    case Read(g, n, answered) => StepRead(s, g, n, answered)
    case Claim(g, batch, gone, answered) => StepClaim(s, g, batch, gone, answered)
    case Skip(g, w, o) => StepSkip(s, g, w, o)
    case Save(g, w, o) => StepSave(s, g, w, o)
    case XAck(g, w, o) => StepXAck(s, g, w, o)
    case Get(g, w) => StepGet(s, g, w)
    case Send(g, w, late) => StepSend(s, g, w, late)
    case CloseSlow(g, w) => StepCloseSlow(s, g, w)
    case Connect(g, session, queueSize) => StepConnect(s, g, session, queueSize)
    case ReadPending(c, order, ok) => StepReadPending(s, c, order, ok)
    case ReplayOne(c, late) => StepReplayOne(s, c, late)
    case CloseOverflow(c) => if c < |s.conns| && s.conns[c].shake.Overflow? then SetShake(WithClosed(s, c), c, Failed) else s
    case Take(c) => if c < |s.conns| then SetPipe(s, c, AfterTake(s.conns[c].pipe)) else s
    case Write(c) => if c < |s.conns| then SetPipe(s, c, AfterWrite(s.conns[c].pipe)) else s
    case Close(c) => if c < |s.conns| then WithClosed(s, c) else s
    case Unregister(c) => StepUnregister(s, c)
    case CloseAll(g) => if g < |s.gates| then SetGate(s, g, s.gates[g].(hub := map[])) else s
    case Ack(c, id, o) => StepAck(s, c, id, o)
    case Expire(session) => StepExpire(s, session)
    case Crash(g) => StepCrash(s, g)
  }

  // ---------- the invariant ----------

  /** The payload tells this entry: its id, its kind and its reason. */
  predicate Tells(p: Payload, e: Entry) {
    p.eventId == e.eventId && p.kind == e.kind && p.reason == e.reason
  }

  /** The payload tells an event published for this session. */
  ghost predicate Published(stream: seq<Entry>, session: Session, p: Payload) {
    exists i: nat :: i < |stream| && stream[i].target == session && Tells(p, stream[i])
  }

  ghost predicate AllPublished(stream: seq<Entry>, session: Session, ps: seq<Payload>) {
    forall p :: p in ps ==> Published(stream, session, p)
  }

  ghost predicate StoreOk(s: State) {
    forall key :: key in s.store ==> s.store[key].eventId == key.1 && Published(s.stream, key.0, s.store[key])
  }

  ghost predicate ConnOk(s: State, c: nat) {
    && c < |s.conns|
    && s.conns[c].gate < |s.gates|
    && s.conns[c].pipe.Valid()
    && AllPublished(s.stream, s.conns[c].session, s.conns[c].pipe.handed)
    && (s.conns[c].shake.Replaying? ==> AllPublished(s.stream, s.conns[c].session, s.conns[c].shake.rest))
  }

  ghost predicate WorkerOk(s: State, gate: Gate, k: Worker) {
    && (forall i :: i in k.todo ==> i < gate.next)
    && (k.Working() && !k.phase.Saving? ==> k.todo[0] in gate.saved)
    && (k.Working() && k.todo[0] < |s.stream| && (k.phase.Sending? || k.phase.Overflowed?) ==>
        k.phase.c < |s.conns| && s.conns[k.phase.c].session == s.stream[k.todo[0]].target)
  }

  ghost predicate HubOk(s: State, g: nat) {
    && g < |s.gates|
    && forall t :: t in s.gates[g].hub ==>
        (var c := s.gates[g].hub[t]; c < |s.conns| && s.conns[c].gate == g && s.conns[c].session == t)
  }

  /** An entry the group has read is pending, was saved, was trimmed away, or is malformed. */
  ghost predicate GateOk(s: State, g: nat) {
    && g < |s.gates|
    && var gate := s.gates[g];
      && gate.next <= |s.stream|
      && (forall i :: i in gate.pel ==> i < gate.next)
      && (forall i :: i in gate.saved ==> i < gate.next && s.stream[i].WellFormed())
      && (forall i: nat :: i < gate.next ==> i in gate.pel || i in gate.saved || i < s.trimmed || !s.stream[i].WellFormed())
      && WorkerOk(s, gate, gate.reader)
      && WorkerOk(s, gate, gate.claimer)
  }

  /** Saved, and still to ask the hub for a connection. */
  predicate BeforeGet(k: Worker, i: nat) {
    k.Working() && k.todo[0] == i && (k.phase.Acking? || k.phase.Getting?)
  }

  /** Has this connection, and has not finished with it. */
  predicate Pushing(k: Worker, i: nat, c: nat) {
    k.Working() && k.todo[0] == i && (k.phase == Sending(c) || k.phase == Overflowed(c))
  }

  predicate InHand(gate: Gate, i: nat, c: nat) {
    BeforeGet(gate.reader, i) || BeforeGet(gate.claimer, i) || Pushing(gate.reader, i, c) || Pushing(gate.claimer, i, c)
  }

  /** The connection has the event, or its handshake will bring it, or has failed. */
  ghost predicate Reaches(conn: Conn, id: EventId) {
    || HasId(conn.pipe.handed, id)
    || conn.shake.Registered?
    || (conn.shake.Replaying? && HasId(conn.shake.rest, id))
    || conn.shake.Overflow?
    || conn.shake.Failed?
  }

  predicate Dismissed(s: State, i: nat)
    requires i < |s.stream|
  {
    s.stream[i].Key() in s.acked || s.stream[i].Key() in s.expired
  }

  /** A saved event is in the hash, and the session's connection here, if open, gets it. */
  ghost predicate Covered(s: State, g: nat, i: nat) {
    && g < |s.gates| && i < |s.stream|
    && (Dismissed(s, i) ||
        (s.stream[i].Key() in s.store && WakesCurrent(s, s.gates[g], i)))
  }

  ghost predicate WakesCurrent(s: State, gate: Gate, i: nat)
    requires i < |s.stream|
  {
    var t := s.stream[i].target;
    t in gate.hub && gate.hub[t] < |s.conns| && !s.conns[gate.hub[t]].pipe.closed ==>
      InHand(gate, i, gate.hub[t]) || Reaches(s.conns[gate.hub[t]], s.stream[i].eventId)
  }

  ghost predicate Inv(s: State) {
    && s.trimmed <= |s.stream|
    && StoreOk(s)
    && (forall c: nat {:trigger ConnOk(s, c)} {:trigger s.conns[c]} :: c < |s.conns| ==> ConnOk(s, c))
    && (forall g: nat {:trigger GateOk(s, g)} {:trigger s.gates[g]} :: g < |s.gates| ==> GateOk(s, g) && HubOk(s, g))
    && (forall g: nat, i: nat {:trigger Covered(s, g, i)} {:trigger i in s.gates[g].saved} ::
        g < |s.gates| && i in s.gates[g].saved ==> Covered(s, g, i))
  }

  // ---------- whole runs ----------

  /** The state after any sequence of steps from the start. */
  ghost function Exec(run: seq<Action>): State {
    if run == [] then INIT else Step(Exec(run[..|run| - 1]), run[|run| - 1])
  }

  /** The state after further steps. */
  function After(s: State, more: seq<Action>): State
    decreases |more|
  {
    if more == [] then s else After(Step(s, more[0]), more[1..])
  }
}
