/** The steps of handshakes, connections and crashes keep the invariant, and so does every step and run. */
module GatewayConnectionSteps {
  import opened GatewayObjects
  import opened GatewayProtocol
  import opened GatewayConsumerSteps

  lemma ConnectKeepsInv(s: State, g: nat, session: Session, queueSize: int)
    requires Inv(s)
    ensures Inv(StepConnect(s, g, session, queueSize))
  {
    hide Inv, HasId, Published;
    if g < |s.gates| {
      var conn := Conn(g, session, NewPipe(queueSize), Registered);
      var s1 := s.(conns := s.conns + [conn]);
      AddConn(s, conn);
      var gate := s.gates[g].(hub := RegisterIn(s.gates[g].hub, session, |s.conns|));
      GateFacts(s1, g);
      forall i | i in gate.saved ensures Covered(SetGate(s1, g, gate), g, i) { CoveredFacts(s1, g, i); }
      GateStep(s1, g, gate);
    }
  }

  lemma AddConn(s: State, conn: Conn)
    requires Inv(s) && conn.gate < |s.gates| && conn.pipe.Valid() && conn.pipe.handed == [] && conn.shake.Registered?
    ensures Inv(s.(conns := s.conns + [conn]))
  {
    hide HasId, Published, Reaches, StoreOk;
    var s' := s.(conns := s.conns + [conn]);
    StoreUnchanged(s, s');
    forall c: nat | c < |s'.conns| ensures ConnOk(s', c) { assert c < |s.conns| ==> ConnOk(s, c); }
    forall g: nat | g < |s'.gates| ensures GateOk(s', g) && HubOk(s', g) { assert GateOk(s, g) && HubOk(s, g); }
    forall g: nat, i: nat | g < |s'.gates| && i in s'.gates[g].saved ensures Covered(s', g, i) {
      assert Covered(s, g, i) && HubOk(s, g);
    }
  }

  /** What the hash held when it was read is what the replay brings. */
  lemma PendingReaches(s: State, session: Session, order: seq<Payload>, id: EventId)
    requires StoreOk(s) && IsPending(s.store, session, order) && (session, id) in s.store
    ensures HasId(order, id)
  {
    assert (session, id).0 == session;
    var k :| 0 <= k < |order| && order[k] == s.store[(session, id)];
  }

  lemma PendingIsPublished(s: State, session: Session, order: seq<Payload>)
    requires StoreOk(s) && IsPending(s.store, session, order)
    ensures AllPublished(s.stream, session, order)
  {
    hide Published;
    forall p | p in order ensures Published(s.stream, session, p) {
      var key :| key in s.store && key.0 == session && s.store[key] == p;
    }
  }

  lemma ReadPendingKeepsInv(s: State, c: nat, order: seq<Payload>, ok: bool)
    requires Inv(s)
    ensures Inv(StepReadPending(s, c, order, ok))
  {
    hide Published, HasId, GateOk, HubOk, Covered;
    if StepReadPending(s, c, order, ok) != s {
      assert ConnOk(s, c);
      var conn := s.conns[c].(shake := if ok then Replay(order) else Failed);
      if ok {
        PendingIsPublished(s, conn.session, order);
        forall id | (conn.session, id) in s.store ensures HasId(order, id) { PendingReaches(s, conn.session, order, id); }
        if order == [] {
          forall id ensures (conn.session, id) !in s.store { if HasId([], id) { HasIdRest([], id); } }
        }
      }
      ConnStep(s, c, conn);
    }
  }

  lemma ReplayOneKeepsInv(s: State, c: nat, late: bool)
    requires Inv(s)
    ensures Inv(StepReplayOne(s, c, late))
  {
    hide Inv, Published, HasId;
    if c < |s.conns| && s.conns[c].shake.Replaying? && s.conns[c].shake.rest != [] {
      ConnFacts(s, c);
      var rest, pipe := s.conns[c].shake.rest, s.conns[c].pipe;
      if SendResultOf(pipe, late).QueueFull? {
        ConnStep(s, c, s.conns[c].(shake := Overflow));
      } else {
        assert rest[0] in rest;
        SendStep(s, c, rest[0], late);
        var s1 := SetPipe(s, c, AfterSend(pipe, rest[0], late));
        ConnFacts(s1, c);
        var conn := s1.conns[c].(shake := Replay(rest[1..]));
        RestReaches(s1.conns[c], conn, rest);
        assert forall p :: p in rest[1..] ==> p in rest;
        ConnStep(s1, c, conn);
        assert SetShake(s1, c, conn.shake).conns == s1.conns[c := conn];
      }
    }
  }

  /** Once the first of the rest has been handed over, the rest of the rest reaches the others. */
  lemma RestReaches(before: Conn, conn: Conn, rest: seq<Payload>)
    requires rest != [] && before.shake == Replaying(rest) && conn == before.(shake := Replay(rest[1..]))
    requires before.pipe.closed || HasId(before.pipe.handed, rest[0].eventId)
    ensures before.pipe.closed || forall id :: Reaches(before, id) ==> Reaches(conn, id)
  {
    hide HasId;
    if !before.pipe.closed {
      forall id | Reaches(before, id) ensures Reaches(conn, id) {
        if HasId(rest, id) {
          HasIdRest(rest, id);
          if HasId(rest[1..], id) { HasIdRest(rest[1..], id); }
        }
      }
    }
  }

  lemma CloseOverflowKeepsInv(s: State, c: nat)
    requires Inv(s)
    ensures Inv(Step(s, CloseOverflow(c)))
  {
    hide Inv, Published, HasId;
    if c < |s.conns| && s.conns[c].shake.Overflow? {
      CloseStep(s, c);
      ConnFacts(WithClosed(s, c), c);
      ConnStep(WithClosed(s, c), c, WithClosed(s, c).conns[c].(shake := Failed));
    }
  }

  lemma WriteLoopKeepsInv(s: State, c: nat)
    requires Inv(s) && c < |s.conns|
    ensures Inv(SetPipe(s, c, AfterTake(s.conns[c].pipe))) && Inv(SetPipe(s, c, AfterWrite(s.conns[c].pipe)))
  {
    hide Inv, Published, HasId;
    ConnFacts(s, c);
    PipeStaysValid(s.conns[c].pipe, Payload("", "", ""), false);
    PipeStep(s, c, AfterTake(s.conns[c].pipe));
    PipeStep(s, c, AfterWrite(s.conns[c].pipe));
  }

  /** Connections leave the hub; none is added or changed. */
  lemma HubShrinks(s: State, g: nat, hub: map<Session, nat>)
    requires Inv(s) && g < |s.gates|
    requires forall t :: t in hub ==> t in s.gates[g].hub && s.gates[g].hub[t] == hub[t]
    ensures Inv(SetGate(s, g, s.gates[g].(hub := hub)))
  {
    hide Inv, HasId, Published, Reaches;
    var gate := s.gates[g].(hub := hub);
    GateFacts(s, g);
    forall i | i in gate.saved ensures Covered(SetGate(s, g, gate), g, i) { CoveredFacts(s, g, i); }
    GateStep(s, g, gate);
  }

  lemma AckKeepsInv(s: State, c: nat, id: EventId, o: Outcome)
    requires Inv(s)
    ensures Inv(StepAck(s, c, id, o))
  {
    hide Published, HasId, GateOk, HubOk, Covered, ConnOk;
    StoreStep(s, StepAck(s, c, id, o));
  }

  lemma ExpireKeepsInv(s: State, session: Session)
    requires Inv(s)
    ensures Inv(StepExpire(s, session))
  {
    hide Published, HasId, GateOk, HubOk, Covered, ConnOk;
    StoreStep(s, StepExpire(s, session));
  }

  lemma CrashKeepsInv(s: State, g: nat)
    requires Inv(s)
    ensures Inv(StepCrash(s, g))
  {
    hide Inv, HasId, Published, Reaches;
    if g < |s.gates| {
      var conns := StepCrash(s, g).conns;
      forall c: nat | c < |conns| ensures GoesOn(s, s.conns[c], conns[c]) && ConnOk(s.(conns := conns), c) { ConnFacts(s, c); }
      ConnsStep(s, conns);
      GateOff(s.(conns := conns), g);
    }
  }

  lemma GateOff(s: State, g: nat)
    requires Inv(s) && g < |s.gates|
    ensures Inv(SetGate(s, g, s.gates[g].(hub := map[], reader := RESTING, claimer := RESTING)))
  {
    hide Inv, HasId, Published, Reaches;
    var gate := s.gates[g].(hub := map[], reader := RESTING, claimer := RESTING);
    GateFacts(s, g);
    forall i | i in gate.saved ensures Covered(SetGate(s, g, gate), g, i) { CoveredFacts(s, g, i); }
    GateStep(s, g, gate);
  }

  lemma UnregisterKeepsInv(s: State, c: nat)
    requires Inv(s)
    ensures Inv(StepUnregister(s, c))
  {
    hide Inv;
    if c < |s.conns| && s.conns[c].pipe.closed && s.conns[c].gate < |s.gates| {
      var g := s.conns[c].gate;
      HubShrinks(s, g, UnregisterFrom(s.gates[g].hub, s.conns[c].session, c));
    }
  }

  lemma StepKeepsInv(s: State, a: Action)
    requires Inv(s)
    ensures Inv(Step(s, a))
  {
    hide Inv, StepRead, StepClaim, StepSkip, StepSave, StepXAck, StepGet, StepSend, StepCloseSlow, StepConnect;
    hide StepReadPending, StepReplayOne, StepUnregister, StepAck, StepExpire, StepCrash, AfterTake, AfterWrite;
    match a
    case Publish(e) => PublishKeepsInv(s, e);
    case Trim(upTo) => TrimKeepsInv(s, upTo);
    case AddGate => AddGateKeepsInv(s);
    case Read(g, n, answered) => ReadKeepsInv(s, g, n, answered);
    case Claim(g, batch, gone, answered) => ClaimKeepsInv(s, g, batch, gone, answered);
    case Skip(g, w, o) => SkipKeepsInv(s, g, w, o);
    case Save(g, w, o) => SaveKeepsInv(s, g, w, o);
    case XAck(g, w, o) => XAckKeepsInv(s, g, w, o);
    case Get(g, w) => GetKeepsInv(s, g, w);
    case Send(g, w, late) => SendKeepsInv(s, g, w, late);
    case CloseSlow(g, w) => CloseSlowKeepsInv(s, g, w);
    case Connect(g, session, queueSize) => ConnectKeepsInv(s, g, session, queueSize);
    case ReadPending(c, order, ok) => ReadPendingKeepsInv(s, c, order, ok);
    case ReplayOne(c, late) => ReplayOneKeepsInv(s, c, late);
    case CloseOverflow(c) => CloseOverflowKeepsInv(s, c);
    case Take(c) => if c < |s.conns| { WriteLoopKeepsInv(s, c); }
    case Write(c) => if c < |s.conns| { WriteLoopKeepsInv(s, c); }
    case Close(c) => if c < |s.conns| { CloseStep(s, c); }
    case Unregister(c) => UnregisterKeepsInv(s, c);
    case CloseAll(g) => if g < |s.gates| { HubShrinks(s, g, map[]); }
    case Ack(c, id, o) => AckKeepsInv(s, c, id, o);
    case Expire(session) => ExpireKeepsInv(s, session);
    case Crash(g) => CrashKeepsInv(s, g);
  }

  // ---------- whole runs ----------

  /** The invariant holds in every reachable state. */
  lemma {:induction false} Reachable(run: seq<Action>)
    ensures Inv(Exec(run))
  {
    hide Inv, Step;
    if run == [] {
      InitIsFine();
    } else {
      Reachable(run[..|run| - 1]);
      StepKeepsInv(Exec(run[..|run| - 1]), run[|run| - 1]);
    }
  }

  lemma InitIsFine()
    ensures Inv(INIT)
  {
  }

  lemma ExecStep(run: seq<Action>, a: Action)
    ensures Exec(run + [a]) == Step(Exec(run), a)
  {
    assert (run + [a])[..|run|] == run;
  }

  lemma {:induction false} ExecAfter(run: seq<Action>, more: seq<Action>)
    ensures Exec(run + more) == After(Exec(run), more)
    decreases |more|
  {
    hide Step, Inv, Exec;
    if more == [] {
      assert run + more == run;
    } else {
      ExecStep(run, more[0]);
      assert run + more == (run + [more[0]]) + more[1..];
      ExecAfter(run + [more[0]], more[1..]);
    }
  }
}
