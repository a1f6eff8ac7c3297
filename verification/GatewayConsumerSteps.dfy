/** The steps of publishers and consumer workers keep the invariant. */
module GatewayConsumerSteps {
  import opened GatewayObjects
  import opened GatewayProtocol

  lemma HasIdAppend(ps: seq<Payload>, p: Payload, id: EventId)
    ensures HasId(ps + [p], id) <==> HasId(ps, id) || p.eventId == id
  {
    var all := ps + [p];
    assert all[|ps|] == p;
    if HasId(ps, id) {
      var k :| 0 <= k < |ps| && ps[k].eventId == id;
      assert all[k].eventId == id;
    }
  }

  lemma HasIdRest(ps: seq<Payload>, id: EventId)
    requires HasId(ps, id)
    ensures ps != [] && (ps[0].eventId == id || HasId(ps[1..], id))
  {
    var k :| 0 <= k < |ps| && ps[k].eventId == id;
    if k > 0 { assert ps[1..][k - 1].eventId == id; }
  }

  lemma PublishedLater(s: seq<Entry>, e: Entry, session: Session, p: Payload)
    requires Published(s, session, p)
    ensures Published(s + [e], session, p)
  {
    var i: nat :| i < |s| && s[i].target == session && Tells(p, s[i]);
    assert (s + [e])[i] == s[i];
  }

  // The steps are built of a few kinds of change; each kind keeps the invariant.

  lemma GateStep(s: State, g: nat, gate: Gate)
    requires Inv(s) && g < |s.gates|
    requires var s' := SetGate(s, g, gate);
      GateOk(s', g) && HubOk(s', g) && forall i :: i in gate.saved ==> Covered(s', g, i)
    ensures Inv(SetGate(s, g, gate))
  {
    hide HasId, Published, WakesCurrent, StoreOk;
    var s' := SetGate(s, g, gate);
    forall c: nat | c < |s'.conns| ensures ConnOk(s', c) { assert ConnOk(s, c); }
    forall h: nat | h < |s'.gates| ensures GateOk(s', h) && HubOk(s', h) { assert h != g ==> GateOk(s, h) && HubOk(s, h); }
    forall h: nat, i: nat | h < |s'.gates| && i in s'.gates[h].saved ensures Covered(s', h, i) {
      if h != g { CoveredElsewhere(s, g, gate, h, i); }
    }
    assert StoreOk(s') by { StoreUnchanged(s, s'); }
  }

  lemma StoreUnchanged(s: State, s': State)
    requires StoreOk(s) && s'.store == s.store && s'.stream == s.stream
    ensures StoreOk(s')
  {
  }

  lemma CoveredElsewhere(s: State, g: nat, gate: Gate, h: nat, i: nat)
    requires Covered(s, h, i) && g < |s.gates| && h != g
    ensures Covered(SetGate(s, g, gate), h, i)
  {
    hide HasId;
  }

  /** What worker k owed the session's open connection, k' still owes it or it has been done. */
  ghost predicate HandedOn(s: State, gate: Gate, k: Worker, k': Worker, i: nat)
    requires i < |s.stream|
  {
    var t := s.stream[i].target;
    t in gate.hub && gate.hub[t] < |s.conns| && !s.conns[gate.hub[t]].pipe.closed
      && (BeforeGet(k, i) || Pushing(k, i, gate.hub[t])) ==>
      BeforeGet(k', i) || Pushing(k', i, gate.hub[t]) || Reaches(s.conns[gate.hub[t]], s.stream[i].eventId)
  }

  lemma WorkerStep(s: State, g: nat, w: Which, k': Worker)
    requires Inv(s) && g < |s.gates| && WorkerOk(s, s.gates[g], k')
    requires var k := s.gates[g].Get(w);
      k.Working() && k.todo[0] < |s.stream| ==> HandedOn(s, s.gates[g], k, k', k.todo[0])
    ensures Inv(SetWorker(s, g, w, k'))
  {
    hide Inv, HasId, Published, Reaches;
    var gate := s.gates[g].Set(w, k');
    var s' := SetGate(s, g, gate);
    GateFacts(s, g);
    forall i | i in gate.saved ensures Covered(s', g, i) {
      CoveredFacts(s, g, i);
    }
    GateStep(s, g, gate);
  }

  lemma GateFacts(s: State, g: nat)
    requires Inv(s) && g < |s.gates|
    ensures GateOk(s, g) && HubOk(s, g)
  {
  }

  lemma CoveredFacts(s: State, g: nat, i: nat)
    requires Inv(s) && g < |s.gates| && i in s.gates[g].saved
    ensures Covered(s, g, i)
  {
  }

  lemma PendingStep(s: State, g: nat, pel: set<nat>)
    requires Inv(s) && g < |s.gates| && pel <= s.gates[g].pel
    requires forall i :: i in s.gates[g].pel && i !in pel && i < |s.stream| ==>
      i in s.gates[g].saved || i < s.trimmed || !s.stream[i].WellFormed()
    ensures Inv(SetGate(s, g, s.gates[g].(pel := pel)))
  {
    hide Inv, HasId, Published, Reaches;
    var gate := s.gates[g].(pel := pel);
    var s' := SetGate(s, g, gate);
    GateFacts(s, g);
    forall i | i in gate.saved ensures Covered(s', g, i) {
      CoveredFacts(s, g, i);
    }
    GateStep(s, g, gate);
  }

  /** The connection goes on: it keeps what it was handed, and stays closed when closed. */
  ghost predicate GoesOn(s: State, old': Conn, conn: Conn) {
    && conn.gate == old'.gate && conn.session == old'.session
    && (old'.pipe.closed ==> conn.pipe.closed)
    && (!conn.pipe.closed ==> forall id :: (conn.session, id) in s.store && Reaches(old', id) ==> Reaches(conn, id))
  }

  lemma ConnsStep(s: State, conns: seq<Conn>)
    requires Inv(s) && |conns| == |s.conns|
    requires forall c: nat :: c < |conns| ==> GoesOn(s, s.conns[c], conns[c]) && ConnOk(s.(conns := conns), c)
    ensures Inv(s.(conns := conns))
  {
    hide HasId, Published, Reaches, StoreOk;
    var s' := s.(conns := conns);
    forall g: nat | g < |s'.gates| ensures GateOk(s', g) && HubOk(s', g) { assert GateOk(s, g) && HubOk(s, g); }
    forall g: nat, i: nat | g < |s'.gates| && i in s'.gates[g].saved ensures Covered(s', g, i) {
      assert Covered(s, g, i) && HubOk(s, g);
    }
    assert StoreOk(s') by { StoreUnchanged(s, s'); }
  }

  lemma ConnStep(s: State, c: nat, conn: Conn)
    requires Inv(s) && c < |s.conns| && GoesOn(s, s.conns[c], conn)
    requires ConnOk(s.(conns := s.conns[c := conn]), c)
    ensures Inv(s.(conns := s.conns[c := conn]))
  {
    hide Inv, HasId, Published, Reaches;
    var s' := s.(conns := s.conns[c := conn]);
    forall d: nat | d < |s.conns| ensures GoesOn(s, s.conns[d], s'.conns[d]) && ConnOk(s', d) { ConnFacts(s, d); }
    ConnsStep(s, s.conns[c := conn]);
  }

  lemma StoreStep(s: State, s': State)
    requires Inv(s) && StoreOk(s')
    requires s' == s.(store := s'.store, acked := s'.acked, expired := s'.expired)
    requires s.acked <= s'.acked && s.expired <= s'.expired
    requires forall key :: key in s.store ==> key in s'.store || key in s'.acked || key in s'.expired
    ensures Inv(s')
  {
    hide HasId, Published, WakesCurrent, StoreOk;
    forall c: nat | c < |s'.conns| ensures ConnOk(s', c) { assert ConnOk(s, c); }
    forall g: nat | g < |s'.gates| ensures GateOk(s', g) && HubOk(s', g) { assert GateOk(s, g) && HubOk(s, g); }
    forall g: nat, i: nat | g < |s'.gates| && i in s'.gates[g].saved ensures Covered(s', g, i) {
      assert Covered(s, g, i);
      WakesUnchanged(s, s', g, i);
    }
  }

  lemma WakesUnchanged(s: State, s': State, g: nat, i: nat)
    requires g < |s.gates| && s'.gates == s.gates && s'.conns == s.conns
    requires i < |s.stream| && s'.stream == s.stream
    ensures WakesCurrent(s', s'.gates[g], i) == WakesCurrent(s, s.gates[g], i)
  {
  }

  lemma PublishKeepsInv(s: State, e: Entry)
    requires Inv(s)
    ensures Inv(Step(s, Publish(e)))
  {
    hide HasId, Published;
    var s' := Step(s, Publish(e));
    forall session, p | Published(s.stream, session, p) ensures Published(s'.stream, session, p) {
      PublishedLater(s.stream, e, session, p);
    }
    forall c: nat | c < |s'.conns| ensures ConnOk(s', c) { assert ConnOk(s, c); }
    forall g: nat | g < |s'.gates| ensures GateOk(s', g) && HubOk(s', g) { assert GateOk(s, g) && HubOk(s, g); }
    forall g: nat, i: nat | g < |s'.gates| && i in s'.gates[g].saved ensures Covered(s', g, i) {
      assert Covered(s, g, i);
    }
  }

  lemma TrimKeepsInv(s: State, upTo: nat)
    requires Inv(s)
    ensures Inv(Step(s, Trim(upTo)))
  {
    hide HasId, Published, StoreOk;
    var s' := Step(s, Trim(upTo));
    StoreUnchanged(s, s');
    forall c: nat | c < |s'.conns| ensures ConnOk(s', c) { assert ConnOk(s, c); }
    forall g: nat | g < |s'.gates| ensures GateOk(s', g) && HubOk(s', g) { assert GateOk(s, g) && HubOk(s, g); }
    forall g: nat, i: nat | g < |s'.gates| && i in s'.gates[g].saved ensures Covered(s', g, i) {
      assert Covered(s, g, i);
    }
  }

  lemma AddGateKeepsInv(s: State)
    requires Inv(s)
    ensures Inv(Step(s, AddGate))
  {
    hide HasId, Published, StoreOk;
    var s' := Step(s, AddGate);
    StoreUnchanged(s, s');
    forall c: nat | c < |s'.conns| ensures ConnOk(s', c) { assert ConnOk(s, c); }
    forall g: nat | g < |s'.gates| ensures GateOk(s', g) && HubOk(s', g) { assert g < |s.gates| ==> GateOk(s, g) && HubOk(s, g); }
    forall g: nat, i: nat | g < |s'.gates| && i in s'.gates[g].saved ensures Covered(s', g, i) {
      assert g < |s.gates| ==> Covered(s, g, i);
    }
  }

  lemma ReadKeepsInv(s: State, g: nat, n: nat, answered: bool)
    requires Inv(s)
    ensures Inv(StepRead(s, g, n, answered))
  {
    hide Inv, HasId, Published, Reaches;
    var s' := StepRead(s, g, n, answered);
    if s' != s {
      GateFacts(s, g);
      var from := if s.gates[g].next < s.trimmed then s.trimmed else s.gates[g].next;
      var batch := Range(from, n);
      forall i: nat | from <= i < from + n ensures i in batch { assert batch[i - from] == i; }
      forall i | i in s'.gates[g].saved ensures Covered(s', g, i) { CoveredFacts(s, g, i); }
      GateStep(s, g, s'.gates[g]);
    }
  }

  lemma ClaimKeepsInv(s: State, g: nat, batch: seq<nat>, gone: set<nat>, answered: bool)
    requires Inv(s)
    ensures Inv(StepClaim(s, g, batch, gone, answered))
  {
    hide Inv, HasId, Published, Reaches;
    var s' := StepClaim(s, g, batch, gone, answered);
    if s' != s {
      GateFacts(s, g);
      PendingStep(s, g, s.gates[g].pel - gone);
      var s1 := SetGate(s, g, s.gates[g].(pel := s.gates[g].pel - gone));
      WorkerStep(s1, g, Claimer, s'.gates[g].claimer);
      assert s'.gates == SetWorker(s1, g, Claimer, s'.gates[g].claimer).gates;
    }
  }

  /** Moving on from an entry whose current connection, if open, has what it needs. */
  lemma PopStep(s: State, g: nat, w: Which)
    requires Inv(s) && Busy(s, g, w)
    requires HandedOn(s, s.gates[g], s.gates[g].Get(w), s.gates[g].Get(w).Next(), Head(s, g, w))
    ensures Inv(Pop(s, g, w))
  {
    hide Inv, HasId, Published, Reaches, HandedOn;
    GateFacts(s, g);
    var k := s.gates[g].Get(w);
    assert WorkerOk(s, s.gates[g], k.Next()) by {
      assert forall i :: i in k.Next().todo ==> i in k.todo;
    }
    WorkerStep(s, g, w, k.Next());
  }

  lemma SkipKeepsInv(s: State, g: nat, w: Which, o: Outcome)
    requires Inv(s)
    ensures Inv(StepSkip(s, g, w, o))
  {
    hide Inv, HasId, Published, Reaches;
    if StepSkip(s, g, w, o) != s {
      var s1 := XAcked(s, g, Head(s, g, w), o);
      if o.Applied() { PendingStep(s, g, s.gates[g].pel - {Head(s, g, w)}); }
      PopStep(s1, g, w);
    }
  }

  lemma SavedInStore(s: State, e: Entry, i: nat)
    requires Inv(s) && i < |s.stream| && s.stream[i] == e
    ensures Inv(s.(store := s.store[e.Key() := e.Message()]))
  {
    var s' := s.(store := s.store[e.Key() := e.Message()]);
    assert Tells(e.Message(), e) && Published(s.stream, e.target, e.Message());
    StoreStep(s, s');
  }

  lemma MarkSaved(s: State, g: nat, w: Which)
    requires Inv(s) && Busy(s, g, w)
    requires s.stream[Head(s, g, w)].WellFormed() && s.stream[Head(s, g, w)].Key() in s.store
    ensures Inv(SetPhase(SetGate(s, g, s.gates[g].(saved := s.gates[g].saved + {Head(s, g, w)})), g, w, Acking))
  {
    hide Inv, HasId, Published, Reaches;
    var i := Head(s, g, w);
    var gate := s.gates[g].(saved := s.gates[g].saved + {i}).Set(w, Worker(s.gates[g].Get(w).todo, Acking));
    var s' := SetGate(s, g, gate);
    GateFacts(s, g);
    assert WorkerOk(s, s.gates[g], s.gates[g].Get(w)) && i in s.gates[g].Get(w).todo;
    forall j | j in gate.saved ensures Covered(s', g, j) {
      if j != i { CoveredFacts(s, g, j); }
    }
    GateStep(s, g, gate);
    assert s'.gates == SetPhase(SetGate(s, g, s.gates[g].(saved := s.gates[g].saved + {i})), g, w, Acking).gates;
  }

  lemma SaveKeepsInv(s: State, g: nat, w: Which, o: Outcome)
    requires Inv(s)
    ensures Inv(StepSave(s, g, w, o))
  {
    hide Inv, HasId, Published, Reaches;
    if Busy(s, g, w) && PhaseOf(s, g, w).Saving? && s.stream[Head(s, g, w)].WellFormed() {
      var e := s.stream[Head(s, g, w)];
      if o.Applied() { SavedInStore(s, e, Head(s, g, w)); }
      var s1 := s.(store := if o.Applied() then s.store[e.Key() := e.Message()] else s.store);
      if o.Success? { MarkSaved(s1, g, w); } else { PopStep(s1, g, w); }
    }
  }

  lemma XAckKeepsInv(s: State, g: nat, w: Which, o: Outcome)
    requires Inv(s)
    ensures Inv(StepXAck(s, g, w, o))
  {
    hide Inv, HasId, Published, Reaches;
    if StepXAck(s, g, w, o) != s {
      GateFacts(s, g);
      var s1 := XAcked(s, g, Head(s, g, w), o);
      if o.Applied() { PendingStep(s, g, s.gates[g].pel - {Head(s, g, w)}); }
      GateFacts(s1, g);
      WorkerStep(s1, g, w, s1.gates[g].Get(w).(phase := Getting));
    }
  }

  lemma GetKeepsInv(s: State, g: nat, w: Which)
    requires Inv(s)
    ensures Inv(StepGet(s, g, w))
  {
    hide Inv, HasId, Published, Reaches;
    if StepGet(s, g, w) != s {
      GateFacts(s, g);
      var target := s.stream[Head(s, g, w)].target;
      if target in s.gates[g].hub {
        WorkerStep(s, g, w, s.gates[g].Get(w).(phase := Sending(s.gates[g].hub[target])));
      } else {
        PopStep(s, g, w);
      }
    }
  }

  /** Only the pipe changes: it stays closed, keeps what was handed, and gets nothing foreign. */
  lemma PipeStep(s: State, c: nat, pipe: Pipe)
    requires Inv(s) && c < |s.conns| && pipe.Valid()
    requires s.conns[c].pipe.closed ==> pipe.closed
    requires s.conns[c].pipe.handed <= pipe.handed && AllPublished(s.stream, s.conns[c].session, pipe.handed)
    ensures Inv(SetPipe(s, c, pipe))
  {
    hide Published, StoreOk, GateOk, HubOk, Covered;
    assert ConnOk(s, c);
    var conn := s.conns[c].(pipe := pipe);
    forall id | HasId(s.conns[c].pipe.handed, id) ensures HasId(pipe.handed, id) {
      var k :| 0 <= k < |s.conns[c].pipe.handed| && s.conns[c].pipe.handed[k].eventId == id;
      assert pipe.handed[k].eventId == id;
    }
    ConnStep(s, c, conn);
  }

  lemma ConnFacts(s: State, c: nat)
    requires Inv(s) && c < |s.conns|
    ensures ConnOk(s, c)
  {
  }

  lemma CloseStep(s: State, c: nat)
    requires Inv(s) && c < |s.conns|
    ensures Inv(WithClosed(s, c))
  {
    hide Inv, Published;
    ConnFacts(s, c);
    PipeStep(s, c, s.conns[c].pipe.(closed := true));
  }

  lemma SendStep(s: State, c: nat, p: Payload, late: bool)
    requires Inv(s) && c < |s.conns| && Published(s.stream, s.conns[c].session, p)
    ensures Inv(SetPipe(s, c, AfterSend(s.conns[c].pipe, p, late)))
    ensures SendResultOf(s.conns[c].pipe, late).Sent? ==> HasId(AfterSend(s.conns[c].pipe, p, late).handed, p.eventId)
  {
    hide Inv, Published, HasId;
    ConnFacts(s, c);
    PipeStaysValid(s.conns[c].pipe, p, late);
    HasIdAppend(s.conns[c].pipe.handed, p, p.eventId);
    PipeStep(s, c, AfterSend(s.conns[c].pipe, p, late));
  }

  lemma StreamEntryPublished(s: State, i: nat)
    requires i < |s.stream|
    ensures Published(s.stream, s.stream[i].target, s.stream[i].Message())
  {
    assert Tells(s.stream[i].Message(), s.stream[i]);
  }

  lemma SendKeepsInv(s: State, g: nat, w: Which, late: bool)
    requires Inv(s)
    ensures Inv(StepSend(s, g, w, late))
  {
    hide Inv, HasId, Published;
    if Busy(s, g, w) && PhaseOf(s, g, w).Sending? && PhaseOf(s, g, w).c < |s.conns| {
      GateFacts(s, g);
      var i := Head(s, g, w);
      var c := PhaseOf(s, g, w).c;
      if SendResultOf(s.conns[c].pipe, late).QueueFull? {
        WorkerStep(s, g, w, s.gates[g].Get(w).(phase := Overflowed(c)));
      } else {
        StreamEntryPublished(s, i);
        SendStep(s, c, s.stream[i].Message(), late);
        PopStep(SetPipe(s, c, AfterSend(s.conns[c].pipe, s.stream[i].Message(), late)), g, w);
      }
    }
  }

  lemma CloseSlowKeepsInv(s: State, g: nat, w: Which)
    requires Inv(s)
    ensures Inv(StepCloseSlow(s, g, w))
  {
    hide Inv, HasId, Published, Reaches;
    if Busy(s, g, w) && PhaseOf(s, g, w).Overflowed? && PhaseOf(s, g, w).c < |s.conns| {
      CloseStep(s, PhaseOf(s, g, w).c);
      PopStep(WithClosed(s, PhaseOf(s, g, w).c), g, w);
    }
  }
}
