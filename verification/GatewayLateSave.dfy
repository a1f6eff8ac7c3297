/** Why "no lost wake-up" excepts acknowledged events: a run in which another instance, still behind,
    saves an event again after its client acknowledged it. */
module GatewayLateSave {
  import opened GatewayObjects
  import opened GatewayProtocol
  import opened GatewayConsumerSteps
  import opened GatewayConnectionSteps
  import opened GatewayTheorems

  lemma AfterTwo(s: State, a: Action, b: Action)
    ensures After(s, [a, b]) == Step(Step(s, a), b)
  {
    hide Step;
    assert [a, b][1..] == [b];
    assert [b][1..] == [];
    assert After(Step(s, a), [b]) == After(Step(Step(s, a), b), []);
  }

  lemma AfterFour(s: State, a: Action, b: Action, c: Action, d: Action)
    ensures After(s, [a, b, c, d]) == Step(Step(Step(Step(s, a), b), c), d)
  {
    hide Step;
    assert [a, b, c, d][1..] == [b, c, d] && [b, c, d][1..] == [c, d];
    AfterTwo(Step(Step(s, a), b), c, d);
  }

  const EVENT := Entry("e", "session_replaced", "s", "")

  function OneGate(gate: Gate, conns: seq<Conn>, store: Deliveries, acked: set<(Session, EventId)>): State {
    State([EVENT], 0, store, [gate, Gate(0, {}, {}, map[], RESTING, RESTING)], conns, acked, {})
  }

  const ARRIVED := OneGate(Gate(0, {}, {}, map["s" := 0], RESTING, RESTING), [Conn(0, "s", NewPipe(1), Finished)], map[], {})
  const STORED := map[EVENT.Key() := EVENT.Message()]
  const FULL := Pipe(1, [EVENT.Message()], None, [], false, [EVENT.Message()])
  const SERVED := Gate(1, {}, {0}, map["s" := 0], RESTING, RESTING)
  const READ := Pipe(1, [], None, [EVENT.Message()], false, [EVENT.Message()])

  lemma Arrive()
    ensures After(After(INIT, [Publish(EVENT), AddGate]), [AddGate, Connect(0, "s", 1)])
      == ARRIVED.(conns := [Conn(0, "s", NewPipe(1), Registered)])
  {
    AfterTwo(INIT, Publish(EVENT), AddGate);
    AfterTwo(After(INIT, [Publish(EVENT), AddGate]), AddGate, Connect(0, "s", 1));
  }

  lemma Fetch()
    ensures After(ARRIVED.(conns := [Conn(0, "s", NewPipe(1), Registered)]), [ReadPending(0, [], true), Read(0, 1, true)])
      == Midway({0}, {}, Saving, map[])
  {
    var before := ARRIVED.(conns := [Conn(0, "s", NewPipe(1), Registered)]);
    AfterTwo(before, ReadPending(0, [], true), Read(0, 1, true));
    assert Step(before, ReadPending(0, [], true)) == ARRIVED;
    assert Range(0, 1) == [0] && (set i: nat | i in [0]) == {0};
    assert {} + (set i: nat | i in Range(0, 1)) == {0};
  }

  /** Gate 0 with its reader at some phase of the one entry. */
  function Midway(pel: set<nat>, saved: set<nat>, phase: Phase, store: Deliveries): State {
    OneGate(Gate(1, pel, saved, map["s" := 0], Worker([0], phase), RESTING), ARRIVED.conns, store, {})
  }

  lemma DeliverSaves()
    ensures Step(Midway({0}, {}, Saving, map[]), Save(0, Reader, Success)) == Midway({0}, {0}, Acking, STORED)
  {
    var s := Midway({0}, {}, Saving, map[]);
    assert |"e"| == 1 && |"s"| == 1 && EVENT.WellFormed();
    assert s.store[EVENT.Key() := EVENT.Message()] == STORED;
    assert s.gates[0].saved + {0} == {0};
    var s' := StepSave(s, 0, Reader, Success);
    assert s'.store == STORED;
    assert s'.gates[0] == Midway({0}, {0}, Acking, STORED).gates[0];
    assert s'.gates == Midway({0}, {0}, Acking, STORED).gates;
  }

  lemma DeliverAcks()
    ensures Step(Midway({0}, {0}, Acking, STORED), XAck(0, Reader, Success)) == Midway({}, {0}, Getting, STORED)
  {
    var s := Midway({0}, {0}, Acking, STORED);
    var s' := StepXAck(s, 0, Reader, Success);
    assert s'.gates[0] == Midway({}, {0}, Getting, STORED).gates[0];
    assert s'.gates == Midway({}, {0}, Getting, STORED).gates;
  }

  lemma DeliverGets()
    ensures Step(Midway({}, {0}, Getting, STORED), Get(0, Reader)) == Midway({}, {0}, Sending(0), STORED)
  {
    var s' := StepGet(Midway({}, {0}, Getting, STORED), 0, Reader);
    assert s'.gates == Midway({}, {0}, Sending(0), STORED).gates;
  }

  lemma DeliverSends()
    ensures Step(Midway({}, {0}, Sending(0), STORED), Send(0, Reader, false)) == OneGate(SERVED, [Conn(0, "s", FULL, Finished)], STORED, {})
  {
    var s := Midway({}, {0}, Sending(0), STORED);
    assert AfterSend(NewPipe(1), EVENT.Message(), false) == FULL;
    assert [0 as nat][1..] == [];
    var s' := StepSend(s, 0, Reader, false);
    assert s'.conns == [Conn(0, "s", FULL, Finished)];
    assert s'.gates == [SERVED, s.gates[1]];
  }

  lemma Deliver()
    ensures After(Midway({0}, {}, Saving, map[]),
                  [Save(0, Reader, Success), XAck(0, Reader, Success), Get(0, Reader), Send(0, Reader, false)])
      == OneGate(SERVED, [Conn(0, "s", FULL, Finished)], STORED, {})
  {
    hide Step, After, Midway;
    AfterFour(Midway({0}, {}, Saving, map[]), Save(0, Reader, Success), XAck(0, Reader, Success), Get(0, Reader), Send(0, Reader, false));
    DeliverSaves();
    DeliverAcks();
    DeliverGets();
    DeliverSends();
  }

  const TWO := [Conn(0, "s", READ, Finished), Conn(0, "s", NewPipe(1), Registered)]
  const ACKED := OneGate(SERVED.(hub := map["s" := 1]), TWO, map[], {EVENT.Key()})

  lemma Writes()
    ensures Step(Step(OneGate(SERVED, [Conn(0, "s", FULL, Finished)], STORED, {}), Take(0)), Write(0))
      == OneGate(SERVED, [Conn(0, "s", READ, Finished)], STORED, {})
  {
    var s := OneGate(SERVED, [Conn(0, "s", FULL, Finished)], STORED, {});
    var held := FULL.(queue := [], taken := Some(EVENT.Message()));
    assert AfterTake(FULL) == held && AfterWrite(held) == READ;
    assert SetPipe(s, 0, held).conns == [Conn(0, "s", held, Finished)];
    assert SetPipe(SetPipe(s, 0, held), 0, READ).conns == [Conn(0, "s", READ, Finished)];
  }

  lemma Acks()
    ensures Step(OneGate(SERVED, [Conn(0, "s", READ, Finished)], STORED, {}), Ack(0, "e", Success))
      == OneGate(SERVED, [Conn(0, "s", READ, Finished)], map[], {EVENT.Key()})
  {
    assert |"e"| == 1 && STORED - {EVENT.Key()} == map[];
  }

  lemma Reconnects()
    ensures Step(OneGate(SERVED, [Conn(0, "s", READ, Finished)], map[], {EVENT.Key()}), Connect(0, "s", 1)) == ACKED
  {
    var s := OneGate(SERVED, [Conn(0, "s", READ, Finished)], map[], {EVENT.Key()});
    assert s.conns + [Conn(0, "s", NewPipe(1), Registered)] == TWO;
    assert SERVED.hub["s" := 1] == map["s" := 1];
    assert Step(s, Connect(0, "s", 1)).gates == ACKED.gates;
  }

  lemma Acknowledge()
    ensures After(OneGate(SERVED, [Conn(0, "s", FULL, Finished)], STORED, {}), [Take(0), Write(0), Ack(0, "e", Success), Connect(0, "s", 1)])
      == ACKED
  {
    hide Step, After, OneGate;
    AfterFour(OneGate(SERVED, [Conn(0, "s", FULL, Finished)], STORED, {}), Take(0), Write(0), Ack(0, "e", Success), Connect(0, "s", 1));
    Writes();
    Acks();
    Reconnects();
  }

  const BEHIND := Worker([0], Saving)

  lemma Rereads()
    ensures After(ACKED, [ReadPending(1, [], true), Read(1, 1, true)])
      == ACKED.(conns := [TWO[0], TWO[1].(shake := Finished)], gates := [ACKED.gates[0], Gate(1, {0}, {}, map[], BEHIND, RESTING)])
  {
    AfterTwo(ACKED, ReadPending(1, [], true), Read(1, 1, true));
    var s1 := ACKED.(conns := [TWO[0], TWO[1].(shake := Finished)]);
    assert StepReadPending(ACKED, 1, [], true).conns == s1.conns;
    assert Range(0, 1) == [0] && {} + (set i: nat | i in Range(0, 1)) == {0};
    assert StepRead(s1, 1, 1, true).gates == [ACKED.gates[0], Gate(1, {0}, {}, map[], BEHIND, RESTING)];
  }

  lemma SavesAgain()
    ensures var s := ACKED.(conns := [TWO[0], TWO[1].(shake := Finished)], gates := [ACKED.gates[0], Gate(1, {0}, {}, map[], BEHIND, RESTING)]);
      var s' := After(s, [Save(1, Reader, Success), Take(0)]);
      && |s'.gates| == 2 && s'.gates[0] == ACKED.gates[0] && s'.stream == [EVENT] && s'.store == STORED
      && s'.acked == ACKED.acked && s'.expired == {} && s'.conns == s.conns
  {
    var s := ACKED.(conns := [TWO[0], TWO[1].(shake := Finished)], gates := [ACKED.gates[0], Gate(1, {0}, {}, map[], BEHIND, RESTING)]);
    AfterTwo(s, Save(1, Reader, Success), Take(0));
    assert |"e"| == 1 && |"s"| == 1 && EVENT.WellFormed();
    assert s.store[EVENT.Key() := EVENT.Message()] == STORED;
    var s1 := StepSave(s, 1, Reader, Success);
    assert s1.gates[0] == ACKED.gates[0] && s1.conns == s.conns;
    assert AfterTake(READ) == READ;
  }

  /** Two instances: one delivers and the client acknowledges; then the other, still behind, saves the
      event again. It sits in the hash, while a connection that replayed before has not been handed it. */
  lemma SavedAgainAfterAck() returns (run: seq<Action>)
    ensures var s := Exec(run);
      && 0 < |s.gates| && 0 in s.gates[0].saved && 0 < |s.stream|
      && !s.gates[0].reader.Working() && !s.gates[0].claimer.Working()
      && Current(s, 0, s.stream[0].target, 1)
      && s.stream[0].Key() in s.store
      && s.stream[0].Key() in s.acked && s.stream[0].Key() !in s.expired
      && !HasId(s.conns[1].pipe.handed, s.stream[0].eventId)
  {
    hide Inv, Step, After, Midway;
    run := [];
    StartsEmpty();
    Arrive();
    Fetch();
    Deliver();
    Acknowledge();
    Rereads();
    SavesAgain();
    run := Continue(run, [Publish(EVENT), AddGate]);
    run := Continue(run, [AddGate, Connect(0, "s", 1)]);
    run := Continue(run, [ReadPending(0, [], true), Read(0, 1, true)]);
    run := Continue(run, [Save(0, Reader, Success), XAck(0, Reader, Success), Get(0, Reader), Send(0, Reader, false)]);
    run := Continue(run, [Take(0), Write(0), Ack(0, "e", Success), Connect(0, "s", 1)]);
    run := Continue(run, [ReadPending(1, [], true), Read(1, 1, true)]);
    run := Continue(run, [Save(1, Reader, Success), Take(0)]);
  }

  lemma Continue(run: seq<Action>, more: seq<Action>) returns (longer: seq<Action>)
    ensures Exec(longer) == After(Exec(run), more)
  {
    longer := run + more;
    ExecAfter(run, more);
  }
}
