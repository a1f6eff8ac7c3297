/** Why "no lost wake-up" excepts an event with a namesake: a run in which two events of a session carry
    one id, and the later one takes the earlier one's place in the hash before the session connects. */
module GatewayNamesake {
  import opened GatewayObjects
  import opened GatewayProtocol
  import opened GatewayConsumerSteps
  import opened GatewayConnectionSteps
  import opened GatewayTheorems
  import opened GatewayLateSave

  const EARLIER := Entry("e", "session_replaced", "s", "new_login")
  const LATER := Entry("e", "session_terminated", "s", "logged_out")

  function OnlyGate(gate: Gate, conns: seq<Conn>, store: Deliveries): State {
    State([EARLIER, LATER], 0, store, [gate], conns, {}, {})
  }

  /** The reader at some phase, with both entries read. */
  function At(pel: set<nat>, saved: set<nat>, todo: seq<nat>, phase: Phase, store: Deliveries): State {
    OnlyGate(Gate(2, pel, saved, map[], Worker(todo, phase), RESTING), [], store)
  }

  const FIRST := map[("s", "e") := Payload("e", "session_replaced", "new_login")]
  const SECOND := map[("s", "e") := Payload("e", "session_terminated", "logged_out")]

  lemma ReadsBoth()
    ensures After(INIT, [Publish(EARLIER), Publish(LATER), AddGate, Read(0, 2, true)]) == At({0, 1}, {}, [0, 1], Saving, map[])
  {
    AfterFour(INIT, Publish(EARLIER), Publish(LATER), AddGate, Read(0, 2, true));
    assert Range(0, 2) == [0, 1];
    assert {} + (set i: nat | i in Range(0, 2)) == {0, 1};
  }

  lemma SavesFirst()
    ensures Step(At({0, 1}, {}, [0, 1], Saving, map[]), Save(0, Reader, Success)) == At({0, 1}, {0}, [0, 1], Acking, FIRST)
  {
    var s := At({0, 1}, {}, [0, 1], Saving, map[]);
    var s' := StepSave(s, 0, Reader, Success);
    assert |"e"| == 1 && |"s"| == 1 && s.stream[0].WellFormed();
    assert s'.store == FIRST;
    assert s.gates[0].saved + {0} == {0};
    assert s'.gates == At({0, 1}, {0}, [0, 1], Acking, FIRST).gates;
  }

  lemma AcksFirst()
    ensures Step(At({0, 1}, {0}, [0, 1], Acking, FIRST), XAck(0, Reader, Success)) == At({1}, {0}, [0, 1], Getting, FIRST)
  {
    var s := At({0, 1}, {0}, [0, 1], Acking, FIRST);
    assert s.gates[0].pel - {0} == {1};
    assert StepXAck(s, 0, Reader, Success).gates == At({1}, {0}, [0, 1], Getting, FIRST).gates;
  }

  lemma LooksUpFirst()
    ensures Step(At({1}, {0}, [0, 1], Getting, FIRST), Get(0, Reader)) == At({1}, {0}, [1], Saving, FIRST)
  {
    assert [0 as nat, 1][1..] == [1];
    assert StepGet(At({1}, {0}, [0, 1], Getting, FIRST), 0, Reader).gates == At({1}, {0}, [1], Saving, FIRST).gates;
  }

  lemma SavesSecond()
    ensures Step(At({1}, {0}, [1], Saving, FIRST), Save(0, Reader, Success)) == At({1}, {0, 1}, [1], Acking, SECOND)
  {
    var s := At({1}, {0}, [1], Saving, FIRST);
    var s' := StepSave(s, 0, Reader, Success);
    assert |"e"| == 1 && |"s"| == 1 && s.stream[1].WellFormed();
    assert s'.store == SECOND;
    assert s.gates[0].saved + {1} == {0, 1};
    assert s'.gates == At({1}, {0, 1}, [1], Acking, SECOND).gates;
  }

  lemma SavesBoth()
    ensures After(At({0, 1}, {}, [0, 1], Saving, map[]), [Save(0, Reader, Success), XAck(0, Reader, Success), Get(0, Reader), Save(0, Reader, Success)])
      == At({1}, {0, 1}, [1], Acking, SECOND)
  {
    hide Step, At, After;
    AfterFour(At({0, 1}, {}, [0, 1], Saving, map[]), Save(0, Reader, Success), XAck(0, Reader, Success), Get(0, Reader), Save(0, Reader, Success));
    SavesFirst();
    AcksFirst();
    LooksUpFirst();
    SavesSecond();
  }

  const IDLE := Gate(2, {}, {0, 1}, map[], RESTING, RESTING)
  const KNOWN := Gate(2, {}, {0, 1}, map["s" := 0], RESTING, RESTING)

  lemma AcksSecond()
    ensures Step(At({1}, {0, 1}, [1], Acking, SECOND), XAck(0, Reader, Success)) == At({}, {0, 1}, [1], Getting, SECOND)
  {
    var s := At({1}, {0, 1}, [1], Acking, SECOND);
    assert s.gates[0].pel - {1} == {};
    assert StepXAck(s, 0, Reader, Success).gates == At({}, {0, 1}, [1], Getting, SECOND).gates;
  }

  lemma LooksUpSecond()
    ensures Step(At({}, {0, 1}, [1], Getting, SECOND), Get(0, Reader)) == OnlyGate(IDLE, [], SECOND)
  {
    assert [1 as nat][1..] == [];
    assert StepGet(At({}, {0, 1}, [1], Getting, SECOND), 0, Reader).gates == [IDLE];
  }

  lemma Connects()
    ensures Step(OnlyGate(IDLE, [], SECOND), Connect(0, "s", 1)) == OnlyGate(KNOWN, [Conn(0, "s", NewPipe(1), Registered)], SECOND)
  {
    var s := OnlyGate(IDLE, [], SECOND);
    assert IDLE.hub["s" := 0] == map["s" := 0];
    assert Step(s, Connect(0, "s", 1)).gates == [KNOWN];
    assert Step(s, Connect(0, "s", 1)).conns == [Conn(0, "s", NewPipe(1), Registered)];
  }

  lemma ReadsPending()
    ensures Step(OnlyGate(KNOWN, [Conn(0, "s", NewPipe(1), Registered)], SECOND), ReadPending(0, [SECOND[("s", "e")]], true))
      == OnlyGate(KNOWN, [Conn(0, "s", NewPipe(1), Replaying([SECOND[("s", "e")]]))], SECOND)
  {
    var p := SECOND[("s", "e")];
    OnlyOneIsPending(p);
    hide IsPending;
    assert [p] != [];
    var s := OnlyGate(KNOWN, [Conn(0, "s", NewPipe(1), Registered)], SECOND);
    assert StepReadPending(s, 0, [p], true).conns == [Conn(0, "s", NewPipe(1), Replaying([p]))];
  }

  /** The second is acknowledged, nobody is connected; then the session connects. */
  lemma ThenConnects()
    ensures After(At({1}, {0, 1}, [1], Acking, SECOND), [XAck(0, Reader, Success), Get(0, Reader), Connect(0, "s", 1), ReadPending(0, [SECOND[("s", "e")]], true)])
      == OnlyGate(KNOWN, [Conn(0, "s", NewPipe(1), Replaying([SECOND[("s", "e")]]))], SECOND)
  {
    hide Step, At, After, OnlyGate;
    AfterFour(At({1}, {0, 1}, [1], Acking, SECOND), XAck(0, Reader, Success), Get(0, Reader), Connect(0, "s", 1), ReadPending(0, [SECOND[("s", "e")]], true));
    AcksSecond();
    LooksUpSecond();
    Connects();
    ReadsPending();
  }

  lemma OnlyOneIsPending(p: Payload)
    requires p == SECOND[("s", "e")]
    ensures IsPending(SECOND, "s", [p])
  {
    assert FieldsOf(SECOND, "s") == {("s", "e")};
    assert ("s", "e") in SECOND;
    assert IsField(SECOND, "s", p);
  }

  const DONE := OnlyGate(KNOWN, [Conn(0, "s", Pipe(1, [SECOND[("s", "e")]], None, [], false, [SECOND[("s", "e")]]), Finished)], SECOND)

  lemma Replays()
    ensures Step(OnlyGate(KNOWN, [Conn(0, "s", NewPipe(1), Replaying([SECOND[("s", "e")]]))], SECOND), ReplayOne(0, false)) == DONE
  {
    var p := SECOND[("s", "e")];
    var s := OnlyGate(KNOWN, [Conn(0, "s", NewPipe(1), Replaying([p]))], SECOND);
    assert [p][1..] == [];
    assert AfterSend(NewPipe(1), p, false) == Pipe(1, [p], None, [], false, [p]);
    assert StepReplayOne(s, 0, false).conns == DONE.conns;
  }

  /** The session's current connection has nothing to wait for, and was handed the later event only. */
  lemma NamesakeTakesThePlace() returns (run: seq<Action>)
    ensures var s := Exec(run);
      && 0 < |s.gates| && 0 in s.gates[0].saved && 0 < |s.stream|
      && !s.gates[0].reader.Working() && !s.gates[0].claimer.Working()
      && Current(s, 0, s.stream[0].target, 0) && !Dismissed(s, 0)
      && HasNamesake(s.stream, 0) && !Handed(s, 0, s.stream[0])
  {
    run := Reach();
    hide Exec, Step, Inv, After;
    NamesakeSeen(Exec(run));
    assert Exec(run).conns[0].pipe.handed == [SECOND[("s", "e")]];
    assert "logged_out" != "new_login" by { assert "logged_out"[0] == 'l' && "new_login"[0] == 'n'; }
  }

  lemma Reach() returns (run: seq<Action>)
    ensures Exec(run) == DONE
  {
    hide Exec, Step, Inv, After, At, OnlyGate;
    ReadsBoth();
    SavesBoth();
    ThenConnects();
    Replays();
    run := [];
    StartsEmpty();
    run := Continue(run, [Publish(EARLIER), Publish(LATER), AddGate, Read(0, 2, true)]);
    run := Continue(run, [Save(0, Reader, Success), XAck(0, Reader, Success), Get(0, Reader), Save(0, Reader, Success)]);
    run := Continue(run, [XAck(0, Reader, Success), Get(0, Reader), Connect(0, "s", 1), ReadPending(0, [SECOND[("s", "e")]], true)]);
    ExecStep(run, ReplayOne(0, false));
    run := run + [ReplayOne(0, false)];
  }

  lemma NamesakeSeen(s: State)
    requires s.stream == [EARLIER, LATER]
    ensures HasNamesake(s.stream, 0)
  {
    assert "logged_out" != "new_login" by { assert "logged_out"[0] == 'l' && "new_login"[0] == 'n'; }
    assert s.stream[1].reason != s.stream[0].reason;
  }
}
