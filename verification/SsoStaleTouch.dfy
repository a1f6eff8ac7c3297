/** A run in which extending a session brings a replaced session's record back to active: the copy was
    read before the newer login and written back after it. The id stays out of office all the same. */
module SsoStaleTouch {
  import opened SsoStore
  import opened SsoProtocol
  import opened SsoStoreSteps
  import opened SsoRequestSteps
  import opened SsoTheorems

  const ANN: User := 7
  const FIRST := Session(ANN, Active, 10)
  const OLD_TOKEN := Token(0, ANN, Usable, 10, None)
  const NEW_TOKEN := Token(0, ANN, Usable, 10, Some(0))

  /** After the first login, a refresh under way. */
  function Refreshing(phase: RefreshPhase, locks: map<Tok, nat>, status: TokenStatus): State {
    State(0, Db(map[0 := FIRST], map[0 := OLD_TOKEN.(status := status)], map[0 := {0}], map[ANN := {0}], map[ANN := 0], []),
          locks, {}, [Refresh(0, 0, 10, 10, phase)], 1, 1, {}, map[0 := 0], map[0 := (0, None)])
  }

  function Saved(phase: RefreshPhase): State {
    var s := Refreshing(phase, map[0 := 0], Rotated);
    s.(db := s.db.(tokens := map[0 := OLD_TOKEN.(status := Rotated), 1 := NEW_TOKEN], family := map[0 := {0, 1}]),
       nextTok := 2, tip := map[0 := 1], born := map[0 := (0, None), 1 := (0, Some(0))])
  }

  const GO := Go(0, Success)

  lemma Begins()
    ensures Step(Step(INIT, Login(ANN, false, [], 10, 10)), Spawn(Refresh(0, 0, 10, 10, Begin))) == Refreshing(Begin, map[], Usable)
  {
    var none: seq<Sid> := [];
    assert IsOrderOf(none, OpenIn(INIT.db, INIT.db.IndexOf(ANN)));
    var s := Step(INIT, Login(ANN, false, [], 10, 10));
    assert EventsFor(none, ReplacedByNewLogin) == [];
    assert WithdrawTokens(INIT.db.tokens, TokensIn(INIT.db, INIT.db.IndexOf(ANN)), Withdrawn) == map[];
    assert EndSessions(INIT.db.sessions, INIT.db.IndexOf(ANN), Replaced) == map[];
    assert Retiring(INIT.db.current, map[ANN := 0]) == {};
    assert s.db.current == map[ANN := 0] && s.db.sessions == map[0 := FIRST] && s.db.tokens == map[0 := OLD_TOKEN];
    assert {} + {0} == {0};
    assert s.db.family == map[0 := {0}] && s.db.index == map[ANN := {0}];
    assert s == Refreshing(Begin, map[], Usable).(procs := []);
  }

  lemma Reads()
    ensures Step(Refreshing(Begin, map[], Usable), GO) == Refreshing(CheckSession(OLD_TOKEN), map[], Usable)
    ensures Step(Refreshing(CheckSession(OLD_TOKEN), map[], Usable), GO) == Refreshing(TakeLock(OLD_TOKEN), map[], Usable)
  {
  }

  lemma Locks()
    ensures Step(Refreshing(TakeLock(OLD_TOKEN), map[], Usable), GO) == Refreshing(Recheck(OLD_TOKEN), map[0 := 0], Usable)
    ensures Step(Refreshing(Recheck(OLD_TOKEN), map[0 := 0], Usable), GO) == Refreshing(Mark(OLD_TOKEN), map[0 := 0], Usable)
  {
  }

  lemma MarkReads()
    ensures Step(Refreshing(Mark(OLD_TOKEN), map[0 := 0], Usable), GO) == Refreshing(MarkWrite(OLD_TOKEN, OLD_TOKEN), map[0 := 0], Usable)
  {
  }

  lemma MarkWrites()
    ensures Step(Refreshing(MarkWrite(OLD_TOKEN, OLD_TOKEN), map[0 := 0], Usable), GO) == Refreshing(Save(OLD_TOKEN), map[0 := 0], Rotated)
  {
  }

  lemma Saves()
    ensures Step(Refreshing(Save(OLD_TOKEN), map[0 := 0], Rotated), GO) == Saved(Touch(OLD_TOKEN, 1))
  {
    hide StepLogin, StepRevokeAll, StepSpawn, StepDie, LogoutOp, CheckOp, Revoke, WithDb;
    var s := Refreshing(Save(OLD_TOKEN), map[0 := 0], Rotated);
    assert NewToken(OLD_TOKEN, 0, 10, 0) == NEW_TOKEN;
    assert s.db.FamilyOf(0) == {0} && {0} + {1} == {0, 1};
    assert RefreshShared(s, 0, Success).(procs := []) == Saved(Touch(OLD_TOKEN, 1)).(procs := []);
  }

  lemma Touches()
    ensures Step(Saved(Touch(OLD_TOKEN, 1)), GO) == Saved(TouchWrite(OLD_TOKEN, 1, FIRST))
  {
    var s := Saved(Touch(OLD_TOKEN, 1));
    assert RefreshNext(s, 0, Success) == TouchWrite(OLD_TOKEN, 1, FIRST);
  }

  /** What a login that goes through does to an older session of the user. */
  lemma LoginReplaces(s: State, user: User, order: seq<Sid>, sid: Sid)
    requires IsOrderOf(order, OpenIn(s.db, s.db.IndexOf(user)))
    requires user in s.db.current && s.db.current[user] == sid && sid in s.db.IndexOf(user) && s.db.IsOpen(sid) && sid < s.nextSid
    ensures var s' := Step(s, Login(user, false, order, 10, 10));
      && s'.procs == s.procs && s'.nextSid == s.nextSid + 1 && sid in s'.retired
      && s'.db.current == s.db.current[user := s.nextSid]
      && sid in s'.db.sessions && s'.db.sessions[sid].status == Replaced
  {
    hide IsOrderOf, WithdrawTokens, EventsFor;
  }

  /** What the write-back does. */
  lemma WriteBack(s: State, rt: Token, next: Tok, seen: Session)
    requires 0 < |s.procs| && s.procs[0].Refresh? && s.procs[0].refreshing == TouchWrite(rt, next, seen) && seen.status.Active?
    ensures var s' := Step(s, GO);
      s'.db.IsOpen(rt.sid) && s'.retired == s.retired && s'.db.current == s.db.current && s'.nextSid == s.nextSid
  {
  }

  /** Another login, then the write-back. */
  lemma Reopens()
    ensures var s := Step(Saved(TouchWrite(OLD_TOKEN, 1, FIRST)), Login(ANN, false, [0], 10, 10));
      var s' := Step(s, GO);
      && 0 in s.db.sessions && s.db.sessions[0].status == Replaced
      && s'.db.IsOpen(0) && 0 in s'.retired && s'.db.current == map[ANN := 1] && s'.nextSid == 2
  {
    hide Step, IsOrderOf;
    var s := Saved(TouchWrite(OLD_TOKEN, 1, FIRST));
    ZeroIsOpen(s.db);
    LoginReplaces(s, ANN, [0], 0);
    assert s.db.current[ANN := 1] == map[ANN := 1];
    WriteBack(Step(s, Login(ANN, false, [0], 10, 10)), OLD_TOKEN, 1, FIRST);
  }

  lemma ZeroIsOpen(db: Db)
    requires db.index == map[ANN := {0}] && db.sessions == map[0 := FIRST]
    ensures var order: seq<Sid> := [0]; IsOrderOf(order, OpenIn(db, db.IndexOf(ANN)))
  {
    var order: seq<Sid> := [0];
    assert db.IndexOf(ANN) == {0} && OpenIn(db, {0}) == {0};
    assert order[0] == 0;
  }

  lemma {:induction false} TwoSteps(run: seq<Action>, a: Action, b: Action)
    ensures Exec(run + [a] + [b]) == Step(Step(Exec(run), a), b)
  {
    ExecStep(run, a);
    ExecStep(run + [a], b);
  }

  /** The replaced session's record is active again, and yet its id is retired: no check that starts now
      will ever pass with it. */
  lemma ReplacedSessionReopens() returns (run: seq<Action>)
    ensures var s := Exec(run);
      s.db.IsOpen(0) && 0 in s.retired && Out(s, ANN, 0) && s.db.current == map[ANN := 1]
  {
    hide Step, Exec, Inv, Refreshing, Saved;
    Begins();
    Reads();
    Locks();
    MarkReads();
    MarkWrites();
    Saves();
    Touches();
    Reopens();
    run := [];
    StartsEmpty();
    TwoSteps(run, Login(ANN, false, [], 10, 10), Spawn(Refresh(0, 0, 10, 10, Begin)));
    run := run + [Login(ANN, false, [], 10, 10)] + [Spawn(Refresh(0, 0, 10, 10, Begin))];
    TwoSteps(run, GO, GO);
    run := run + [GO] + [GO];
    TwoSteps(run, GO, GO);
    run := run + [GO] + [GO];
    TwoSteps(run, GO, GO);
    run := run + [GO] + [GO];
    TwoSteps(run, GO, GO);
    run := run + [GO] + [GO];
    TwoSteps(run, Login(ANN, false, [0], 10, 10), GO);
    run := run + [Login(ANN, false, [0], 10, 10)] + [GO];
  }
}
