/** A run in which a rotated token comes again when its session's record has expired: the revocation finds
    no session to end, and so the newer token stays usable and the id stays in office. */
module SsoLateReplay {
  import opened SsoStore
  import opened SsoProtocol
  import opened SsoStoreSteps
  import opened SsoRequestSteps
  import opened SsoTheorems
  import opened SsoCalls
  import opened SsoStaleTouch

  const AGAIN := Refresh(0, 0, 10, 10, Begin)
  const NEXT := Go(1, Success)

  /** The rotation has saved the new token; then the session's record expires and the old token comes again. */
  function Late(phase: RefreshPhase): State {
    var s := Saved(Touch(OLD_TOKEN, 1));
    s.(db := s.db.(sessions := map[]), procs := [Refresh(0, 0, 10, 10, Touch(OLD_TOKEN, 1)), Refresh(0, 0, 10, 10, phase)])
  }

  const SPENT := OLD_TOKEN.(status := Rotated)

  lemma Expires()
    ensures Step(Step(Saved(Touch(OLD_TOKEN, 1)), ExpireSession(0)), Spawn(AGAIN)) == Late(Begin)
  {
    var s := Saved(Touch(OLD_TOKEN, 1));
    assert s.db.sessions - {0} == map[];
    assert s.procs + [AGAIN] == Late(Begin).procs;
  }

  lemma ReadsUsed()
    ensures Step(Late(Begin), NEXT) == Late(Replay(SPENT, false))
  {
  }

  lemma FindsNothing()
    ensures Step(Late(Replay(SPENT, false)), NEXT) == Late(Refreshed(None))
  {
    var s := Late(Replay(SPENT, false));
    assert Revoke(s, ANN, 0, Revoked, RefreshReplay, Success).db == s.db;
    assert Retiring(s.db.current, s.db.current) == {} && s.retired + {} == s.retired;
  }

  /** The request has ended, its revocation took effect, and the newer token of the session is usable still;
      but without a record of the session no refresh will accept it. */
  lemma ExpiredSessionKeepsItsToken() returns (run: seq<Action>)
    ensures var s := Exec(run);
      && 1 < |s.procs| && s.procs[1] == Refresh(0, 0, 10, 10, Refreshed(None)) && IsUsed(s, 0)
      && !s.db.IsOpen(0) && IsUsable(s, 1) && s.db.tokens[1].sid == 0 && IsCurrent(s, ANN, 0)
    ensures |run| > 0 && TookEffect(run, |run| - 1)
  {
    hide Step, Exec, Inv, Refreshing, Saved, Late;
    Begins();
    Reads();
    Locks();
    SsoStaleTouch.MarkReads();
    SsoStaleTouch.MarkWrites();
    SsoStaleTouch.Saves();
    Expires();
    ReadsUsed();
    FindsNothing();
    run := [];
    StartsEmpty();
    TwoSteps(run, Login(ANN, false, [], 10, 10), Spawn(Refresh(0, 0, 10, 10, Begin)));
    run := run + [Login(ANN, false, [], 10, 10)] + [Spawn(Refresh(0, 0, 10, 10, Begin))];
    TwoSteps(run, GO, GO);
    run := run + [GO] + [GO];
    TwoSteps(run, GO, GO);
    run := run + [GO] + [GO];
    TwoSteps(run, GO, GO);
    run := run + [GO] + [GO];
    ExecStep(run, GO);
    run := run + [GO];
    TwoSteps(run, ExpireSession(0), Spawn(AGAIN));
    run := run + [ExpireSession(0)] + [Spawn(AGAIN)];
    TwoSteps(run, NEXT, NEXT);
    run := run + [NEXT] + [NEXT];
    LateFacts();
  }

  lemma LateFacts()
    ensures var s := Late(Refreshed(None));
      && 1 < |s.procs| && s.procs[1] == Refresh(0, 0, 10, 10, Refreshed(None)) && IsUsed(s, 0)
      && !s.db.IsOpen(0) && IsUsable(s, 1) && s.db.tokens[1].sid == 0 && IsCurrent(s, ANN, 0)
  {
  }
}
