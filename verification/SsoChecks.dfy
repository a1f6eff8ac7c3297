/** What a check that passed has seen, and what reuse of a token costs, over every run. */
module SsoChecks {
  import opened SsoStore
  import opened SsoProtocol
  import opened SsoStoreSteps
  import opened SsoRequestSteps
  import opened SsoTheorems
  import opened SsoCalls

  // ---------- what a check that passed has seen ----------

  /** The session's record is there, active, and not expired yet. */
  predicate IsLive(s: State, sid: Sid) {
    sid in s.db.sessions && s.db.sessions[sid].status.Active? && s.db.sessions[sid].expiresAt > s.now
  }

  /** A check that found what it needs, in the cache or in the record. */
  predicate HasFound(c: Proc) {
    c.Check? && (c.checking.CachedRead? || c.checking.CacheWrite? || c.checking.Passed?)
  }

  predicate Starts(c: Proc) {
    c.Check? && (if c.cached then c.checking.Probe? else c.checking.CurrentRead?)
  }

  /** A check stays where it was, moves by its own call, ends, or has just arrived. */
  lemma CheckOnward(s: State, a: Action, p: nat)
    requires p < |Step(s, a).procs| && Step(s, a).procs[p].Check?
    ensures var c := Step(s, a).procs[p];
      || (p < |s.procs| && s.procs[p] == c)
      || (a.Go? && a.p == p && p < |s.procs| && s.procs[p].Check? && c == s.procs[p].(checking := CheckNext(s, s.procs[p], a.o)))
      || c.checking.Denied? || (p == |s.procs| && Starts(c))
  {
    if p < |s.procs| && !Mine(a, p) {
      hide Step;
      OtherStep(s, a, p);
    } else if p < |s.procs| && a.Go? {
      hide StepGo, CheckNext;
      GoEffect(s, p, a.o);
      if s.procs[p].Check? { CheckMoves(s, p, a.o); }
    } else if p >= |s.procs| && a.Go? {
      hide StepGo;
      if a.p < |s.procs| { GoEffect(s, a.p, a.o); }
    } else {
      hide EndUser, IsOrderOf, RejectsLogin, Retiring;
    }
  }

  /** Only a cached check asks the cache. */
  lemma {:induction false} OnlyCachedAsk(run: seq<Action>, p: nat)
    requires p < |Exec(run).procs| && Exec(run).procs[p].Check?
    requires Exec(run).procs[p].checking.Probe? || Exec(run).procs[p].checking.CachedRead?
    ensures Exec(run).procs[p].cached
  {
    hide Exec, Step;
    if run == [] {
      StartsEmpty();
      assert false;
    } else {
      var init, a := run[..|run| - 1], run[|run| - 1];
      assert run == init + [a];
      ExecStep(init, a);
      CheckOnward(Exec(init), a, p);
      if p < |Exec(init).procs| && Exec(init).procs[p].Check? && (Exec(init).procs[p].checking.Probe? || Exec(init).procs[p].checking.CachedRead?) {
        OnlyCachedAsk(init, p);
      }
    }
  }

  /** A probe is put into the cache by a check of the same id about to end. */
  lemma ProbeOnward(s: State, a: Action, user: User, sid: Sid)
    requires (user, sid) in Step(s, a).probes && (user, sid) !in s.probes
    ensures a.Go? && IsCheckOf(s, a.p, user, sid) && s.procs[a.p].checking.CacheWrite?
  {
    hide EndUser, IsOrderOf, RejectsLogin, Retiring, RefreshOp, LogoutOp, CheckNext;
    if a.Go? && a.p < |s.procs| {
      if s.procs[a.p].Refresh? { RefreshKeepsProbes(s, a.p, a.o); }
      if s.procs[a.p].Logout? { LogoutKeepsProbes(s, a.p, a.o); }
    }
  }

  lemma RefreshKeepsProbes(s: State, p: nat, o: Outcome)
    requires p < |s.procs| && s.procs[p].Refresh?
    ensures RefreshOp(s, p, o).probes == s.probes
  {
    hide RevokeSession, Retiring;
  }

  lemma LogoutKeepsProbes(s: State, p: nat, o: Outcome)
    requires p < |s.procs| && s.procs[p].Logout?
    ensures LogoutOp(s, p, o).probes == s.probes
  {
    hide RevokeSession, Retiring;
  }

  /** Every cached answer goes back to a check of that id that saw its record live. */
  lemma {:induction false} CachedWasLive(run: seq<Action>, user: User, sid: Sid) returns (k: nat, q: nat)
    requires (user, sid) in Exec(run).probes
    ensures k < |run| && IsCheckOf(Exec(run[..k]), q, user, sid) && IsLive(Exec(run[..k]), sid)
    decreases |run|, 1
  {
    hide Exec, Step, IsLive;
    if run == [] {
      StartsEmpty();
      assert false;
    } else {
      var init, a := run[..|run| - 1], run[|run| - 1];
      assert run == init + [a];
      ExecStep(init, a);
      if (user, sid) in Exec(init).probes {
        k, q := CachedWasLive(init, user, sid);
      } else {
        ProbeOnward(Exec(init), a, user, sid);
        var j;
        k, q, j := FoundWasLive(init, a.p);
      }
      assert run[..k] == init[..k];
    }
  }

  /** The step in which a check finds what it needs. */
  lemma FindsLive(s: State, c: Proc, o: Outcome)
    requires c.Check? && !HasFound(c) && HasFound(c.(checking := CheckNext(s, c, o)))
    ensures (c.checking.SessionRead? && IsLive(s, c.sid)) || (c.checking.Probe? && (c.user, c.sid) in s.probes)
  {
  }

  lemma {:induction false} FoundWasLive(run: seq<Action>, p: nat) returns (k: nat, q: nat, j: nat)
    requires p < |Exec(run).procs| && HasFound(Exec(run).procs[p])
    ensures var c := Exec(run).procs[p];
      && k < |run| && IsCheckOf(Exec(run[..k]), q, c.user, c.sid) && IsLive(Exec(run[..k]), c.sid)
      && (q == p || (c.cached && k < j < |run| && IsCheckOf(Exec(run[..j]), p, c.user, c.sid) && (c.user, c.sid) in Exec(run[..j]).probes))
    decreases |run|, 0
  {
    hide Exec, Step, IsLive, CheckNext;
    if run == [] {
      StartsEmpty();
      assert false;
    } else {
      var init, a := run[..|run| - 1], run[|run| - 1];
      assert run == init + [a];
      ExecStep(init, a);
      CheckOnward(Exec(init), a, p);
      var c := Exec(init).procs[p];
      if HasFound(c) {
        k, q, j := FoundWasLive(init, p);
        assert run[..k] == init[..k] && (j < |init| ==> run[..j] == init[..j]);
      } else {
        FindsLive(Exec(init), c, a.o);
        assert run[..|init|] == init;
        k, q, j := |init|, p, |init|;
        if c.checking.Probe? {
          OnlyCachedAsk(init, p);
          k, q := CachedWasLive(init, c.user, c.sid);
          assert run[..k] == init[..k];
        }
      }
    }
  }

  /** A check that passed saw, at some moment after it began, the record of its session active and not yet
      expired; or it asked the cache, and found there the answer of a check that did. */
  lemma PassedSawLive(run: seq<Action>, p: nat) returns (k: nat, q: nat, j: nat)
    requires p < |Exec(run).procs| && Exec(run).procs[p].Check? && Exec(run).procs[p].checking.Passed?
    ensures k < |run|
    ensures var c, s := Exec(run).procs[p], Exec(run[..k]);
      && IsCheckOf(s, q, c.user, c.sid)
      && c.sid in s.db.sessions && s.db.sessions[c.sid].status.Active? && s.db.sessions[c.sid].expiresAt > s.now
      && (q == p || (c.cached && k < j < |run| && IsCheckOf(Exec(run[..j]), p, c.user, c.sid) && (c.user, c.sid) in Exec(run[..j]).probes))
  {
    hide Exec, Step;
    k, q, j := FoundWasLive(run, p);
  }

  // ---------- what reuse of a token costs ----------

  /** A refresh that reads its token, at first or under the lock, and finds it used, revokes the token's
      session with its next call: whatever others do in between, that call, if it takes effect, ends the
      session if it is still open and changes nothing otherwise. */
  lemma ReuseCostsTheSession(run: seq<Action>, more: seq<Action>, p: nat, o: Outcome)
    requires p < |Exec(run).procs| && Exec(run).procs[p].Refresh?
    requires Exec(run).procs[p].refreshing.Begin? || Exec(run).procs[p].refreshing.Recheck?
    requires IsUsed(Exec(run), Exec(run).procs[p].tok)
    requires o.Applied() && forall a :: a in more ==> !Mine(a, p)
    ensures var rt := Exec(run).db.tokens[Exec(run).procs[p].tok];
      var read := run + [Go(p, Success)] + more;
      var s, s' := Exec(read), Exec(read + [Go(p, o)]);
      && Ended(s, s', rt.user, rt.sid, Revoked, RefreshReplay)
      && (s'.db != s.db <==> s.db.IsOpen(rt.sid))
  {
    hide Exec, Step, Inv, Kept, Ended;
    ExecStep(run, Go(p, Success));
    RefreshMoves(Exec(run), p, Success);
    OthersKeep(run + [Go(p, Success)], more, p);
    var read := run + [Go(p, Success)] + more;
    var rt := Exec(run).db.tokens[Exec(run).procs[p].tok];
    StaysAt(Exec(run + [Go(p, Success)]), Exec(read), p);
    Reachable(read);
    ExecStep(read, Go(p, o));
    ReplayEnds(Exec(read), p, o);
    EndedChanges(Exec(read), Exec(read + [Go(p, o)]), rt.user, rt.sid, Revoked, RefreshReplay);
  }

  lemma StaysAt(s: State, s': State, p: nat)
    requires Kept(s, s', p)
    ensures p < |s.procs| && p < |s'.procs| && s'.procs[p] == s.procs[p]
  {
  }

  lemma EndedChanges(s: State, s': State, user: User, sid: Sid, status: Status, reason: Reason)
    requires Ended(s, s', user, sid, status, reason)
    ensures s'.db != s.db <==> s.db.IsOpen(sid)
  {
  }

  /** An open session once ended is out of office in every later state, and the tokens it had then are
      never usable again. */
  lemma EndedForGood(run: seq<Action>, more: seq<Action>, user: User, sid: Sid, status: Status, reason: Reason, t: Tok)
    requires |run| > 0 && Ended(Exec(run[..|run| - 1]), Exec(run), user, sid, status, reason)
    requires Exec(run[..|run| - 1]).db.IsOpen(sid)
    ensures Out(Exec(run + more), user, sid)
    ensures var s := Exec(run[..|run| - 1]); t in s.db.FamilyOf(sid) && t in s.db.tokens ==> !IsUsable(Exec(run + more), t)
  {
    hide Exec, Step, Inv, Out, IsUsable;
    OutForever(run, more, user, sid);
    var init, s := run[..|run| - 1], Exec(run[..|run| - 1]);
    if t in s.db.FamilyOf(sid) && t in s.db.tokens {
      Reachable(init);
      TokenFacts(s, t);
      assert run == init + [run[|run| - 1]];
      BornForever(init, [run[|run| - 1]], t);
      SpentStaysSpent(run, more, t);
    }
  }
}
