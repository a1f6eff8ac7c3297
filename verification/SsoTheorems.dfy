/** What the single sign-on service promises over every run of racing requests. */
module SsoTheorems {
  import opened SsoStore
  import opened SsoProtocol
  import opened SsoStoreSteps
  import opened SsoRequestSteps

  // ---------- one device ----------

  /** Issued, and not the user's current session id. */
  predicate Out(s: State, user: User, sid: Sid) {
    sid < s.nextSid && (user in s.db.current ==> s.db.current[user] != sid)
  }

  predicate IsCheckOf(s: State, p: nat, user: User, sid: Sid) {
    p < |s.procs| && s.procs[p].Check? && s.procs[p].user == user && s.procs[p].sid == sid
  }

  /** This check has already seen its id as the current one. */
  predicate HasSeen(s: State, p: nat) {
    p < |s.procs| && s.procs[p].Check? && (s.procs[p].checking.SessionRead? || s.procs[p].checking.CacheWrite? || s.procs[p].checking.Passed?)
  }

  /** A request issues no id, brings no id into office, and moves only in its own place. */
  ghost predicate RequestEffect(s: State, s': State, p: nat) {
    && s'.nextSid == s.nextSid
    && (forall u :: u in s'.db.current ==> u in s.db.current && s'.db.current[u] == s.db.current[u])
    && p < |s.procs| && |s'.procs| == |s.procs| && s'.procs == s.procs[p := s'.procs[p]]
  }

  lemma RevokeEffect(s: State, user: User, sid: Sid, status: Status, reason: Reason, o: Outcome)
    ensures var s' := Revoke(s, user, sid, status, reason, o);
      && s'.procs == s.procs && s'.nextSid == s.nextSid
      && forall u :: u in s'.db.current ==> u in s.db.current && s'.db.current[u] == s.db.current[u]
  {
    hide WithdrawTokens, Retiring;
  }

  lemma RefreshEffect(s: State, p: nat, o: Outcome)
    requires p < |s.procs| && s.procs[p].Refresh?
    ensures RequestEffect(s, RefreshOp(s, p, o), p) && RefreshOp(s, p, o).procs[p].Refresh?
  {
    hide Revoke, WriteToken, WriteSession, SaveToken;
    var r := s.procs[p];
    match r.refreshing
    case Replay(rt, _) => RevokeEffect(s, rt.user, rt.sid, Revoked, RefreshReplay, o);
    case LapseWrite(copy) => WriteEffect(s, r.tok, copy.(status := Lapsed), o);
    case MarkWrite(_, copy) => WriteEffect(s, r.tok, copy.(status := Rotated), o);
    case Save(rt) => SaveEffect(s, r.tok, rt, r.at, r.refreshTtl, o);
    case TouchWrite(rt, _, seen) => TouchEffect(s, rt.sid, seen.(expiresAt := r.at + r.sessionTtl), o);
    case _ =>
  }

  lemma WriteEffect(s: State, tok: Tok, token: Token, o: Outcome)
    ensures var s' := WriteToken(s, tok, token, o);
      s'.procs == s.procs && s'.nextSid == s.nextSid && s'.db.current == s.db.current
  {
  }

  lemma SaveEffect(s: State, tok: Tok, rt: Token, at: nat, ttl: nat, o: Outcome)
    ensures var s' := SaveToken(s, tok, rt, at, ttl, o);
      s'.procs == s.procs && s'.nextSid == s.nextSid && s'.db.current == s.db.current
  {
  }

  lemma TouchEffect(s: State, sid: Sid, session: Session, o: Outcome)
    ensures var s' := WriteSession(s, sid, session, o);
      s'.procs == s.procs && s'.nextSid == s.nextSid && s'.db.current == s.db.current
  {
  }

  lemma LogoutEffect(s: State, p: nat, o: Outcome)
    requires p < |s.procs| && s.procs[p].Logout?
    ensures RequestEffect(s, LogoutOp(s, p, o), p) && LogoutOp(s, p, o).procs[p].Logout?
  {
    hide Revoke, WriteToken;
    var l := s.procs[p];
    if l.leaving.ByAccess? && l.access.Some? { RevokeEffect(s, l.access.value.0, l.access.value.1, LoggedOut, LoggedOutReason, o); }
    if l.leaving.ByToken? { RevokeEffect(s, l.leaving.rt.user, l.leaving.rt.sid, LoggedOut, LoggedOutReason, o); }
    if l.leaving.WithdrawWrite? && l.refresh.Some? { WriteEffect(s, l.refresh.value, l.leaving.copy.(status := Withdrawn), o); }
  }

  /** A check changes nothing but its own place and the probes. */
  lemma CheckEffect(s: State, p: nat, o: Outcome)
    requires p < |s.procs| && s.procs[p].Check?
    ensures var s' := CheckOp(s, p, o);
      s'.db == s.db && RequestEffect(s, s', p) && IsCheckOf(s', p, s.procs[p].user, s.procs[p].sid)
  {
    hide CheckNext;
  }

  /** A check sees its id only while it is current. */
  lemma CheckSees(s: State, p: nat, o: Outcome)
    requires p < |s.procs| && s.procs[p].Check?
    requires HasSeen(CheckOp(s, p, o), p) && !HasSeen(s, p)
    ensures s.procs[p].user in s.db.current && s.db.current[s.procs[p].user] == s.procs[p].sid
  {
  }

  lemma GoEffect(s: State, p: nat, o: Outcome)
    requires p < |s.procs|
    ensures RequestEffect(s, StepGo(s, p, o), p)
    ensures StepGo(s, p, o).procs[p].Check? <==> s.procs[p].Check?
  {
    hide RefreshOp, LogoutOp, CheckOp, RequestEffect;
    match s.procs[p]
    case Refresh(_, _, _, _, _) => RefreshEffect(s, p, o);
    case Logout(_, _, _) => LogoutEffect(s, p, o);
    case Check(_, _, _, _) => CheckEffect(s, p, o);
  }

  /** Only a login makes an id current, and only a new one. */
  lemma OutStays(s: State, a: Action, user: User, sid: Sid)
    requires Out(s, user, sid)
    ensures Out(Step(s, a), user, sid)
  {
    if a.Go? {
      hide StepGo;
      if a.p < |s.procs| { GoEffect(s, a.p, a.o); } else { GoNowhere(s, a.p, a.o); }
    } else {
      hide WithdrawTokens, EndSessions, IsOrderOf, RejectsLogin, Retiring;
    }
  }

  lemma GoNowhere(s: State, p: nat, o: Outcome)
    requires p >= |s.procs|
    ensures StepGo(s, p, o) == s
  {
  }

  /** Places are never reused, and nobody moves another's check. */
  lemma ChecksStay(s: State, a: Action, p: nat)
    requires !a.Go? && p < |Step(s, a).procs| && Step(s, a).procs[p].Check?
    ensures HasSeen(Step(s, a), p) ==> HasSeen(s, p)
    ensures p < |s.procs| ==> s.procs[p].Check? && s.procs[p].user == Step(s, a).procs[p].user && s.procs[p].sid == Step(s, a).procs[p].sid
    ensures p >= |s.procs| ==> !HasSeen(Step(s, a), p)
  {
    hide EndUser, IsOrderOf, RejectsLogin, Retiring;
  }

  lemma GoIsCheck(s: State, p: nat, o: Outcome)
    requires p < |s.procs| && s.procs[p].Check?
    ensures StepGo(s, p, o) == CheckOp(s, p, o)
  {
    hide CheckOp;
  }

  /** The id is not current, and this check, if it is one of that id, has not looked yet. */
  predicate Shut(s: State, user: User, sid: Sid, p: nat) {
    Out(s, user, sid) && (IsCheckOf(s, p, user, sid) ==> !HasSeen(s, p))
  }

  lemma ShutStays(s: State, a: Action, user: User, sid: Sid, p: nat)
    requires Shut(s, user, sid, p)
    ensures Shut(Step(s, a), user, sid, p)
  {
    OutStays(s, a, user, sid);
    if IsCheckOf(Step(s, a), p, user, sid) {
      if !a.Go? {
        hide Step;
        ChecksStay(s, a, p);
      } else if a.p >= |s.procs| {
        GoNowhere(s, a.p, a.o);
      } else {
        hide StepGo, CheckOp;
        GoEffect(s, a.p, a.o);
        if a.p == p {
          CheckEffect(s, p, a.o);
          GoIsCheck(s, p, a.o);
          if HasSeen(CheckOp(s, p, a.o), p) { CheckSees(s, p, a.o); }
        }
      }
    }
  }

  lemma {:induction false} ShutForever(run: seq<Action>, more: seq<Action>, user: User, sid: Sid, p: nat)
    requires Shut(Exec(run), user, sid, p)
    ensures Shut(Exec(run + more), user, sid, p)
    decreases |more|
  {
    hide Exec, Step, Inv, Shut;
    if more == [] {
      assert run + more == run;
    } else {
      var init, a := more[..|more| - 1], more[|more| - 1];
      assert run + more == (run + init) + [a];
      ShutForever(run, init, user, sid, p);
      ExecStep(run + init, a);
      ShutStays(Exec(run + init), a, user, sid, p);
    }
  }

  /** The user's current id is the only one that passes from now on, among those issued so far: a check
      of any other id that has not yet looked will never pass, whatever logins, refreshes, logouts,
      revocations, expiries and crashes still come. */
  lemma OnlyTheCurrentIdPasses(run: seq<Action>, more: seq<Action>, user: User, sid: Sid, p: nat)
    requires Out(Exec(run), user, sid)
    requires IsCheckOf(Exec(run + more), p, user, sid)
    requires IsCheckOf(Exec(run), p, user, sid) ==> !HasSeen(Exec(run), p)
    ensures !Exec(run + more).procs[p].checking.Passed?
    ensures Out(Exec(run + more), user, sid)
  {
    hide Exec, Inv;
    ShutForever(run, more, user, sid, p);
  }

  /** An id that stopped being current never passes again. */
  lemma NeverAgain(run: seq<Action>, more: seq<Action>, sid: Sid, p: nat)
    requires sid in Exec(run).retired
    requires var s' := Exec(run + more); p < |s'.procs| && s'.procs[p].Check? && s'.procs[p].sid == sid
    requires !HasSeen(Exec(run), p)
    ensures !Exec(run + more).procs[p].checking.Passed?
  {
    hide Exec, Inv;
    Reachable(run);
    CurrentFacts(Exec(run));
    var user := Exec(run + more).procs[p].user;
    OnlyTheCurrentIdPasses(run, more, user, sid, p);
  }

  /** A check that passed saw its id current at some moment of the run. */
  lemma {:induction false} PassedWasCurrent(run: seq<Action>, p: nat) returns (k: nat)
    requires HasSeen(Exec(run), p)
    ensures k <= |run|
    ensures var s, c := Exec(run[..k]), Exec(run).procs[p];
      IsCheckOf(s, p, c.user, c.sid) && !HasSeen(s, p) && c.user in s.db.current && s.db.current[c.user] == c.sid
  {
    hide Exec, Inv, Step;
    if run == [] {
      StartsEmpty();
      assert false;
    } else {
      var init, a := run[..|run| - 1], run[|run| - 1];
      assert run == init + [a];
      ExecStep(init, a);
      if HasSeen(Exec(init), p) {
        k := PassedWasCurrent(init, p);
        assert init[..k] == run[..k];
        ChecksKeepTheirId(Exec(init), a, p);
      } else {
        k := |init|;
        assert run[..k] == init;
        SeesCurrent(Exec(init), a, p);
      }
    }
  }

  lemma StartsEmpty()
    ensures Exec([]) == INIT
  {
  }

  lemma ChecksKeepTheirId(s: State, a: Action, p: nat)
    requires HasSeen(s, p) && HasSeen(Step(s, a), p)
    ensures IsCheckOf(Step(s, a), p, s.procs[p].user, s.procs[p].sid)
  {
    if !a.Go? {
      hide Step;
      ChecksStay(s, a, p);
    } else if a.p < |s.procs| {
      hide StepGo, CheckOp;
      GoEffect(s, a.p, a.o);
      if a.p == p { CheckEffect(s, p, a.o); GoIsCheck(s, p, a.o); }
    }
  }

  lemma SeesCurrent(s: State, a: Action, p: nat)
    requires !HasSeen(s, p) && HasSeen(Step(s, a), p)
    ensures var c := Step(s, a).procs[p];
      IsCheckOf(s, p, c.user, c.sid) && c.user in s.db.current && s.db.current[c.user] == c.sid
  {
    if !a.Go? {
      hide Step;
      ChecksStay(s, a, p);
    } else if a.p < |s.procs| {
      hide StepGo, CheckOp;
      GoEffect(s, a.p, a.o);
      if a.p == p { CheckEffect(s, p, a.o); GoIsCheck(s, p, a.o); CheckSees(s, p, a.o); }
    }
  }

  // ---------- refresh families ----------

  /** At every moment a session has at most one usable refresh token, the last one created in it; and a
      token is the one at most one other token was ever rotated from. */
  lemma FamiliesAreLinear(run: seq<Action>, t: Tok, u: Tok)
    ensures var s := Exec(run);
      && (IsUsable(s, t) && IsUsable(s, u) && s.db.tokens[t].sid == s.db.tokens[u].sid ==> t == u)
      && (IsUsable(s, t) ==> IsTip(s, s.db.tokens[t].sid, t))
      && (t in s.born && u in s.born && s.born[t].1.Some? && s.born[t].1 == s.born[u].1 ==> t == u)
      && (t in s.db.tokens ==> t in s.born && s.db.tokens[t].sid == s.born[t].0 && s.db.tokens[t].rotatedFrom == s.born[t].1)
  {
    hide Exec, Inv;
    var s := Exec(run);
    Reachable(run);
    CurrentFacts(s);
    if t in s.db.tokens { TokenFacts(s, t); }
    if u in s.db.tokens { TokenFacts(s, u); }
  }

  lemma RefreshRevivesNothing(s: State, p: nat, o: Outcome, t: Tok)
    requires p < |s.procs| && s.procs[p].Refresh?
    requires t in s.born && !IsUsable(s, t) && t != s.nextTok
    ensures t in RefreshOp(s, p, o).born && !IsUsable(RefreshOp(s, p, o), t)
  {
    hide Revoke, WriteToken, WriteSession, SaveToken;
    var r := s.procs[p];
    match r.refreshing
    case Replay(rt, _) => RevokeRevivesNothing(s, rt.user, rt.sid, Revoked, RefreshReplay, o, t);
    case LapseWrite(copy) => WriteRevivesNothing(s, r.tok, copy.(status := Lapsed), o, t);
    case MarkWrite(_, copy) => WriteRevivesNothing(s, r.tok, copy.(status := Rotated), o, t);
    case Save(rt) => SaveRevivesNothing(s, r.tok, rt, r.at, r.refreshTtl, o, t);
    case TouchWrite(rt, _, seen) => TouchRevivesNothing(s, rt.sid, seen.(expiresAt := r.at + r.sessionTtl), o);
    case _ =>
  }

  lemma LogoutRevivesNothing(s: State, p: nat, o: Outcome, t: Tok)
    requires p < |s.procs| && s.procs[p].Logout?
    requires t in s.born && !IsUsable(s, t)
    ensures t in LogoutOp(s, p, o).born && !IsUsable(LogoutOp(s, p, o), t)
  {
    hide Revoke, WriteToken;
    var l := s.procs[p];
    if l.leaving.ByAccess? && l.access.Some? { RevokeRevivesNothing(s, l.access.value.0, l.access.value.1, LoggedOut, LoggedOutReason, o, t); }
    if l.leaving.ByToken? { RevokeRevivesNothing(s, l.leaving.rt.user, l.leaving.rt.sid, LoggedOut, LoggedOutReason, o, t); }
    if l.leaving.WithdrawWrite? && l.refresh.Some? { WriteRevivesNothing(s, l.refresh.value, l.leaving.copy.(status := Withdrawn), o, t); }
  }

  lemma RequestsReviveNothing(s: State, p: nat, o: Outcome, t: Tok)
    requires p < |s.procs| && t != s.nextTok
    requires t in s.born && !IsUsable(s, t)
    ensures t in StepGo(s, p, o).born && !IsUsable(StepGo(s, p, o), t)
  {
    hide RefreshOp, LogoutOp, CheckNext;
    match s.procs[p]
    case Refresh(_, _, _, _, _) => RefreshRevivesNothing(s, p, o, t);
    case Logout(_, _, _) => LogoutRevivesNothing(s, p, o, t);
    case Check(_, _, _, _) =>
  }

  lemma BornAreOld(s: State, t: Tok)
    requires BornOk(s.born, s.tip, s.nextSid, s.nextTok) && t in s.born
    ensures t < s.nextTok
  {
  }

  lemma RevokeRevivesNothing(s: State, user: User, sid: Sid, status: Status, reason: Reason, o: Outcome, t: Tok)
    requires !IsUsable(s, t)
    ensures var s' := Revoke(s, user, sid, status, reason, o);
      !IsUsable(s', t) && s'.born == s.born && s'.procs == s.procs
  {
    hide Retiring;
  }

  lemma WriteRevivesNothing(s: State, tok: Tok, token: Token, o: Outcome, t: Tok)
    requires !IsUsable(s, t) && !token.status.Usable?
    ensures var s' := WriteToken(s, tok, token, o);
      !IsUsable(s', t) && s'.born == s.born && s'.procs == s.procs
  {
  }

  lemma SaveRevivesNothing(s: State, tok: Tok, rt: Token, at: nat, ttl: nat, o: Outcome, t: Tok)
    requires !IsUsable(s, t) && t != s.nextTok && t in s.born
    ensures var s' := SaveToken(s, tok, rt, at, ttl, o);
      !IsUsable(s', t) && t in s'.born && s'.procs == s.procs
  {
  }

  lemma TouchRevivesNothing(s: State, sid: Sid, session: Session, o: Outcome)
    ensures var s' := WriteSession(s, sid, session, o);
      s'.db.tokens == s.db.tokens && s'.born == s.born && s'.procs == s.procs
  {
  }

  lemma StepRevivesNothing(s: State, a: Action, t: Tok)
    requires BornOk(s.born, s.tip, s.nextSid, s.nextTok)
    requires t in s.born && !IsUsable(s, t)
    ensures t in Step(s, a).born && !IsUsable(Step(s, a), t)
  {
    hide BornOk;
    assert t != s.nextTok by { BornAreOld(s, t); }
    if a.Go? {
      hide StepGo;
      if a.p < |s.procs| { RequestsReviveNothing(s, a.p, a.o, t); } else { GoNowhere(s, a.p, a.o); }
    } else {
      hide EndSessions, IsOrderOf, RejectsLogin, Retiring;
    }
  }

  /** No step, and so no run, ever makes a spent token usable again, not even by writing back an old copy. */
  lemma {:induction false} SpentStaysSpent(run: seq<Action>, more: seq<Action>, t: Tok)
    requires t in Exec(run).born && !IsUsable(Exec(run), t)
    ensures t in Exec(run + more).born && !IsUsable(Exec(run + more), t)
    decreases |more|
  {
    hide Exec, Step, Inv, IsUsable;
    if more == [] {
      assert run + more == run;
    } else {
      var init, a := more[..|more| - 1], more[|more| - 1];
      assert run + more == (run + init) + [a];
      SpentStaysSpent(run, init, t);
      ExecStep(run + init, a);
      Reachable(run + init);
      CurrentFacts(Exec(run + init));
      StepRevivesNothing(Exec(run + init), a, t);
    }
  }

  // ---------- sessions and their events ----------

  /** A request extending a session is about to write back a copy it read while the session was open. */
  predicate TouchesBack(s: State, a: Action, sid: Sid) {
    && a.Go? && a.p < |s.procs| && s.procs[a.p].Refresh? && s.procs[a.p].refreshing.TouchWrite?
    && s.procs[a.p].refreshing.rt.sid == sid && a.o.Applied()
  }

  predicate ReadOpen(s: State, a: Action)
    requires a.Go? && a.p < |s.procs| && s.procs[a.p].Refresh? && s.procs[a.p].refreshing.TouchWrite?
  {
    s.procs[a.p].refreshing.seen.status.Active?
  }

  /** What a step that is not such a write does to sessions: none opens, and each that closes with its
      record kept gets its event in the same step. */
  ghost predicate ClosesWithEvents(s: State, s': State, sid: Sid) {
    && s.db.events <= s'.db.events
    && (s'.db.IsOpen(sid) && sid < s.nextSid ==> s.db.IsOpen(sid))
    && (sid in Targets(s'.db.events[|s.db.events|..]) <==> s.db.IsOpen(sid) && sid in s'.db.sessions && !s'.db.IsOpen(sid))
  }

  lemma NothingCloses(s: State, s': State, sid: Sid)
    requires s'.db.events == s.db.events && s'.db.sessions == s.db.sessions
    ensures ClosesWithEvents(s, s', sid)
  {
  }

  lemma RevokeClosesWithEvent(s: State, user: User, x: Sid, status: Status, reason: Reason, o: Outcome, sid: Sid)
    requires !status.Active?
    ensures ClosesWithEvents(s, Revoke(s, user, x, status, reason, o), sid)
    ensures Revoke(s, user, x, status, reason, o).procs == s.procs
  {
    hide WithdrawTokens, Retiring;
    var s' := Revoke(s, user, x, status, reason, o);
    if o.Applied() && s.db.IsOpen(x) {
      var e := Event(x, reason);
      assert s'.db.events[|s.db.events|..] == [e];
      assert Targets([e]) == {x} by { assert [e][0] == e; }
    } else {
      assert s'.db.events[|s.db.events|..] == [];
    }
  }

  lemma EndUserClosesWithEvents(s: State, s': State, user: User, status: Status, reason: Reason, order: seq<Sid>, sid: Sid)
    requires IsOrderOf(order, OpenIn(s.db, s.db.IndexOf(user))) && !status.Active?
    requires var d := EndUser(s.db, user, status, reason, order); s'.db.events == d.events && s'.db.sessions == d.sessions
    ensures ClosesWithEvents(s, s', sid)
  {
    hide WithdrawTokens;
    var added := EventsFor(order, reason);
    assert s'.db.events[|s.db.events|..] == added;
    assert sid in Targets(added) <==> sid in order by {
      if sid in order {
        var i :| 0 <= i < |order| && order[i] == sid;
        assert added[i] == Event(sid, reason) && added[i] in added;
      }
    }
  }

  lemma LoginClosesWithEvents(s: State, user: User, reject: bool, order: seq<Sid>, sessionTtl: nat, refreshTtl: nat, sid: Sid)
    requires sid < s.nextSid
    ensures ClosesWithEvents(s, StepLogin(s, user, reject, order, sessionTtl, refreshTtl), sid)
  {
    hide IsOrderOf, RejectsLogin, Retiring, Targets, EndSessions, WithdrawTokens, EventsFor;
    var s' := StepLogin(s, user, reject, order, sessionTtl, refreshTtl);
    if s' == s {
      NothingCloses(s, s', sid);
    } else {
      var s1 := s.(db := EndUser(s.db, user, Replaced, ReplacedByNewLogin, order));
      EndUserClosesWithEvents(s, s1, user, Replaced, ReplacedByNewLogin, order, sid);
    }
  }

  lemma RefreshClosesWithEvents(s: State, p: nat, o: Outcome, sid: Sid)
    requires p < |s.procs| && s.procs[p].Refresh? && !TouchesBack(s, Go(p, o), sid)
    ensures ClosesWithEvents(s, RefreshOp(s, p, o), sid)
  {
    hide Revoke, Targets, ClosesWithEvents;
    var s' := RefreshOp(s, p, o);
    match s.procs[p].refreshing
    case Replay(rt, _) =>
      RevokeClosesWithEvent(s, rt.user, rt.sid, Revoked, RefreshReplay, o, sid);
      ClosingIsOfTheStore(s, Revoke(s, rt.user, rt.sid, Revoked, RefreshReplay, o), s', sid);
    case TouchWrite(rt, _, _) => OtherSessionTouched(s, s', rt.sid, sid);
    case _ => NothingCloses(s, s', sid);
  }

  lemma ClosingIsOfTheStore(s: State, s1: State, s2: State, sid: Sid)
    requires ClosesWithEvents(s, s1, sid) && s2.db == s1.db
    ensures ClosesWithEvents(s, s2, sid)
  {
  }

  lemma OtherSessionTouched(s: State, s': State, x: Sid, sid: Sid)
    requires s'.db.events == s.db.events
    requires s'.db.sessions == s.db.sessions || (x != sid && x in s'.db.sessions && s'.db.sessions == s.db.sessions[x := s'.db.sessions[x]])
    ensures ClosesWithEvents(s, s', sid)
  {
  }

  lemma LogoutClosesWithEvents(s: State, p: nat, o: Outcome, sid: Sid)
    requires p < |s.procs| && s.procs[p].Logout?
    ensures ClosesWithEvents(s, LogoutOp(s, p, o), sid)
  {
    hide Revoke, Targets, ClosesWithEvents;
    var l := s.procs[p];
    var s' := LogoutOp(s, p, o);
    if l.leaving.ByAccess? && l.access.Some? {
      RevokeClosesWithEvent(s, l.access.value.0, l.access.value.1, LoggedOut, LoggedOutReason, o, sid);
      ClosingIsOfTheStore(s, Revoke(s, l.access.value.0, l.access.value.1, LoggedOut, LoggedOutReason, o), s', sid);
    } else if l.leaving.ByToken? {
      RevokeClosesWithEvent(s, l.leaving.rt.user, l.leaving.rt.sid, LoggedOut, LoggedOutReason, o, sid);
      ClosingIsOfTheStore(s, Revoke(s, l.leaving.rt.user, l.leaving.rt.sid, LoggedOut, LoggedOutReason, o), s', sid);
    } else {
      NothingCloses(s, s', sid);
    }
  }

  /** A session changes state if and only if its event is written, in one step: except for the write-back
      of a stale copy, the events a step adds name exactly the sessions it closes, and no step opens a
      session that was issued before. */
  lemma EventsMatchClosings(s: State, a: Action, sid: Sid)
    requires sid < s.nextSid && !TouchesBack(s, a, sid)
    ensures ClosesWithEvents(s, Step(s, a), sid)
  {
    hide ClosesWithEvents, RefreshOp, LogoutOp, CheckNext, StepLogin, IsOrderOf, EndUser, Retiring, Targets;
    match a
    case Login(user, reject, order, sessionTtl, refreshTtl) => LoginClosesWithEvents(s, user, reject, order, sessionTtl, refreshTtl, sid);
    case RevokeAll(user, reason, order) =>
      if IsOrderOf(order, OpenIn(s.db, s.db.IndexOf(user))) {
        EndUserClosesWithEvents(s, Step(s, a), user, Revoked, reason, order, sid);
      } else {
        NothingCloses(s, Step(s, a), sid);
      }
    case Go(p, o) =>
      if p < |s.procs| && s.procs[p].Refresh? {
        RefreshClosesWithEvents(s, p, o, sid);
      } else if p < |s.procs| && s.procs[p].Logout? {
        LogoutClosesWithEvents(s, p, o, sid);
      } else {
        NothingCloses(s, Step(s, a), sid);
      }
    case ExpireSession(x) => ExpiryCloses(s, x, sid);
    case _ => NothingCloses(s, Step(s, a), sid);
  }

  lemma ExpiryCloses(s: State, x: Sid, sid: Sid)
    ensures ClosesWithEvents(s, Step(s, ExpireSession(x)), sid)
  {
  }

  /** A closed session of an issued id opens again exactly when such a write-back brings a copy read
      while it was still open. */
  lemma OnlyStaleTouchReopens(s: State, a: Action, sid: Sid)
    requires sid < s.nextSid && !s.db.IsOpen(sid)
    ensures Step(s, a).db.IsOpen(sid) <==> TouchesBack(s, a, sid) && ReadOpen(s, a)
  {
    if TouchesBack(s, a, sid) {
      hide Revoke, WriteToken, SaveToken;
    } else {
      hide Step, TouchesBack;
      EventsMatchClosings(s, a, sid);
    }
  }

  /** This step writes an event of the session. */
  ghost predicate Announces(s: State, a: Action, sid: Sid)
    requires s.db.events <= Step(s, a).db.events
  {
    sid in Targets(Step(s, a).db.events[|s.db.events|..])
  }

  /** This step closes the session and keeps its record. */
  predicate Closes(s: State, a: Action, sid: Sid) {
    s.db.IsOpen(sid) && sid in Step(s, a).db.sessions && !Step(s, a).db.IsOpen(sid)
  }

  /** The one kind of step that closes a session without an event: a write-back, over an open record, of a
      copy read while the session was closed. In every other step, event and closing go together. */
  lemma SilentClosingIff(s: State, a: Action, sid: Sid)
    requires sid < s.nextSid
    ensures s.db.events <= Step(s, a).db.events
    ensures (Announces(s, a, sid) <==> Closes(s, a, sid)) <==> !(TouchesBack(s, a, sid) && s.db.IsOpen(sid) && !ReadOpen(s, a))
  {
    if TouchesBack(s, a, sid) {
      hide Revoke, WriteToken, SaveToken;
      assert Step(s, a).db.events == s.db.events;
    } else {
      hide Step, TouchesBack;
      EventsMatchClosings(s, a, sid);
    }
  }

  /** Every session that is closed has had its event. */
  lemma NoClosedSessionWithoutEvent(run: seq<Action>, sid: Sid)
    requires sid in Exec(run).db.sessions && !Exec(run).db.sessions[sid].status.Active?
    ensures exists k :: 0 <= k < |Exec(run).db.events| && Exec(run).db.events[k].target == sid
  {
    hide Exec, Inv;
    Reachable(run);
    SessionFacts(Exec(run), sid);
    var events := Exec(run).db.events;
    var e :| e in events && e.target == sid;
    var k :| 0 <= k < |events| && events[k] == e;
  }

  // ---------- what the scripts mean ----------

  /** A login that goes through leaves the new session as the user's only indexed one and the current one,
      open and with its one token usable; every session indexed before is closed as replaced, with one event
      for each and all its tokens withdrawn; and the sessions, tokens and current ids of others are untouched. */
  lemma LoginLeavesOneOpen(db: Db, user: User, sid: Sid, session: Session, tok: Tok, token: Token, order: seq<Sid>, x: Sid, t: Tok, u: User)
    requires IsOrderOf(order, OpenIn(db, db.IndexOf(user))) && session.status.Active? && token.status.Usable?
    requires sid !in db.sessions && tok !in db.tokens && sid !in db.family
    ensures var d := ReplaceLogin(db, user, sid, session, tok, token, order);
      && d.IndexOf(user) == {sid} && d.current == db.current[user := sid] && d.IsOpen(sid) && d.sessions[sid] == session
      && d.FamilyOf(sid) == {tok} && tok in d.tokens && d.tokens[tok] == token
      && (x in db.IndexOf(user) && db.IsOpen(x) ==> x in d.sessions && d.sessions[x] == db.sessions[x].(status := Replaced))
      && (x in db.IndexOf(user) && x in db.sessions && t in db.FamilyOf(x) && t in db.tokens && t != tok ==> t in d.tokens && d.tokens[t] == WithdrawnOf(db.tokens[t]))
      && (x !in db.IndexOf(user) && x != sid ==> (x in d.sessions <==> x in db.sessions) && (x in db.sessions ==> d.sessions[x] == db.sessions[x]))
      && (t in db.tokens && (forall y :: y in db.IndexOf(user) ==> t !in db.FamilyOf(y)) ==> t in d.tokens && d.tokens[t] == db.tokens[t])
      && (u != user ==> (u in d.current <==> u in db.current) && (u in db.current ==> d.current[u] == db.current[u]))
    ensures IsOneEventEach(db.events, ReplaceLogin(db, user, sid, session, tok, token, order).events, order, ReplacedByNewLogin)
  {
    hide IsOrderOf;
  }

  /** A usable token is withdrawn; any other stays as it is. */
  function WithdrawnOf(token: Token): Token {
    if token.status.Usable? then token.(status := Withdrawn) else token
  }

  ghost predicate IsOneEventEach(before: seq<Event>, after: seq<Event>, order: seq<Sid>, reason: Reason) {
    && |after| == |before| + |order| && before <= after
    && forall i :: 0 <= i < |order| ==> after[|before| + i] == Event(order[i], reason)
  }

  /** Revoking a user ends every open session in the index, with one event for each, withdraws their tokens
      and leaves the user without a current session; others are untouched. */
  lemma RevokingTheUserEndsAll(db: Db, user: User, reason: Reason, order: seq<Sid>, x: Sid, t: Tok, u: User)
    requires IsOrderOf(order, OpenIn(db, db.IndexOf(user)))
    ensures var d := RevokeUser(db, user, reason, order);
      && user !in d.current
      && (x in db.IndexOf(user) && db.IsOpen(x) ==> x in d.sessions && d.sessions[x] == db.sessions[x].(status := Revoked))
      && (x in db.IndexOf(user) && x in db.sessions && t in db.FamilyOf(x) && t in db.tokens ==> t in d.tokens && d.tokens[t] == WithdrawnOf(db.tokens[t]))
      && (x !in db.IndexOf(user) ==> (x in d.sessions <==> x in db.sessions) && (x in db.sessions ==> d.sessions[x] == db.sessions[x]))
      && (t in db.tokens && (forall y :: y in db.IndexOf(user) ==> t !in db.FamilyOf(y)) ==> t in d.tokens && d.tokens[t] == db.tokens[t])
      && (u != user ==> (u in d.current <==> u in db.current) && (u in db.current ==> d.current[u] == db.current[u]))
    ensures IsOneEventEach(db.events, RevokeUser(db, user, reason, order).events, order, reason)
  {
    hide IsOrderOf;
  }

  /** A login is refused, with nothing changed, exactly when in reject mode the user's current session is
      open; otherwise a new id comes into office, with a record that lives for the session's time and one
      usable token, born of none, that lives for the token's. */
  lemma LoginIssues(s: State, user: User, reject: bool, order: seq<Sid>, sessionTtl: nat, refreshTtl: nat)
    requires IsOrderOf(order, OpenIn(s.db, s.db.IndexOf(user)))
    ensures var s' := Step(s, Login(user, reject, order, sessionTtl, refreshTtl));
      if reject && user in s.db.current && s.db.current[user] in s.db.sessions && s.db.sessions[s.db.current[user]].status.Active?
      then s' == s
      else
        && s'.nextSid == s.nextSid + 1 && s'.nextTok == s.nextTok + 1
        && user in s'.db.current && s'.db.current[user] == s.nextSid
        && s.nextSid in s'.db.sessions && s'.db.sessions[s.nextSid] == Session(user, Active, s.now + sessionTtl)
        && s.nextTok in s'.db.tokens && s'.db.tokens[s.nextTok] == Token(s.nextSid, user, Usable, s.now + refreshTtl, None)
        && s.nextTok in s'.db.FamilyOf(s.nextSid)
  {
    hide IsOrderOf, EndUser, Retiring;
  }

  /** Revoking ends one open session with its status, one event and its tokens, and takes it out of office;
      a newer one stays in office, other sessions and tokens stay as they are, and revoking a closed
      session changes nothing. */
  lemma RevokingSparesTheNewer(db: Db, user: User, sid: Sid, status: Status, reason: Reason, x: Sid, t: Tok)
    requires !status.Active?
    ensures var d := RevokeSession(db, user, sid, status, reason);
      && (!db.IsOpen(sid) ==> d == db)
      && (db.IsOpen(sid) ==>
          && sid in d.sessions && d.sessions[sid] == db.sessions[sid].(status := status)
          && d.events == db.events + [Event(sid, reason)])
      && (user in db.current && db.current[user] != sid ==> d.current == db.current)
      && !d.IsOpen(sid)
      && (db.IsOpen(sid) ==> !(user in d.current && d.current[user] == sid))
      && (db.IsOpen(sid) && t in db.FamilyOf(sid) && t in db.tokens ==> t in d.tokens && d.tokens[t] == WithdrawnOf(db.tokens[t]))
      && (t in d.tokens <==> t in db.tokens)
      && (db.IsOpen(sid) ==> d.IndexOf(user) == db.IndexOf(user) - {sid})
      && (t in db.tokens && t !in db.FamilyOf(sid) ==> t in d.tokens && d.tokens[t] == db.tokens[t])
      && (x != sid ==> (x in d.sessions <==> x in db.sessions) && (x in db.sessions ==> d.sessions[x] == db.sessions[x]))
  {
  }
}
