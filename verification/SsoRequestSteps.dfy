/** The steps of refreshes, logouts and checks keep the invariant, and so does every step and run. */
module SsoRequestSteps {
  import opened SsoStore
  import opened SsoProtocol
  import opened SsoStoreSteps

  // ---------- a refresh ----------

  lemma ProcFacts(s: State, p: nat)
    requires Inv(s) && p < |s.procs|
    ensures ProcOk(s, p)
  {
  }

  lemma TokenFacts(s: State, t: Tok)
    requires Inv(s) && t in s.db.tokens
    ensures TokenOk(s, t)
  {
  }

  lemma SessionFacts(s: State, sid: Sid)
    requires Inv(s) && sid in s.db.sessions
    ensures sid < s.nextSid && SessionOk(s, sid, s.db.sessions[sid])
  {
  }

  /** Before the lock: the request remembers what it saw. */
  lemma RefreshBeginKeepsInv(s: State, p: nat, o: Outcome)
    requires Inv(s) && p < |s.procs| && s.procs[p].Refresh?
    requires var phase := s.procs[p].refreshing; phase.Begin? || phase.Lapse? || phase.CheckSession? || phase.TakeLock?
    ensures Inv(RefreshOp(s, p, o))
  {
    hide Inv, Targets;
    ProcFacts(s, p);
    var tok := s.procs[p].tok;
    if tok in s.db.tokens { TokenFacts(s, tok); }
    ProcStep(s, RefreshOp(s, p, o), p);
  }

  /** With the lock: a token still usable is the tip of its family. */
  lemma RefreshReadKeepsInv(s: State, p: nat, o: Outcome)
    requires Inv(s) && p < |s.procs| && s.procs[p].Refresh?
    requires var phase := s.procs[p].refreshing; phase.Recheck? || phase.Mark? || phase.Touch? || phase.Release?
    ensures Inv(RefreshOp(s, p, o))
  {
    hide Inv, Targets;
    ProcFacts(s, p);
    var tok := s.procs[p].tok;
    if tok in s.db.tokens { TokenFacts(s, tok); }
    if s.procs[p].refreshing.Touch? {
      var sid := s.procs[p].refreshing.rt.sid;
      if sid in s.db.sessions { SessionFacts(s, sid); }
    }
    ProcStep(s, RefreshOp(s, p, o), p);
  }

  lemma TokenWriteKeepsInv(s: State, p: nat, o: Outcome)
    requires Inv(s) && p < |s.procs| && s.procs[p].Refresh?
    requires var phase := s.procs[p].refreshing; phase.LapseWrite? || phase.MarkWrite?
    ensures Inv(RefreshOp(s, p, o))
  {
    hide Inv, Targets;
    var r := s.procs[p];
    ProcFacts(s, p);
    var written := r.refreshing.copy.(status := if r.refreshing.LapseWrite? then Lapsed else Rotated);
    WriteTokenKeepsInv(s, r.tok, written, o);
    ProcStep(WriteToken(s, r.tok, written, o), RefreshOp(s, p, o), p);
  }

  lemma ReplayKeepsInv(s: State, p: nat, o: Outcome)
    requires Inv(s) && p < |s.procs| && s.procs[p].Refresh? && s.procs[p].refreshing.Replay?
    ensures Inv(RefreshOp(s, p, o))
  {
    hide Inv, Targets, Revoke;
    var rt := s.procs[p].refreshing.rt;
    ProcFacts(s, p);
    RevokeKeepsInv(s, rt.user, rt.sid, Revoked, RefreshReplay, o);
    RevokeKeepsRest(s, rt.user, rt.sid, Revoked, RefreshReplay, o);
    ProcStep(Revoke(s, rt.user, rt.sid, Revoked, RefreshReplay, o), RefreshOp(s, p, o), p);
  }

  lemma TouchWriteKeepsInv(s: State, p: nat, o: Outcome)
    requires Inv(s) && p < |s.procs| && s.procs[p].Refresh? && s.procs[p].refreshing.TouchWrite?
    ensures Inv(RefreshOp(s, p, o))
  {
    hide Inv, Targets;
    var r := s.procs[p];
    ProcFacts(s, p);
    var touched := r.refreshing.seen.(expiresAt := r.at + r.sessionTtl);
    WriteSessionKeepsInv(s, r.refreshing.rt.sid, touched, o);
    ProcStep(WriteSession(s, r.refreshing.rt.sid, touched, o), RefreshOp(s, p, o), p);
  }

  lemma RevokeKeepsRest(s: State, user: User, sid: Sid, status: Status, reason: Reason, o: Outcome)
    ensures var s' := Revoke(s, user, sid, status, reason, o);
      s' == s.(db := s'.db, retired := s'.retired)
  {
  }

  /** The new token becomes the tip of its family; the old one, spent and locked, is behind it. */
  lemma SaveKeepsBorn(born: Births, tip: map<Sid, Tok>, nextSid: Sid, nextTok: Tok, tok: Tok)
    requires BornOk(born, tip, nextSid, nextTok) && tok in born && tip[born[tok].0] == tok
    ensures BornOk(born[nextTok := (born[tok].0, Some(tok))], tip[born[tok].0 := nextTok], nextSid, nextTok + 1)
    ensures BornOk(born, tip, nextSid, nextTok + 1)
    ensures nextTok !in born
  {
  }

  lemma SaveKeepsInv(s: State, p: nat, o: Outcome)
    requires Inv(s) && p < |s.procs| && s.procs[p].Refresh? && s.procs[p].refreshing.Save?
    ensures Inv(RefreshOp(s, p, o))
  {
    hide Targets, ProcOk, BornOk, CurrentOk, TokenOk;
    var r := s.procs[p];
    var s' := RefreshOp(s, p, o);
    ProcIsRefresh(s, p);
    SaveKeepsBorn(s.born, s.tip, s.nextSid, s.nextTok, r.tok);
    forall q: nat | q < |s'.procs| ensures ProcOk(s', q) {
      if q == p { SavedIsFine(s, p, o); } else { SaveSparesOthers(s, p, o, q); }
    }
    forall t | t in s'.db.tokens ensures TokenOk(s', t) { SaveKeepsTokens(s, p, o, t); }
  }

  lemma SaveSparesOthers(s: State, p: nat, o: Outcome, q: nat)
    requires p < |s.procs| && q < |s.procs| && p != q
    requires ProcOk(s, p) && ProcOk(s, q) && s.nextTok !in s.born
    requires s.procs[p].Refresh? && s.procs[p].refreshing.Save?
    ensures ProcOk(RefreshOp(s, p, o), q)
  {
    hide Targets, ProcOk, RefreshOp, Onward;
    if s.procs[q].Refresh? && Rotating(s.procs[q].refreshing) { OthersKeepTheirTip(s, p, q); }
    SaveChanges(s, p, o);
    ProcStays(s, RefreshOp(s, p, o), q);
  }

  lemma SaveChanges(s: State, p: nat, o: Outcome)
    requires p < |s.procs| && s.procs[p].Refresh? && s.procs[p].refreshing.Save? && s.nextTok !in s.born
    ensures var s' := RefreshOp(s, p, o);
      && Onward(s, s') && s'.locks == s.locks && |s'.procs| == |s.procs|
      && (forall q: nat :: q < |s.procs| && q != p ==> s'.procs[q] == s.procs[q])
      && (forall sid, t :: sid != s.procs[p].refreshing.rt.sid && IsTip(s, sid, t) ==> IsTip(s', sid, t))
  {
    hide Targets;
  }

  lemma SaveKeepsTokens(s: State, p: nat, o: Outcome, t: Tok)
    requires ProcOk(s, p) && s.procs[p].Refresh? && s.procs[p].refreshing.Save? && s.nextTok !in s.born
    requires t in s.db.tokens ==> TokenOk(s, t)
    requires t in RefreshOp(s, p, o).db.tokens
    ensures TokenOk(RefreshOp(s, p, o), t)
  {
  }

  lemma ProcIsRefresh(s: State, p: nat)
    requires ProcOk(s, p) && s.procs[p].Refresh?
    ensures RefreshOk(s, p, s.procs[p])
  {
  }

  lemma SavedIsFine(s: State, p: nat, o: Outcome)
    requires ProcOk(s, p) && s.procs[p].Refresh? && s.procs[p].refreshing.Save?
    ensures ProcOk(RefreshOp(s, p, o), p)
  {
  }

  /** Two requests rotating in one family would be rotating the same token, and hold the same lock. */
  lemma OthersKeepTheirTip(s: State, p: nat, q: nat)
    requires ProcOk(s, p) && ProcOk(s, q) && p != q
    requires s.procs[p].Refresh? && Rotating(s.procs[p].refreshing)
    requires s.procs[q].Refresh? && Rotating(s.procs[q].refreshing)
    ensures s.procs[p].refreshing.rt.sid != s.procs[q].refreshing.rt.sid
  {
  }

  lemma LogoutKeepsInv(s: State, p: nat, o: Outcome)
    requires Inv(s) && p < |s.procs| && s.procs[p].Logout?
    ensures Inv(LogoutOp(s, p, o))
  {
    hide Inv, Targets, Revoke, WriteToken;
    var l := s.procs[p];
    var s' := LogoutOp(s, p, o);
    ProcFacts(s, p);
    match l.leaving
    case ByAccess =>
      if l.access.Some? {
        RevokeKeepsInv(s, l.access.value.0, l.access.value.1, LoggedOut, LoggedOutReason, o);
        RevokeKeepsRest(s, l.access.value.0, l.access.value.1, LoggedOut, LoggedOutReason, o);
        ProcStep(Revoke(s, l.access.value.0, l.access.value.1, LoggedOut, LoggedOutReason, o), s', p);
      } else {
        ProcStep(s, s', p);
      }
    case ByToken(rt) =>
      RevokeKeepsInv(s, rt.user, rt.sid, LoggedOut, LoggedOutReason, o);
      RevokeKeepsRest(s, rt.user, rt.sid, LoggedOut, LoggedOutReason, o);
      ProcStep(Revoke(s, rt.user, rt.sid, LoggedOut, LoggedOutReason, o), s', p);
    case WithdrawWrite(rt, copy) =>
      if l.refresh.Some? {
        WriteTokenKeepsInv(s, l.refresh.value, copy.(status := Withdrawn), o);
        WriteKeepsRest(s, l.refresh.value, copy.(status := Withdrawn), o);
        ProcStep(WriteToken(s, l.refresh.value, copy.(status := Withdrawn), o), s', p);
      } else {
        ProcStep(s, s', p);
      }
    case _ => LogoutReadKeepsInv(s, p, o);
  }

  lemma WriteKeepsRest(s: State, tok: Tok, token: Token, o: Outcome)
    ensures var s' := WriteToken(s, tok, token, o);
      s' == s.(db := s'.db)
  {
  }

  lemma LogoutReadKeepsInv(s: State, p: nat, o: Outcome)
    requires Inv(s) && p < |s.procs| && s.procs[p].Logout?
    requires s.procs[p].leaving.ReadToken? || s.procs[p].leaving.Withdraw? || s.procs[p].leaving.Left?
    ensures Inv(LogoutOp(s, p, o))
  {
    hide Inv, Targets;
    var refresh := s.procs[p].refresh;
    if refresh.Some? && refresh.value in s.db.tokens { TokenFacts(s, refresh.value); }
    if !s.procs[p].leaving.Left? { ProcStep(s, LogoutOp(s, p, o), p); }
  }

  lemma SpawnKeepsInv(s: State, proc: Proc)
    requires Inv(s)
    ensures Inv(StepSpawn(s, proc))
  {
    hide Targets, BornOk, CurrentOk;
    var s' := StepSpawn(s, proc);
    if s' != s {
      forall q: nat | q < |s'.procs| ensures ProcOk(s', q) {
        if q < |s.procs| { ProcFacts(s, q); ProcStays(s, s', q); }
      }
      forall t | t in s'.db.tokens ensures TokenOk(s', t) { assert TokenOk(s, t); }
    }
  }

  lemma DieKeepsInv(s: State, p: nat)
    requires Inv(s)
    ensures Inv(StepDie(s, p))
  {
    hide Inv, Targets;
    if StepDie(s, p) != s { ProcStep(s, StepDie(s, p), p); }
  }

  lemma ClockKeepsInv(s: State, now: nat, probes: set<(User, Sid)>)
    requires Inv(s)
    ensures Inv(s.(now := now, probes := probes))
  {
    hide Targets, BornOk, CurrentOk, ProcOk;
    var s' := s.(now := now, probes := probes);
    forall q: nat | q < |s'.procs| ensures ProcOk(s', q) { ProcStays(s, s', q); }
    forall t | t in s'.db.tokens ensures TokenOk(s', t) { assert TokenOk(s, t); }
  }

  lemma EndedKeepsInv(s: State, p: nat, o: Outcome)
    requires Inv(s) && p < |s.procs| && s.procs[p].Refresh? && s.procs[p].refreshing.Refreshed?
    ensures Inv(RefreshOp(s, p, o))
  {
    hide Inv;
    ProcStep(s, RefreshOp(s, p, o), p);
  }

  lemma RefreshKeepsInv(s: State, p: nat, o: Outcome)
    requires Inv(s) && p < |s.procs| && s.procs[p].Refresh?
    ensures Inv(RefreshOp(s, p, o))
  {
    hide *;
    match s.procs[p].refreshing
    case Begin => RefreshBeginKeepsInv(s, p, o);
    case Lapse => RefreshBeginKeepsInv(s, p, o);
    case LapseWrite(_) => TokenWriteKeepsInv(s, p, o);
    case CheckSession(_) => RefreshBeginKeepsInv(s, p, o);
    case TakeLock(_) => RefreshBeginKeepsInv(s, p, o);
    case Recheck(_) => RefreshReadKeepsInv(s, p, o);
    case Replay(_, _) => ReplayKeepsInv(s, p, o);
    case Mark(_) => RefreshReadKeepsInv(s, p, o);
    case MarkWrite(_, _) => TokenWriteKeepsInv(s, p, o);
    case Save(_) => SaveKeepsInv(s, p, o);
    case Touch(_, _) => RefreshReadKeepsInv(s, p, o);
    case TouchWrite(_, _, _) => TouchWriteKeepsInv(s, p, o);
    case Release(_) => RefreshReadKeepsInv(s, p, o);
    case Refreshed(_) => EndedKeepsInv(s, p, o);
  }

  lemma GoKeepsInv(s: State, p: nat, o: Outcome)
    requires Inv(s)
    ensures Inv(StepGo(s, p, o))
  {
    hide Inv, RefreshOp, LogoutOp, CheckOp;
    if p < |s.procs| {
      match s.procs[p]
      case Refresh(_, _, _, _, _) => RefreshKeepsInv(s, p, o);
      case Logout(_, _, _) => LogoutKeepsInv(s, p, o);
      case Check(_, _, _, _) => CheckKeepsInv(s, p, o);
    }
  }

  lemma StepKeepsInv(s: State, a: Action)
    requires Inv(s)
    ensures Inv(Step(s, a))
  {
    hide Inv, StepLogin, StepRevokeAll, StepSpawn, StepGo, StepDie;
    match a
    case Tick => ClockKeepsInv(s, s.now + 1, s.probes);
    case Login(user, reject, order, sessionTtl, refreshTtl) => LoginKeepsInv(s, user, reject, order, sessionTtl, refreshTtl);
    case RevokeAll(user, reason, order) => RevokeAllKeepsInv(s, user, reason, order);
    case Spawn(proc) => SpawnKeepsInv(s, proc);
    case Go(p, o) => GoKeepsInv(s, p, o);
    case Die(p) => DieKeepsInv(s, p);
    case ExpireProbe(probe) => ClockKeepsInv(s, s.now, s.probes - {probe});
    case _ => ExpiryKeepsInv(s, a);
  }

  // ---------- whole runs ----------

  /** The invariant holds in every reachable state. */
  lemma {:induction false} Reachable(run: seq<Action>)
    ensures Inv(Exec(run))
  {
    hide Inv, Step;
    if run == [] {
      InitIsFine();
    } else {
      Reachable(run[..|run| - 1]);
      StepKeepsInv(Exec(run[..|run| - 1]), run[|run| - 1]);
    }
  }

  lemma InitIsFine()
    ensures Inv(INIT)
  {
  }

  lemma ExecStep(run: seq<Action>, a: Action)
    ensures Exec(run + [a]) == Step(Exec(run), a)
  {
    assert (run + [a])[..|run|] == run;
  }
}
