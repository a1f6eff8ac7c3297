/** One request among the others: where its own steps take it, what the others' steps leave alone while
    it waits, and which steps of a run were its store calls. */
module SsoCalls {
  import opened SsoStore
  import opened SsoProtocol
  import opened SsoStoreSteps
  import opened SsoRequestSteps
  import opened SsoTheorems

  /** A step of request p itself. */
  predicate Mine(a: Action, p: nat) {
    (a.Go? || a.Die?) && a.p == p
  }

  function After(s: State, more: seq<Action>): State
    decreases |more|
  {
    if more == [] then s else After(Step(s, more[0]), more[1..])
  }

  /** The request is where it was; tokens once created stay on record. */
  ghost predicate Kept(s: State, s': State, p: nat) {
    && p < |s.procs| <= |s'.procs| && s'.procs[p] == s.procs[p]
    && BornIn(s.born, s'.born)
  }

  lemma OtherStep(s: State, a: Action, p: nat)
    requires p < |s.procs| && !Mine(a, p)
    ensures p < |Step(s, a).procs| && Step(s, a).procs[p] == s.procs[p] && |s.procs| <= |Step(s, a).procs|
  {
    if a.Go? {
      hide StepGo;
      if a.p < |s.procs| { GoEffect(s, a.p, a.o); } else { GoNowhere(s, a.p, a.o); }
    } else {
      hide EndUser, IsOrderOf, RejectsLogin, Retiring;
    }
  }

  predicate BornIn(before: Births, after: Births) {
    forall t :: t in before ==> t in after && after[t] == before[t]
  }

  lemma GoKeepsBorn(s: State, p: nat, o: Outcome)
    requires s.nextTok !in s.born
    ensures BornIn(s.born, StepGo(s, p, o).born)
  {
    hide CheckNext, RefreshNext, Revoke, WriteToken, WriteSession;
    if p < |s.procs| {
      match s.procs[p]
      case Refresh(tok, at, sessionTtl, _, phase) =>
        if phase.Replay? { RevokeKeepsRest(s, phase.rt.user, phase.rt.sid, Revoked, RefreshReplay, o); }
        if phase.LapseWrite? { WriteKeepsRest(s, tok, phase.copy.(status := Lapsed), o); }
        if phase.MarkWrite? { WriteKeepsRest(s, tok, phase.copy.(status := Rotated), o); }
        if phase.TouchWrite? { TouchEffect(s, phase.rt.sid, phase.seen.(expiresAt := at + sessionTtl), o); TouchKeepsBorn(s, phase.rt.sid, phase.seen.(expiresAt := at + sessionTtl), o); }
      case Logout(access, refresh, phase) =>
        if phase.ByAccess? && access.Some? { RevokeKeepsRest(s, access.value.0, access.value.1, LoggedOut, LoggedOutReason, o); }
        if phase.ByToken? { RevokeKeepsRest(s, phase.rt.user, phase.rt.sid, LoggedOut, LoggedOutReason, o); }
        if phase.WithdrawWrite? && refresh.Some? { WriteKeepsRest(s, refresh.value, phase.copy.(status := Withdrawn), o); }
      case Check(_, _, _, _) =>
    }
  }

  lemma TouchKeepsBorn(s: State, sid: Sid, session: Session, o: Outcome)
    ensures WriteSession(s, sid, session, o).born == s.born
  {
  }

  lemma StepKeepsBorn(s: State, a: Action)
    requires s.nextTok !in s.born
    ensures BornIn(s.born, Step(s, a).born)
  {
    if a.Go? {
      hide StepGo;
      GoKeepsBorn(s, a.p, a.o);
    } else {
      hide EndUser, IsOrderOf, RejectsLogin, Retiring;
    }
  }

  /** Others' steps, while request p waits. */
  lemma {:induction false} OthersKeep(run: seq<Action>, more: seq<Action>, p: nat)
    requires p < |Exec(run).procs| && forall a :: a in more ==> !Mine(a, p)
    ensures Kept(Exec(run), Exec(run + more), p) && Exec(run + more) == After(Exec(run), more)
    decreases |more|
  {
    hide Exec, Inv, Step;
    if more == [] {
      assert run + more == run;
    } else {
      ExecStep(run, more[0]);
      OtherStep(Exec(run), more[0], p);
      Reachable(run);
      NewIsUnborn(Exec(run));
      StepKeepsBorn(Exec(run), more[0]);
      assert run + more == (run + [more[0]]) + more[1..];
      OthersKeep(run + [more[0]], more[1..], p);
    }
  }

  lemma NewIsUnborn(s: State)
    requires Inv(s)
    ensures s.nextTok !in s.born
  {
  }

  /** What a refresh's own step does to its place, and what it leaves alone. */
  lemma RefreshMoves(s: State, p: nat, o: Outcome)
    requires p < |s.procs| && s.procs[p].Refresh?
    ensures var s' := Step(s, Go(p, o));
      && p < |s'.procs| && s'.procs[p] == s.procs[p].(refreshing := RefreshNext(s, p, o))
      && (s.procs[p].refreshing.Save? && o.Success? ==>
          s.nextTok in s'.born && s'.born[s.nextTok] == (s.procs[p].refreshing.rt.sid, Some(s.procs[p].tok)))
  {
    hide Revoke, RefreshNext;
  }

  lemma CheckMoves(s: State, p: nat, o: Outcome)
    requires p < |s.procs| && s.procs[p].Check?
    ensures var s' := Step(s, Go(p, o));
      p < |s'.procs| && s'.procs[p] == s.procs[p].(checking := CheckNext(s, s.procs[p], o))
  {
    hide CheckNext;
  }

  /** At the save, the old token is spent, and it is of the session the copy says. */
  lemma SavesForItsSession(run: seq<Action>, p: nat)
    requires p < |Exec(run).procs| && Exec(run).procs[p].Refresh? && Exec(run).procs[p].refreshing.Save?
    ensures var s := Exec(run);
      var r := s.procs[p]; r.tok in s.born && s.born[r.tok].0 == r.refreshing.rt.sid && !IsUsable(s, r.tok)
  {
    hide Exec, Inv;
    Reachable(run);
    ProcFacts(Exec(run), p);
    ProcIsRefresh(Exec(run), p);
  }

  lemma LogoutWithdraws(s: State, p: nat, o: Outcome)
    requires p < |s.procs| && s.procs[p].Logout? && s.procs[p].leaving.WithdrawWrite? && s.procs[p].refresh.Some? && o.Applied()
    ensures var tok, s' := s.procs[p].refresh.value, Step(s, Go(p, o)); tok in s'.db.tokens && s'.db.tokens[tok].status.Withdrawn?
  {
  }

  lemma LogoutReads(s: State, p: nat, o: Outcome)
    requires p < |s.procs| && s.procs[p].Logout? && (s.procs[p].leaving.ReadToken? || s.procs[p].leaving.Withdraw?)
    ensures Step(s, Go(p, o)).db == s.db
  {
  }

  /** An id out of office stays so. */
  lemma {:induction false} OutForever(run: seq<Action>, more: seq<Action>, user: User, sid: Sid)
    requires Out(Exec(run), user, sid)
    ensures Out(Exec(run + more), user, sid)
    decreases |more|
  {
    hide Exec, Step, Out;
    if more == [] {
      assert run + more == run;
    } else {
      var init, a := more[..|more| - 1], more[|more| - 1];
      assert run + more == (run + init) + [a];
      OutForever(run, init, user, sid);
      ExecStep(run + init, a);
      OutStays(Exec(run + init), a, user, sid);
    }
  }

  /** A token born before and seen spent since is spent now. */
  lemma StaysSpent(before: seq<Action>, seen: seq<Action>, now: seq<Action>, t: Tok)
    requires before <= seen <= now && t in Exec(before).born && !IsUsable(Exec(seen), t)
    ensures !IsUsable(Exec(now), t)
  {
    hide Exec;
    assert seen == before + seen[|before|..] && now == seen + now[|seen|..];
    BornForever(before, seen[|before|..], t);
    SpentStaysSpent(seen, now[|seen|..], t);
  }

  function LogoutNext(s: State, l: Proc, o: Outcome): LogoutPhase
    requires l.Logout?
  {
    match l.leaving
    case ByAccess => ReadToken
    case ReadToken =>
      if l.refresh.Some? && o.Success? && l.refresh.value in s.db.tokens && s.db.tokens[l.refresh.value].status.Usable?
      then Withdraw(s.db.tokens[l.refresh.value]) else Left
    case Withdraw(rt) =>
      if l.refresh.Some? && o.Success? && l.refresh.value in s.db.tokens && !s.db.tokens[l.refresh.value].status.Withdrawn?
      then WithdrawWrite(rt, s.db.tokens[l.refresh.value])
      else if l.access.None? then ByToken(rt) else Left
    case WithdrawWrite(rt, _) => if l.access.None? then ByToken(rt) else Left
    case ByToken(_) => Left
    case Left => Left
  }

  lemma LogoutMoves(s: State, p: nat, o: Outcome)
    requires p < |s.procs| && s.procs[p].Logout?
    ensures var s' := Step(s, Go(p, o));
      p < |s'.procs| && s'.procs[p] == s.procs[p].(leaving := LogoutNext(s, s.procs[p], o))
  {
    hide RevokeSession, WithDb, WriteToken;
    var l := s.procs[p];
    if l.leaving.WithdrawWrite? && l.refresh.Some? { WriteKeepsRest(s, l.refresh.value, l.leaving.copy.(status := Withdrawn), o); }
    if l.leaving.ByAccess? && l.access.Some? { RevokeKeepsRest(s, l.access.value.0, l.access.value.1, LoggedOut, LoggedOutReason, o); }
    if l.leaving.ByToken? { RevokeKeepsRest(s, l.leaving.rt.user, l.leaving.rt.sid, LoggedOut, LoggedOutReason, o); }
  }

  lemma ReleaseNext(s: State, p: nat, o: Outcome, next: Option<Tok>)
    requires p < |s.procs| && s.procs[p].Refresh? && s.procs[p].refreshing == Release(next)
    ensures RefreshNext(s, p, o) == Refreshed(next)
  {
  }

  lemma {:induction false} BornForever(run: seq<Action>, more: seq<Action>, t: Tok)
    requires t in Exec(run).born
    ensures t in Exec(run + more).born && Exec(run + more).born[t] == Exec(run).born[t]
    decreases |more|
  {
    hide Exec, Step, Inv;
    if more == [] {
      assert run + more == run;
    } else {
      var init, a := more[..|more| - 1], more[|more| - 1];
      assert run + more == (run + init) + [a];
      BornForever(run, init, t);
      ExecStep(run + init, a);
      Reachable(run + init);
      NewIsUnborn(Exec(run + init));
      StepKeepsBorn(Exec(run + init), a);
    }
  }

  lemma SpawnDoes(s: State, proc: Proc)
    requires match proc
             case Refresh(_, at, _, _, phase) => at == s.now && phase.Begin?
             case Logout(_, _, phase) => phase.ByAccess?
             case Check(_, _, cached, phase) => if cached then phase.Probe? else phase.CurrentRead?
    ensures Step(s, Spawn(proc)).procs == s.procs + [proc]
  {
  }

  lemma NotYetSeen(s: State, p: nat)
    requires p >= |s.procs|
    ensures !HasSeen(s, p) && forall user, sid :: !IsCheckOf(s, p, user, sid)
  {
  }

  // ---------- the store calls of one request ----------

  /** Between the two moments, the steps of request p are exactly those numbered `calls`, all of them store calls. */
  ghost predicate CallsAre(before: seq<Action>, after: seq<Action>, p: nat, calls: seq<nat>) {
    && before <= after
    && (forall i :: 0 <= i < |calls| ==> |before| <= calls[i] < |after| && after[calls[i]].Go? && after[calls[i]].p == p)
    && (forall i, j :: 0 <= i < j < |calls| ==> calls[i] < calls[j])
    && (forall k :: |before| <= k < |after| && Mine(after[k], p) ==> k in calls)
  }

  /** The store as step k found it. */
  ghost function Found(run: seq<Action>, k: nat): State {
    if k <= |run| then Exec(run[..k]) else Exec(run)
  }

  predicate Answered(run: seq<Action>, k: nat) {
    k < |run| && run[k].Go? && run[k].o.Success?
  }

  /** The call took effect, answered or not. */
  predicate TookEffect(run: seq<Action>, k: nat) {
    k < |run| && run[k].Go? && run[k].o.Applied()
  }

  lemma ThenCalls(before: seq<Action>, run: seq<Action>, after: seq<Action>, p: nat, calls: seq<nat>, more: seq<nat>)
    requires CallsAre(before, run, p, calls) && CallsAre(run, after, p, more)
    ensures CallsAre(before, after, p, calls + more) && before <= run <= after && before <= after
    ensures forall k: nat :: k <= |run| ==> Found(after, k) == Found(run, k)
    ensures forall k: nat :: k < |run| ==> Answered(after, k) == Answered(run, k) && TookEffect(after, k) == TookEffect(run, k)
  {
    hide Exec;
    var all := calls + more;
    forall k | |before| <= k < |after| && Mine(after[k], p) ensures k in all {
      if k < |run| { assert after[k] == run[k]; assert k in calls; } else { assert k in more; }
    }
    Earlier(run, after);
  }

  lemma Earlier(run: seq<Action>, after: seq<Action>)
    requires run <= after
    ensures forall k: nat :: k <= |run| ==> Found(after, k) == Found(run, k)
    ensures forall k: nat :: k < |run| ==> Answered(after, k) == Answered(run, k) && TookEffect(after, k) == TookEffect(run, k)
  {
    hide Exec;
    forall k: nat | k <= |run| ensures Found(after, k) == Found(run, k) { assert after[..k] == run[..k]; }
  }

  lemma OneCall(run: seq<Action>, p: nat, o: Outcome)
    ensures CallsAre(run, run + [Go(p, o)], p, [|run|])
  {
    hide Exec;
    var after := run + [Go(p, o)];
    assert after[|run|] == Go(p, o);
    forall k | |run| <= k < |after| ensures k in [|run|] { assert k == |run|; }
  }

  lemma CallFinds(run: seq<Action>, a: Action)
    ensures Found(run + [a], |run|) == Exec(run) && Found(run + [a], |run| + 1) == Step(Exec(run), a)
  {
    hide Exec, Step;
    ExecStep(run, a);
    assert (run + [a])[..|run|] == run && (run + [a])[..|run| + 1] == run + [a];
  }

  // ---------- what a validation says ----------

  predicate IsCurrent(s: State, user: User, sid: Sid) {
    user in s.db.current && s.db.current[user] == sid
  }

  /** The answer to a validation, from what the read of the current session and the read of the record found. */
  function Verdict(first: State, answered: bool, second: State, answered': bool, user: User, sid: Sid): Option<Refusal> {
    if !answered then Some(Unavailable)
    else if !IsCurrent(first, user, sid) then Some(SessionReplaced)
    else if !answered' then Some(Unavailable)
    else if sid !in second.db.sessions then Some(SessionNotFound)
    else
      match second.db.sessions[sid].status
      case Active => if second.db.sessions[sid].expiresAt > second.now then None else Some(SessionExpired)
      case Replaced => Some(SessionReplaced)
      case LoggedOut => Some(SessionLoggedOut)
      case Revoked => Some(SessionRevoked)
  }

  /** The full way: the current session first; the record only if that is the one; then the answer. */
  ghost predicate Validated(run: seq<Action>, calls: seq<nat>, user: User, sid: Sid, refused: Option<Refusal>) {
    && 1 <= |calls| <= 2
    && (|calls| == 2 <==> Answered(run, calls[0]) && IsCurrent(Found(run, calls[0]), user, sid))
    && (var last := calls[|calls| - 1];
        refused == Verdict(Found(run, calls[0]), Answered(run, calls[0]), Found(run, last), Answered(run, last), user, sid))
  }

  /** The cached way: a cached answer first; the current session only if there is one; it counts if that is still the one. */
  ghost predicate Cached(run: seq<Action>, calls: seq<nat>, user: User, sid: Sid, still: bool) {
    && 1 <= |calls| <= 2
    && (|calls| == 2 <==> Answered(run, calls[0]) && (user, sid) in Found(run, calls[0]).probes)
    && (still <==> |calls| == 2 && Answered(run, calls[1]) && IsCurrent(Found(run, calls[1]), user, sid))
  }

  /** A cached answer that counts ends the check; otherwise the full way decides, and an answer that passes
      is put into the cache. */
  ghost predicate Introspected(run: seq<Action>, asked: seq<nat>, calls: seq<nat>, kept: seq<nat>, user: User, sid: Sid, refused: Option<Refusal>) {
    && Cached(run, asked, user, sid, calls == [])
    && (if calls == [] then refused.None? && kept == []
        else
          && Validated(run, calls, user, sid, refused)
          && |kept| == (if refused.None? then 1 else 0)
          && (refused.None? && TookEffect(run, kept[0]) ==> (user, sid) in Found(run, kept[0] + 1).probes))
  }

  lemma ValidatedStays(before: seq<Action>, run: seq<Action>, after: seq<Action>, p: nat, calls: seq<nat>, user: User, sid: Sid, refused: Option<Refusal>)
    requires CallsAre(before, run, p, calls) && run <= after && Validated(run, calls, user, sid, refused)
    ensures Validated(after, calls, user, sid, refused)
  {
    hide Exec, Verdict;
    FoundStays(before, run, after, p, calls);
  }

  lemma CachedStays(before: seq<Action>, run: seq<Action>, after: seq<Action>, p: nat, calls: seq<nat>, user: User, sid: Sid, still: bool)
    requires CallsAre(before, run, p, calls) && run <= after && Cached(run, calls, user, sid, still)
    ensures Cached(after, calls, user, sid, still)
  {
    hide Exec;
    FoundStays(before, run, after, p, calls);
  }

  lemma FoundStays(before: seq<Action>, run: seq<Action>, after: seq<Action>, p: nat, calls: seq<nat>)
    requires CallsAre(before, run, p, calls) && run <= after
    ensures forall i :: 0 <= i < |calls| ==> Found(after, calls[i]) == Found(run, calls[i]) && Found(after, calls[i] + 1) == Found(run, calls[i] + 1)
    ensures forall i :: 0 <= i < |calls| ==> Answered(after, calls[i]) == Answered(run, calls[i]) && TookEffect(after, calls[i]) == TookEffect(run, calls[i])
  {
    hide Exec;
    forall i | 0 <= i < |calls|
      ensures Found(after, calls[i]) == Found(run, calls[i]) && Found(after, calls[i] + 1) == Found(run, calls[i] + 1)
    {
      assert after[..calls[i]] == run[..calls[i]] && after[..calls[i] + 1] == run[..calls[i] + 1];
    }
  }

  lemma KeepsAnswer(s: State, p: nat, o: Outcome)
    requires p < |s.procs| && s.procs[p].Check? && s.procs[p].checking.CacheWrite? && o.Applied()
    ensures (s.procs[p].user, s.procs[p].sid) in Step(s, Go(p, o)).probes
  {
  }

  lemma Since(before: seq<Action>, run: seq<Action>, p: nat, calls: seq<nat>)
    requires CallsAre(before, run, p, calls)
    ensures before <= run && run == before + run[|before|..]
  {
  }

  // ---------- what a refresh says ----------

  predicate IsUnexpired(s: State, tok: Tok, at: nat) {
    IsUsable(s, tok) && s.db.tokens[tok].expiresAt > at
  }

  predicate IsOpenAt(s: State, sid: Sid, at: nat) {
    sid in s.db.sessions && s.db.sessions[sid].status.Active? && s.db.sessions[sid].expiresAt > at
  }

  predicate IsUsed(s: State, tok: Tok) {
    tok in s.db.tokens && s.db.tokens[tok].status.Rotated?
  }

  /** A session is ended: if it was open its record gets the status, with one event saying why, its family is
      withdrawn, and it leaves its office; if it was closed already, nothing happens. */
  ghost predicate Ended(s: State, s': State, user: User, sid: Sid, status: Status, reason: Reason) {
    && !s'.db.IsOpen(sid)
    && (!s.db.IsOpen(sid) ==> s'.db == s.db)
    && (s.db.IsOpen(sid) ==>
        && sid in s'.db.sessions && s'.db.sessions[sid] == s.db.sessions[sid].(status := status)
        && s'.db.events == s.db.events + [Event(sid, reason)]
        && (forall t :: t in s.db.FamilyOf(sid) ==> !IsUsable(s', t))
        && Out(s', user, sid))
  }

  ghost predicate EndedAt(run: seq<Action>, k: nat, user: User, sid: Sid, status: Status, reason: Reason) {
    TookEffect(run, k) ==> Ended(Found(run, k), Found(run, k + 1), user, sid, status, reason)
  }

  lemma RevokeEnds(s: State, s': State, user: User, sid: Sid, status: Status, reason: Reason)
    requires Inv(s) && !status.Active? && s'.db == RevokeSession(s.db, user, sid, status, reason) && s'.nextSid == s.nextSid
    ensures Ended(s, s', user, sid, status, reason)
  {
    hide Inv, RevokeSession;
    RevokingSparesTheNewer(s.db, user, sid, status, reason, sid, 0);
    if s.db.IsOpen(sid) { SessionFacts(s, sid); }
    forall t | t in s.db.FamilyOf(sid) && s.db.IsOpen(sid) ensures !IsUsable(s', t) {
      RevokingSparesTheNewer(s.db, user, sid, status, reason, sid, t);
    }
  }

  /** Reuse of a rotated token costs its session. */
  lemma ReplayEnds(s: State, p: nat, o: Outcome)
    requires Inv(s) && p < |s.procs| && s.procs[p].Refresh? && s.procs[p].refreshing.Replay? && o.Applied()
    ensures var rt := s.procs[p].refreshing.rt; Ended(s, Step(s, Go(p, o)), rt.user, rt.sid, Revoked, RefreshReplay)
  {
    hide Inv, RevokeSession, Retiring, Ended;
    var rt := s.procs[p].refreshing.rt;
    RevokeEnds(s, Step(s, Go(p, o)), rt.user, rt.sid, Revoked, RefreshReplay);
  }

  /** A logout ends its session: by the access token, or by the refresh token when there is no other. */
  lemma LogoutEnds(s: State, p: nat, o: Outcome)
    requires Inv(s) && p < |s.procs| && s.procs[p].Logout? && o.Applied()
    requires s.procs[p].leaving.ByToken? || (s.procs[p].leaving.ByAccess? && s.procs[p].access.Some?)
    ensures var l := s.procs[p];
      var (user, sid) := if l.leaving.ByToken? then (l.leaving.rt.user, l.leaving.rt.sid) else l.access.value;
      Ended(s, Step(s, Go(p, o)), user, sid, LoggedOut, LoggedOutReason)
  {
    hide Inv, RevokeSession, Retiring, Ended;
    var l := s.procs[p];
    var (user, sid) := if l.leaving.ByToken? then (l.leaving.rt.user, l.leaving.rt.sid) else l.access.value;
    RevokeEnds(s, Step(s, Go(p, o)), user, sid, LoggedOut, LoggedOutReason);
  }

  /** The call at k saw the token used, and the call at next revoked its session. */
  ghost predicate Caught(run: seq<Action>, k: nat, next: nat, tok: Tok) {
    && IsUsed(Found(run, k), tok)
    && (var rt := Found(run, k).db.tokens[tok]; EndedAt(run, next, rt.user, rt.sid, Revoked, RefreshReplay))
  }

  /** What the calls of a refresh up to its release of the lock must find for a new token to come out: the
      token usable and unexpired, its session open, the lock free, and what is needed under the lock. */
  ghost predicate Serves(run: seq<Action>, calls: seq<nat>, tok: Tok, at: nat, sessionTtl: nat) {
    && |calls| > 0 && Answered(run, calls[0]) && IsUnexpired(Found(run, calls[0]), tok, at)
    && ServesOpen(run, calls[1..], tok, Found(run, calls[0]).db.tokens[tok].sid, at, at + sessionTtl)
  }

  ghost predicate ServesOpen(run: seq<Action>, calls: seq<nat>, tok: Tok, sid: Sid, at: nat, until: nat) {
    && (|calls| > 0 ==> Answered(run, calls[0]) && IsOpenAt(Found(run, calls[0]), sid, at))
    && (|calls| > 1 ==> Answered(run, calls[1]) && tok !in Found(run, calls[1]).locks)
    && (|calls| > 2 ==> ServesLocked(run, calls[2..], tok, sid, until))
  }

  /** Under the lock: the token still usable, and what the rotation needs. */
  ghost predicate ServesLocked(run: seq<Action>, calls: seq<nat>, tok: Tok, sid: Sid, until: nat) {
    && (|calls| > 0 ==> Answered(run, calls[0]) && IsUsable(Found(run, calls[0]), tok))
    && (|calls| > 1 ==> RotatesRest(run, calls[1..], tok, sid, until))
  }

  /** The token still there to be marked, the session still there to be extended, the new expiry ahead, and
      every call answered. The mark is a read and a write, or the read alone if that finds it made. */
  ghost predicate RotatesRest(run: seq<Action>, calls: seq<nat>, tok: Tok, sid: Sid, until: nat) {
    && |calls| > 0 && Answered(run, calls[0]) && tok in Found(run, calls[0]).db.tokens
    && (var marks := if IsUsed(Found(run, calls[0]), tok) then 1 else 2;
        && (|calls| >= marks ==> Answered(run, calls[marks - 1]))
        && (|calls| >= marks ==> Saves(run, calls[marks..], sid, until)))
  }

  /** What the mark needs. */
  ghost predicate Marks(run: seq<Action>, calls: seq<nat>, tok: Tok) {
    && 1 <= |calls| <= 2 && Answered(run, calls[0]) && tok in Found(run, calls[0]).db.tokens
    && (|calls| == 1 <==> IsUsed(Found(run, calls[0]), tok)) && (|calls| == 2 ==> Answered(run, calls[1]))
  }

  /** What the save and the touch need. */
  ghost predicate Saves(run: seq<Action>, calls: seq<nat>, sid: Sid, until: nat) {
    && (|calls| > 0 ==> Answered(run, calls[0]))
    && (|calls| > 1 ==> Touches(run, calls[1..], sid, until))
  }

  ghost predicate Touches(run: seq<Action>, calls: seq<nat>, sid: Sid, until: nat) {
    && |calls| > 0 && Answered(run, calls[0]) && sid in Found(run, calls[0]).db.sessions && until > Found(run, calls[0]).now
    && (|calls| > 1 ==> Answered(run, calls[1]))
  }

  lemma SavesIff(run: seq<Action>, k: nat, touches: seq<nat>, sid: Sid, until: nat)
    requires Answered(run, k) && |touches| > 0
    ensures Saves(run, [k] + touches, sid, until) <==> Touches(run, touches, sid, until)
  {
    hide Found, Answered, Touches;
    assert ([k] + touches)[1..] == touches;
  }

  lemma MarkedServesIff(run: seq<Action>, marks: seq<nat>, saves: seq<nat>, tok: Tok, sid: Sid, until: nat)
    requires Marks(run, marks, tok)
    ensures RotatesRest(run, marks + saves, tok, sid, until) <==> Saves(run, saves, sid, until)
  {
    hide Found, Answered, Saves;
    assert (marks + saves)[|marks|..] == saves;
  }

  lemma UnmarkedServesNot(run: seq<Action>, marks: seq<nat>, tok: Tok, sid: Sid, until: nat)
    requires 1 <= |marks| <= 2 && (|marks| == 2 <==> Answered(run, marks[0]) && tok in Found(run, marks[0]).db.tokens && !IsUsed(Found(run, marks[0]), tok))
    requires |marks| == 2 ==> !Answered(run, marks[1])
    requires |marks| == 1 ==> !(Answered(run, marks[0]) && tok in Found(run, marks[0]).db.tokens)
    ensures !RotatesRest(run, marks, tok, sid, until)
  {
    hide Found, Answered;
  }

  lemma LockedServesIff(run: seq<Action>, k: nat, more: seq<nat>, tok: Tok, sid: Sid, until: nat)
    requires Answered(run, k) && IsUsable(Found(run, k), tok) && |more| > 0
    ensures ServesLocked(run, [k] + more, tok, sid, until) <==> RotatesRest(run, more, tok, sid, until)
  {
    hide Found, Answered, RotatesRest;
    assert ([k] + more)[1..] == more;
  }

  lemma OpenServesIff(run: seq<Action>, a: nat, b: nat, locked: seq<nat>, tok: Tok, sid: Sid, at: nat, until: nat)
    requires Answered(run, a) && IsOpenAt(Found(run, a), sid, at)
    requires Answered(run, b) && tok !in Found(run, b).locks && |locked| > 0
    ensures ServesOpen(run, [a, b] + locked, tok, sid, at, until) <==> ServesLocked(run, locked, tok, sid, until)
  {
    hide Found, Answered, ServesLocked;
    assert ([a, b] + locked)[2..] == locked;
  }

  lemma ServesLockedStays(before: seq<Action>, run: seq<Action>, after: seq<Action>, p: nat, calls: seq<nat>, tok: Tok, sid: Sid, until: nat)
    requires CallsAre(before, run, p, calls) && run <= after
    ensures ServesLocked(after, calls, tok, sid, until) == ServesLocked(run, calls, tok, sid, until)
  {
    hide Found, Answered, TookEffect, IsUsable, IsUsed, CallsAre, Saves;
    FoundStays(before, run, after, p, calls);
    if |calls| > 1 { SavesStays(run, after, calls[1..][1..], sid, until); }
    if |calls| > 2 { SavesStays(run, after, calls[1..][2..], sid, until); }
  }

  lemma SavesStays(run: seq<Action>, after: seq<Action>, calls: seq<nat>, sid: Sid, until: nat)
    requires forall i :: 0 <= i < |calls| ==> Found(after, calls[i]) == Found(run, calls[i]) && Answered(after, calls[i]) == Answered(run, calls[i])
    ensures Saves(after, calls, sid, until) == Saves(run, calls, sid, until)
  {
    hide Found, Answered;
  }

  lemma MarksStay(before: seq<Action>, run: seq<Action>, after: seq<Action>, p: nat, calls: seq<nat>, tok: Tok)
    requires CallsAre(before, run, p, calls) && run <= after && Marks(run, calls, tok)
    ensures Marks(after, calls, tok) && Found(after, calls[|calls| - 1] + 1) == Found(run, calls[|calls| - 1] + 1)
  {
    hide Found, Answered, TookEffect, CallsAre;
    FoundStays(before, run, after, p, calls);
  }

  lemma RotatesStays(before: seq<Action>, run: seq<Action>, after: seq<Action>, p: nat, calls: seq<nat>, tok: Tok, rt: Token, next: Tok, until: nat, expires: nat)
    requires CallsAre(before, run, p, calls) && run <= after && Rotates(run, calls, tok, rt, next, until, expires)
    ensures Rotates(after, calls, tok, rt, next, until, expires)
  {
    hide Found, Answered, TookEffect, CallsAre;
    FoundStays(before, run, after, p, calls);
  }

  lemma RotatesLater(run: seq<Action>, first: seq<nat>, calls: seq<nat>, tok: Tok, rt: Token, next: Tok, until: nat, expires: nat)
    requires Rotates(run, calls, tok, rt, next, until, expires)
    ensures Rotates(run, first + calls, tok, rt, next, until, expires)
  {
    hide Found;
    var all, n, m := first + calls, |first + calls|, |calls|;
    assert all[n - 4] == calls[m - 4] && all[n - 3..] == calls[m - 3..];
  }

  lemma CaughtStays(before: seq<Action>, run: seq<Action>, after: seq<Action>, p: nat, k: nat, next: nat, tok: Tok)
    requires CallsAre(before, run, p, [k, next]) && run <= after && Caught(run, k, next, tok)
    ensures Caught(after, k, next, tok)
  {
    hide Found, Answered, TookEffect, CallsAre, Ended;
    FoundStays(before, run, after, p, [k, next]);
    assert [k, next][0] == k && [k, next][1] == next;
  }

  /** What a refresh that served did: it marked the old token, saved the new one in its family as its
      child, and extended the session. */
  ghost predicate Rotates(run: seq<Action>, calls: seq<nat>, tok: Tok, rt: Token, next: Tok, until: nat, expires: nat) {
    && |calls| >= 4
    && IsUsed(Found(run, calls[|calls| - 4] + 1), tok)
    && SavedAndTouched(run, calls[|calls| - 3..], tok, rt, next, until, expires)
  }

  ghost predicate SavedAndTouched(run: seq<Action>, calls: seq<nat>, tok: Tok, rt: Token, next: Tok, until: nat, expires: nat) {
    && |calls| == 3
    && (var saved := Found(run, calls[0] + 1);
        && next in saved.db.tokens && saved.db.tokens[next] == Token(rt.sid, rt.user, Usable, expires, Some(tok))
        && next in saved.db.FamilyOf(rt.sid))
    && Touched(run, calls[1..], rt.sid, until)
  }

  ghost predicate Touched(run: seq<Action>, calls: seq<nat>, sid: Sid, until: nat) {
    && |calls| == 2
    && (var seen, touched := Found(run, calls[0]), Found(run, calls[1] + 1);
        && sid in seen.db.sessions && sid in touched.db.sessions
        && touched.db.sessions[sid] == seen.db.sessions[sid].(expiresAt := until))
  }

  /** A token read usable and past its expiry. */
  ghost predicate IsPast(run: seq<Action>, k: nat, tok: Tok, at: nat) {
    Answered(run, k) && IsUsable(Found(run, k), tok) && Found(run, k).db.tokens[tok].expiresAt <= at
  }

  /** The token is given the status by a read and a write, or has it already, unless a call fails or it is gone. */
  ghost predicate MarkedAs(run: seq<Action>, calls: seq<nat>, tok: Tok, status: TokenStatus) {
    && 1 <= |calls| <= 2
    && (var left := Found(run, calls[|calls| - 1] + 1);
        Answered(run, calls[0]) && Answered(run, calls[|calls| - 1]) && tok in left.db.tokens ==> left.db.tokens[tok].status == status)
  }

  /** The release of the lock. */
  ghost predicate Freed(run: seq<Action>, k: nat, tok: Tok, p: nat) {
    TookEffect(run, k) && tok in Found(run, k + 1).locks ==> Found(run, k + 1).locks[tok] != p
  }

  lemma RotatesInAll(run: seq<Action>, marks: seq<nat>, saves: seq<nat>, tok: Tok, rt: Token, next: Tok, until: nat, expires: nat)
    requires |marks| > 0 && IsUsed(Found(run, marks[|marks| - 1] + 1), tok)
    requires SavedAndTouched(run, saves, tok, rt, next, until, expires)
    ensures Rotates(run, marks + saves, tok, rt, next, until, expires)
  {
    hide Found;
    var all := marks + saves;
    assert all[|all| - 4] == marks[|marks| - 1] && all[|all| - 3..] == saves;
  }

  /** The new token, born of the spent one, in every later state. */
  lemma SavedForGood(saving: seq<Action>, saved: seq<Action>, run: seq<Action>, sid: Sid, tok: Tok, next: Tok)
    requires saving <= saved <= run
    requires tok in Exec(saving).born && Exec(saving).born[tok].0 == sid && !IsUsable(Exec(saving), tok)
    requires next in Exec(saved).born && Exec(saved).born[next] == (sid, Some(tok))
    ensures var s := Exec(run);
      tok in s.born && next in s.born && s.born[next] == (s.born[tok].0, Some(tok)) && !IsUsable(s, tok)
  {
    hide Exec, IsUsable;
    assert run == saving + run[|saving|..] && run == saved + run[|saved|..];
    SpentStaysSpent(saving, run[|saving|..], tok);
    BornForever(saving, run[|saving|..], tok);
    BornForever(saved, run[|saved|..], next);
  }

  lemma LapseReads(s: State, p: nat, o: Outcome)
    requires p < |s.procs| && s.procs[p].Refresh? && s.procs[p].refreshing.Lapse?
    ensures Step(s, Go(p, o)).db == s.db
  {
  }

  lemma MarkedStays(before: seq<Action>, run: seq<Action>, after: seq<Action>, p: nat, calls: seq<nat>, tok: Tok, status: TokenStatus)
    requires CallsAre(before, run, p, calls) && run <= after && MarkedAs(run, calls, tok, status)
    ensures MarkedAs(after, calls, tok, status)
  {
    hide Found, Answered, TookEffect, CallsAre;
    FoundStays(before, run, after, p, calls);
  }

  /** The refresh token's part of a logout: if it is read usable it is withdrawn, and without an access token
      its session is ended. */
  ghost predicate Withdrew(run: seq<Action>, read: nat, marks: seq<nat>, ends: seq<nat>, access: Option<(User, Sid)>, refresh: Option<Tok>) {
    if refresh.Some? && Answered(run, read) && IsUsable(Found(run, read), refresh.value) then
      var rt := Found(run, read).db.tokens[refresh.value];
      && MarkedAs(run, marks, refresh.value, Withdrawn)
      && |ends| == (if access.None? then 1 else 0)
      && (access.None? ==> EndedAt(run, ends[0], rt.user, rt.sid, LoggedOut, LoggedOutReason))
    else marks == [] && ends == []
  }

  lemma BornSince(before: seq<Action>, run: seq<Action>, t: Tok)
    requires before <= run && t in Exec(before).born
    ensures t in Exec(run).born
  {
    hide Exec;
    assert run == before + run[|before|..];
    BornForever(before, run[|before|..], t);
  }

  lemma OutSince(before: seq<Action>, run: seq<Action>, user: User, sid: Sid)
    requires before <= run && Out(Exec(before), user, sid)
    ensures Out(Exec(run), user, sid)
  {
    hide Exec, Out;
    assert run == before + run[|before|..];
    OutForever(before, run[|before|..], user, sid);
  }

  lemma MarkWrites(s: State, p: nat, o: Outcome)
    requires p < |s.procs| && s.procs[p].Refresh? && s.procs[p].refreshing.MarkWrite? && o.Applied()
    ensures IsUsed(Step(s, Go(p, o)), s.procs[p].tok)
  {
  }

  lemma MarkReads(s: State, p: nat, o: Outcome)
    requires p < |s.procs| && s.procs[p].Refresh? && s.procs[p].refreshing.Mark?
    ensures Step(s, Go(p, o)).db == s.db
  {
  }

  lemma LapseWrites(s: State, p: nat, o: Outcome)
    requires p < |s.procs| && s.procs[p].Refresh? && s.procs[p].refreshing.LapseWrite? && o.Applied()
    ensures var s' := Step(s, Go(p, o)); s.procs[p].tok in s'.db.tokens && s'.db.tokens[s.procs[p].tok].status.Lapsed?
  {
  }

  lemma SaveWrites(s: State, p: nat, o: Outcome)
    requires p < |s.procs| && s.procs[p].Refresh? && s.procs[p].refreshing.Save? && o.Applied()
    ensures var r, s' := s.procs[p], Step(s, Go(p, o));
      && s.nextTok in s'.db.tokens
      && s'.db.tokens[s.nextTok] == Token(r.refreshing.rt.sid, r.refreshing.rt.user, Usable, r.at + r.refreshTtl, Some(r.tok))
      && s.nextTok in s'.db.FamilyOf(r.refreshing.rt.sid)
  {
  }

  lemma TouchWrites(s: State, p: nat, o: Outcome)
    requires p < |s.procs| && s.procs[p].Refresh? && s.procs[p].refreshing.TouchWrite? && o.Applied()
    ensures var r, s' := s.procs[p], Step(s, Go(p, o));
      && r.refreshing.rt.sid in s'.db.sessions
      && s'.db.sessions[r.refreshing.rt.sid] == r.refreshing.seen.(expiresAt := r.at + r.sessionTtl)
  {
  }

  lemma ReleaseFrees(s: State, p: nat, o: Outcome)
    requires p < |s.procs| && s.procs[p].Refresh? && s.procs[p].refreshing.Release? && o.Applied()
    ensures var s' := Step(s, Go(p, o)); s.procs[p].tok in s'.locks ==> s'.locks[s.procs[p].tok] != p
  {
  }
}
