/** The kinds of change the steps are made of, the logins, revocations and expiries keep the invariant. */
module SsoStoreSteps {
  import opened SsoStore
  import opened SsoProtocol

  /** What only grows as the others go on: histories, events, and spent tokens staying spent. */
  ghost predicate Onward(s: State, s': State) {
    && (forall t :: t in s.born ==> t in s'.born && s'.born[t] == s.born[t])
    && s.nextSid <= s'.nextSid
    && Targets(s.db.events) <= Targets(s'.db.events)
    && (forall t :: t in s.born && IsUsable(s', t) ==> IsUsable(s, t))
  }

  lemma ProcStays(s: State, s': State, q: nat)
    requires ProcOk(s, q) && q < |s'.procs| && s'.procs[q] == s.procs[q] && Onward(s, s')
    requires forall t :: t in s.locks && s.locks[t] == q ==> t in s'.locks && s'.locks[t] == q
    requires s.procs[q].Refresh? && Rotating(s.procs[q].refreshing) ==>
      var r := s.procs[q]; IsTip(s, r.refreshing.rt.sid, r.tok) ==> IsTip(s', r.refreshing.rt.sid, r.tok)
    ensures ProcOk(s', q)
  {
    hide Targets, IsTip, IsUsable;
  }

  /** Only request p's own place, and probes and locks not held by others, change. */
  lemma ProcStep(s: State, s': State, p: nat)
    requires Inv(s) && p < |s.procs| && |s'.procs| == |s.procs|
    requires s' == s.(procs := s'.procs, probes := s'.probes, locks := s'.locks)
    requires forall q: nat :: q < |s.procs| && q != p ==> s'.procs[q] == s.procs[q]
    requires ProcOk(s', p)
    requires forall t :: t in s.locks && s.locks[t] != p ==> t in s'.locks && s'.locks[t] == s.locks[t]
    ensures Inv(s')
  {
    hide Targets, ProcOk, BornOk, CurrentOk;
    forall q: nat | q < |s'.procs| ensures ProcOk(s', q) { if q != p { ProcStays(s, s', q); } }
    forall t | t in s'.db.tokens ensures TokenOk(s', t) { assert TokenOk(s, t); }
  }

  lemma CheckChanges(s: State, p: nat, o: Outcome)
    requires p < |s.procs| && s.procs[p].Check?
    ensures var s' := CheckOp(s, p, o);
      && s' == s.(procs := s'.procs, probes := s'.probes) && |s'.procs| == |s.procs| && s'.procs[p].Check?
      && forall q: nat :: q < |s.procs| && q != p ==> s'.procs[q] == s.procs[q]
  {
    hide CheckNext;
  }

  lemma CheckKeepsInv(s: State, p: nat, o: Outcome)
    requires Inv(s) && p < |s.procs| && s.procs[p].Check?
    ensures Inv(CheckOp(s, p, o))
  {
    hide Inv, CheckOp;
    CheckChanges(s, p, o);
    ProcStep(s, CheckOp(s, p, o), p);
  }

  predicate Same(a: Token, b: Token) {
    a.sid == b.sid && a.rotatedFrom == b.rotatedFrom
  }

  /** Token records are kept with at most their status changed, or dropped; none becomes usable. */
  ghost predicate TokensWane(before: map<Tok, Token>, after: map<Tok, Token>) {
    forall t :: t in after ==>
      t in before && Same(before[t], after[t]) && (after[t].status.Usable? ==> before[t].status.Usable?)
  }

  /** The store changes, but tokens only wane, and no event is taken back. */
  lemma DbStep(s: State, s': State)
    requires Inv(s) && s' == s.(db := s'.db, retired := s'.retired)
    requires CurrentOk(s'.db.current, s'.retired, s.nextSid)
    requires TokensWane(s.db.tokens, s'.db.tokens)
    requires forall sid :: sid in s'.db.sessions ==> sid < s.nextSid && SessionOk(s', sid, s'.db.sessions[sid])
    requires Targets(s.db.events) <= Targets(s'.db.events)
    ensures Inv(s')
  {
    hide Targets, ProcOk, BornOk, CurrentOk;
    forall q: nat | q < |s'.procs| ensures ProcOk(s', q) { ProcStays(s, s', q); }
    forall t | t in s'.db.tokens ensures TokenOk(s', t) { assert TokenOk(s, t); }
  }

  lemma WriteTokenKeepsInv(s: State, tok: Tok, token: Token, o: Outcome)
    requires Inv(s) && Truthful(s, tok, token) && !token.status.Usable?
    ensures Inv(WriteToken(s, tok, token, o))
  {
    hide Targets, ProcOk, BornOk, CurrentOk;
    var s' := WriteToken(s, tok, token, o);
    forall q: nat | q < |s'.procs| ensures ProcOk(s', q) { ProcStays(s, s', q); }
    forall t | t in s'.db.tokens ensures TokenOk(s', t) { assert t != tok ==> TokenOk(s, t); }
  }

  lemma WriteSessionKeepsInv(s: State, sid: Sid, session: Session, o: Outcome)
    requires Inv(s) && sid < s.nextSid && SessionOk(s, sid, session)
    ensures Inv(WriteSession(s, sid, session, o))
  {
    hide Targets, ProcOk, TokenOk, BornOk, CurrentOk;
    DbStep(s, WriteSession(s, sid, session, o));
  }

  /** Retiring the ids that go, and letting none come, keeps ids apart. */
  lemma CurrentShrinks(current: map<User, Sid>, after: map<User, Sid>, retired: set<Sid>, nextSid: Sid)
    requires CurrentOk(current, retired, nextSid)
    requires forall u :: u in after ==> u in current && after[u] == current[u]
    ensures CurrentOk(after, retired + Retiring(current, after), nextSid)
  {
  }

  lemma EventAdds(events: seq<Event>, e: Event)
    ensures Targets(events + [e]) == Targets(events) + {e.target}
  {
    assert (events + [e])[|events|] == e;
  }

  lemma RevokeFacts(s: State, user: User, sid: Sid, status: Status, reason: Reason)
    requires Inv(s)
    ensures var db := RevokeSession(s.db, user, sid, status, reason);
      && Targets(s.db.events) <= Targets(db.events)
      && (forall x :: x in db.sessions ==> x < s.nextSid && (db.sessions[x].status.Active? || x in Targets(db.events)))
      && TokensWane(s.db.tokens, db.tokens)
      && forall u :: u in db.current ==> u in s.db.current && db.current[u] == s.db.current[u]
  {
    hide Targets, CurrentOk, BornOk, TokenOk, ProcOk;
    EventAdds(s.db.events, Event(sid, reason));
  }

  lemma CurrentFacts(s: State)
    requires Inv(s)
    ensures CurrentOk(s.db.current, s.retired, s.nextSid) && BornOk(s.born, s.tip, s.nextSid, s.nextTok)
  {
  }

  lemma RevokeKeepsInv(s: State, user: User, sid: Sid, status: Status, reason: Reason, o: Outcome)
    requires Inv(s)
    ensures Inv(Revoke(s, user, sid, status, reason, o))
  {
    hide Inv, Targets, CurrentOk, BornOk, RevokeSession, TokensWane;
    if o.Applied() {
      var db := RevokeSession(s.db, user, sid, status, reason);
      RevokeFacts(s, user, sid, status, reason);
      CurrentFacts(s);
      CurrentShrinks(s.db.current, db.current, s.retired, s.nextSid);
      DbStep(s, WithDb(s, db));
    }
  }

  lemma EventsAdd(events: seq<Event>, order: seq<Sid>, reason: Reason)
    ensures Targets(events) <= Targets(events + EventsFor(order, reason))
    ensures forall sid :: sid in order ==> sid in Targets(events + EventsFor(order, reason))
  {
    var all := events + EventsFor(order, reason);
    forall sid | sid in order ensures sid in Targets(all) {
      var i :| 0 <= i < |order| && order[i] == sid;
      assert all[|events| + i] == Event(sid, reason);
    }
  }

  lemma EndUserFacts(s: State, user: User, status: Status, reason: Reason, order: seq<Sid>)
    requires Inv(s) && IsOrderOf(order, OpenIn(s.db, s.db.IndexOf(user)))
    ensures var db := EndUser(s.db, user, status, reason, order);
      && Targets(s.db.events) <= Targets(db.events)
      && (forall sid :: sid in db.sessions ==> sid < s.nextSid && (db.sessions[sid].status.Active? || sid in Targets(db.events)))
      && TokensWane(s.db.tokens, db.tokens)
  {
    hide Targets, CurrentOk, BornOk, TokenOk, ProcOk;
    EventsAdd(s.db.events, order, reason);
  }

  lemma RevokeAllKeepsInv(s: State, user: User, reason: Reason, order: seq<Sid>)
    requires Inv(s)
    ensures Inv(StepRevokeAll(s, user, reason, order))
  {
    hide Inv, Targets, CurrentOk, BornOk, EndUser, TokensWane, IsOrderOf;
    if IsOrderOf(order, OpenIn(s.db, s.db.IndexOf(user))) {
      EndUserFacts(s, user, Revoked, reason, order);
      EndUserKeepsCurrent(s.db, user, Revoked, reason, order);
      var db := RevokeUser(s.db, user, reason, order);
      CurrentFacts(s);
      CurrentShrinks(s.db.current, db.current, s.retired, s.nextSid);
      DbStep(s, WithDb(s, db));
    }
  }

  lemma EndUserKeepsCurrent(db: Db, user: User, status: Status, reason: Reason, order: seq<Sid>)
    ensures EndUser(db, user, status, reason, order).current == db.current
  {
  }

  lemma ExpiryKeepsInv(s: State, a: Action)
    requires Inv(s) && (a.ExpireSession? || a.ExpireToken? || a.ExpireFamily? || a.ExpireIndex? || a.ExpireCurrent?)
    ensures Inv(Step(s, a))
  {
    hide Targets, BornOk, ProcOk;
    var s' := Step(s, a);
    if a.ExpireCurrent? {
      CurrentShrinks(s.db.current, s'.db.current, s.retired, s.nextSid);
    }
    hide CurrentOk;
    DbStep(s, s');
  }

  // ---------- a login ----------

  lemma LoginKeepsCurrent(current: map<User, Sid>, retired: set<Sid>, nextSid: Sid, user: User)
    requires CurrentOk(current, retired, nextSid)
    ensures CurrentOk(current[user := nextSid], retired + Retiring(current, current[user := nextSid]), nextSid + 1)
  {
  }

  lemma LoginKeepsBorn(born: Births, tip: map<Sid, Tok>, nextSid: Sid, nextTok: Tok)
    requires BornOk(born, tip, nextSid, nextTok)
    ensures BornOk(born[nextTok := (nextSid, None)], tip[nextSid := nextTok], nextSid + 1, nextTok + 1)
    ensures nextTok !in born && nextSid !in tip
  {
  }

  lemma LoginKeepsInv(s: State, user: User, reject: bool, order: seq<Sid>, sessionTtl: nat, refreshTtl: nat)
    requires Inv(s)
    ensures Inv(StepLogin(s, user, reject, order, sessionTtl, refreshTtl))
  {
    hide Inv, Targets, CurrentOk, BornOk, EndUser, TokensWane, IsOrderOf, RejectsLogin, ProcOk, TokenOk, Retiring;
    if !(reject && RejectsLogin(s.db, user)) && IsOrderOf(order, OpenIn(s.db, s.db.IndexOf(user))) {
      EndUserFacts(s, user, Replaced, ReplacedByNewLogin, order);
      EndUserKeepsCurrent(s.db, user, Replaced, ReplacedByNewLogin, order);
      CurrentFacts(s);
      LoginKeepsCurrent(s.db.current, s.retired, s.nextSid, user);
      LoginKeepsBorn(s.born, s.tip, s.nextSid, s.nextTok);
      var s1 := s.(db := EndUser(s.db, user, Replaced, ReplacedByNewLogin, order));
      DbStep(s, s1);
      NewSession(s1, StepLogin(s, user, reject, order, sessionTtl, refreshTtl), user, sessionTtl, refreshTtl);
    }
  }

  /** The second half of a login: a new session with its first token. */
  lemma NewSession(s: State, s': State, user: User, sessionTtl: nat, refreshTtl: nat)
    requires Inv(s)
    requires s' == s.(
      db := s.db.(sessions := s.db.sessions[s.nextSid := Session(user, Active, s.now + sessionTtl)],
                  tokens := s.db.tokens[s.nextTok := Token(s.nextSid, user, Usable, s.now + refreshTtl, None)],
                  family := s'.db.family, index := s'.db.index, current := s'.db.current),
      retired := s'.retired, nextSid := s.nextSid + 1, nextTok := s.nextTok + 1,
      tip := s.tip[s.nextSid := s.nextTok], born := s.born[s.nextTok := (s.nextSid, None)])
    requires CurrentOk(s'.db.current, s'.retired, s'.nextSid) && BornOk(s'.born, s'.tip, s'.nextSid, s'.nextTok)
    requires s.nextTok !in s.born && s.nextSid !in s.tip
    ensures Inv(s')
  {
    hide Targets, ProcOk, BornOk, CurrentOk;
    forall q: nat | q < |s'.procs| ensures ProcOk(s', q) {
      TipStays(s, s', q);
      ProcStays(s, s', q);
    }
    forall t | t in s'.db.tokens ensures TokenOk(s', t) { assert t != s.nextTok ==> TokenOk(s, t); }
  }

  lemma TipStays(s: State, s': State, q: nat)
    requires q < |s.procs| && forall sid :: sid in s.tip ==> sid in s'.tip && s'.tip[sid] == s.tip[sid]
    ensures s.procs[q].Refresh? && Rotating(s.procs[q].refreshing) ==>
      var r := s.procs[q]; IsTip(s, r.refreshing.rt.sid, r.tok) ==> IsTip(s', r.refreshing.rt.sid, r.tok)
  {
  }
}
