/** The session store of the single sign-on service: sessions, refresh tokens and their families, the
    user's session index, the one current session, and the event stream. The three Lua scripts are
    functions on it, run atomically; the class computes them key by key as the scripts do. */
module SsoStore {

  datatype Option<+T> = None | Some(value: T)

  type User = nat
  type Sid = nat   // generated ids; freshness is the machine's business
  type Tok = nat   // token hashes, injective

  datatype Status = Active | Replaced | LoggedOut | Revoked

  datatype Session = Session(user: User, status: Status, expiresAt: nat) {
    predicate IsActive(now: nat) { status.Active? && expiresAt > now }
  }

  datatype TokenStatus = Usable | Rotated | Withdrawn | Lapsed

  datatype Token = Token(sid: Sid, user: User, status: TokenStatus, expiresAt: nat, rotatedFrom: Option<Tok>)

  datatype Reason = ReplacedByNewLogin | LoggedOutReason | RefreshReplay | PasswordChanged | AdminRevoked

  datatype Event = Event(target: Sid, reason: Reason)

  datatype Db = Db(
    sessions: map<Sid, Session>, tokens: map<Tok, Token>, family: map<Sid, set<Tok>>,
    index: map<User, set<Sid>>, current: map<User, Sid>, events: seq<Event>)
  {
    function FamilyOf(sid: Sid): set<Tok> { if sid in family then family[sid] else {} }

    function IndexOf(user: User): set<Sid> { if user in index then index[user] else {} }

    predicate IsOpen(sid: Sid) { sid in sessions && sessions[sid].status.Active? }
  }

  /** Withdraw the usable tokens among the hashes; a hash without a record is skipped. */
  function WithdrawTokens(tokens: map<Tok, Token>, hashes: set<Tok>, status: TokenStatus): map<Tok, Token> {
    map t | t in tokens :: if t in hashes && tokens[t].status.Usable? then tokens[t].(status := status) else tokens[t]
  }

  function EndSessions(sessions: map<Sid, Session>, sids: set<Sid>, status: Status): map<Sid, Session> {
    map sid | sid in sessions :: if sid in sids && sessions[sid].status.Active? then sessions[sid].(status := status) else sessions[sid]
  }

  /** The tokens of those sessions that still have a record. */
  function TokensIn(db: Db, sids: set<Sid>): set<Tok> {
    set sid, t | sid in sids && sid in db.sessions && t in db.FamilyOf(sid) :: t
  }

  function Known(hashes: set<Tok>, tokens: map<Tok, Token>): set<Tok> {
    set t | t in hashes && t in tokens
  }

  function OpenIn(db: Db, sids: set<Sid>): set<Sid> {
    set sid | sid in sids && db.IsOpen(sid)
  }

  function EventsFor(order: seq<Sid>, reason: Reason): (events: seq<Event>)
    ensures |events| == |order| && forall i :: 0 <= i < |order| ==> events[i] == Event(order[i], reason)
  {
    seq(|order|, i requires 0 <= i < |order| => Event(order[i], reason))
  }

  /** The store returns a set's members in an order of its own. */
  predicate IsOrderOf<T(==)>(order: seq<T>, s: set<T>) {
    && (forall x :: x in order ==> x in s)
    && (forall x :: x in s ==> x in order)
    && (forall i, j :: 0 <= i < j < |order| ==> order[i] != order[j])
  }

  /** Every open session of the user is ended, its tokens withdrawn, and one event written for it. */
  function EndUser(db: Db, user: User, status: Status, reason: Reason, order: seq<Sid>): Db {
    db.(sessions := EndSessions(db.sessions, db.IndexOf(user), status),
        tokens := WithdrawTokens(db.tokens, TokensIn(db, db.IndexOf(user)), Withdrawn),
        events := db.events + EventsFor(order, reason))
  }

  predicate RejectsLogin(db: Db, user: User) {
    user in db.current && db.IsOpen(db.current[user])
  }

  /** login_replace: the old sessions end, the new one is written and becomes the current one. */
  function ReplaceLogin(db: Db, user: User, sid: Sid, session: Session, tok: Tok, token: Token, order: seq<Sid>): Db {
    var d := EndUser(db, user, Replaced, ReplacedByNewLogin, order);
    d.(sessions := d.sessions[sid := session], tokens := d.tokens[tok := token],
       family := d.family[sid := d.FamilyOf(sid) + {tok}], index := d.index[user := {sid}], current := d.current[user := sid])
  }

  /** revoke_user: as above, and the user has no current session. */
  function RevokeUser(db: Db, user: User, reason: Reason, order: seq<Sid>): Db {
    var d := EndUser(db, user, Revoked, reason, order);
    d.(current := d.current - {user})
  }

  /** revoke_session: nothing unless the session is open; the current session goes only if it is this one. */
  function RevokeSession(db: Db, user: User, sid: Sid, status: Status, reason: Reason): Db {
    if !db.IsOpen(sid) then db
    else
      db.(sessions := db.sessions[sid := db.sessions[sid].(status := status)],
          tokens := WithdrawTokens(db.tokens, db.FamilyOf(sid), Withdrawn),
          current := if user in db.current && db.current[user] == sid then db.current - {user} else db.current,
          index := if user in db.index then db.index[user := db.index[user] - {sid}] else db.index,
          events := db.events + [Event(sid, reason)])
  }

  // ---------- the scripts, key by key ----------

  class Store {
    var sessions: map<Sid, Session>
    var tokens: map<Tok, Token>
    var family: map<Sid, set<Tok>>
    var index: map<User, set<Sid>>
    var current: map<User, Sid>
    var events: seq<Event>

    constructor ()
      ensures View() == Db(map[], map[], map[], map[], map[], [])
    {
      sessions, tokens, family, index, current, events := map[], map[], map[], map[], map[], [];
    }

    function View(): Db
      reads this
    {
      Db(sessions, tokens, family, index, current, events)
    }

    /** The loop over one family; a hash whose record is gone is skipped. */
    method WithdrawFamily(sid: Sid, status: TokenStatus)
      modifies this`tokens
      ensures tokens == WithdrawTokens(old(tokens), View().FamilyOf(sid), status)
    {
      var todo := View().FamilyOf(sid);
      ghost var done: set<Tok> := {};
      while todo != {}
        invariant done + todo == View().FamilyOf(sid) && done !! todo
        invariant tokens == WithdrawTokens(old(tokens), done, status)
        decreases todo
      {
        var hash :| hash in todo;
        if hash in tokens && tokens[hash].status.Usable? {
          tokens := tokens[hash := tokens[hash].(status := status)];
        }
        todo := todo - {hash};
        done := done + {hash};
      }
    }

    /** RevokeSessionTokens: the same loop outside a script, with the index cleaned of dead hashes. */
    method RevokeSessionTokens(sid: Sid, status: TokenStatus)
      modifies this`tokens, this`family
      ensures tokens == WithdrawTokens(old(tokens), old(View().FamilyOf(sid)), status)
      ensures family == if sid in old(family) then old(family)[sid := Known(old(family)[sid], old(tokens))] else old(family)
    {
      WithdrawFamily(sid, status);
      if sid in family {
        assert Known(family[sid], tokens) == Known(family[sid], old(tokens));
        family := family[sid := Known(family[sid], tokens)];
      }
    }

    /** The loop over the user's index; returns the sessions it ended, in the order it met them. */
    method EndAll(user: User, status: Status) returns (ended: seq<Sid>)
      modifies this`sessions, this`tokens
      ensures IsOrderOf(ended, OpenIn(old(View()), old(View().IndexOf(user))))
      ensures sessions == EndSessions(old(sessions), old(View().IndexOf(user)), status)
      ensures tokens == WithdrawTokens(old(tokens), TokensIn(old(View()), old(View().IndexOf(user))), Withdrawn)
    {
      hide WithdrawTokens, EndSessions, IsOrderOf;
      ended := [];
      var todo := View().IndexOf(user);
      ghost var done: set<Sid> := {};
      StartEnd(View(), status);
      while todo != {}
        invariant done + todo == old(View().IndexOf(user)) && done !! todo
        invariant EndedSoFar(old(View()), done, status, sessions, tokens, ended)
        decreases todo
      {
        var sid :| sid in todo;
        todo := todo - {sid};
        EndOne(old(View()), done, sid, status, sessions, tokens, ended);
        var known := sid in sessions;
        var open := known && sessions[sid].status.Active?;
        if known {
          WithdrawFamily(sid, Withdrawn);
        }
        if open {
          sessions := sessions[sid := sessions[sid].(status := status)];
          ended := ended + [sid];
        }
        done := done + {sid};
      }
      assert done == old(View().IndexOf(user));
    }

    method WriteEvents(order: seq<Sid>, reason: Reason)
      modifies this`events
      ensures events == old(events) + EventsFor(order, reason)
    {
      for i := 0 to |order|
        invariant events == old(events) + EventsFor(order[..i], reason)
      {
        events := events + [Event(order[i], reason)];
        assert EventsFor(order[..i + 1], reason) == EventsFor(order[..i], reason) + [Event(order[i], reason)];
      }
      assert order[..|order|] == order;
    }

    /** login_replace; None when mode reject finds an open current session, and then nothing changes. */
    method LoginReplace(reject: bool, user: User, sid: Sid, session: Session, tok: Tok, token: Token) returns (replaced: Option<seq<Sid>>)
      modifies this
      ensures replaced.None? <==>
        reject && user in old(current) && old(current)[user] in old(sessions) && old(sessions)[old(current)[user]].status.Active?
      ensures match replaced
              case None => View() == old(View())
              case Some(order) =>
                && IsOrderOf(order, OpenIn(old(View()), old(View().IndexOf(user))))
                && View() == ReplaceLogin(old(View()), user, sid, session, tok, token, order)
    {
      hide IsOrderOf, OpenIn, TokensIn, WithdrawTokens, EndSessions;
      if reject {
        if user in current && current[user] in sessions && sessions[current[user]].status.Active? {
          return None;
        }
      }
      var ended := EndAll(user, Replaced);
      sessions := sessions[sid := session];
      tokens := tokens[tok := token];
      family := family[sid := View().FamilyOf(sid) + {tok}];
      index := index[user := {sid}];
      current := current[user := sid];
      WriteEvents(ended, ReplacedByNewLogin);
      replaced := Some(ended);
    }

    /** revoke_user */
    method RevokeAll(user: User, reason: Reason) returns (revoked: seq<Sid>)
      modifies this
      ensures IsOrderOf(revoked, OpenIn(old(View()), old(View().IndexOf(user))))
      ensures View() == RevokeUser(old(View()), user, reason, revoked)
    {
      hide IsOrderOf, OpenIn, TokensIn, WithdrawTokens, EndSessions;
      revoked := EndAll(user, Revoked);
      current := current - {user};
      WriteEvents(revoked, reason);
    }

    /** revoke_session */
    method RevokeOne(user: User, sid: Sid, status: Status, reason: Reason) returns (done: bool)
      modifies this
      ensures done == old(View()).IsOpen(sid)
      ensures View() == RevokeSession(old(View()), user, sid, status, reason)
    {
      hide WithdrawTokens;
      if sid !in sessions || !sessions[sid].status.Active? {
        return false;
      }
      WithdrawFamily(sid, Withdrawn);
      sessions := sessions[sid := sessions[sid].(status := status)];
      if user in current && current[user] == sid {
        current := current - {user};
      }
      if user in index {
        index := index[user := index[user] - {sid}];
      }
      events := events + [Event(sid, reason)];
      done := true;
    }
  }

  /** After the sessions in `done`: those are ended and their families withdrawn, and no others. */
  ghost predicate EndedSoFar(db: Db, done: set<Sid>, status: Status, sessions: map<Sid, Session>, tokens: map<Tok, Token>, ended: seq<Sid>) {
    && sessions == EndSessions(db.sessions, done, status)
    && tokens == WithdrawTokens(db.tokens, TokensIn(db, done), Withdrawn)
    && IsOrderOf(ended, OpenIn(db, done))
  }

  lemma StartEnd(db: Db, status: Status)
    ensures EndedSoFar(db, {}, status, db.sessions, db.tokens, [])
  {
  }

  lemma WithdrawTwice(tokens: map<Tok, Token>, first: set<Tok>, second: set<Tok>)
    ensures WithdrawTokens(WithdrawTokens(tokens, first, Withdrawn), second, Withdrawn) == WithdrawTokens(tokens, first + second, Withdrawn)
  {
  }

  lemma OrderAppend<T>(order: seq<T>, s: set<T>, x: T)
    requires IsOrderOf(order, s) && x !in s
    ensures IsOrderOf(order + [x], s + {x})
  {
    assert (order + [x])[|order|] == x;
  }

  lemma EndOne(db: Db, done: set<Sid>, sid: Sid, status: Status, sessions: map<Sid, Session>, tokens: map<Tok, Token>, ended: seq<Sid>)
    requires EndedSoFar(db, done, status, sessions, tokens, ended) && sid !in done
    ensures sid in sessions <==> sid in db.sessions
    ensures sid in sessions ==> sessions[sid] == db.sessions[sid]
    ensures EndedSoFar(db, done + {sid}, status,
      if db.IsOpen(sid) then sessions[sid := db.sessions[sid].(status := status)] else sessions,
      if sid in db.sessions then WithdrawTokens(tokens, db.FamilyOf(sid), Withdrawn) else tokens,
      if db.IsOpen(sid) then ended + [sid] else ended)
  {
    hide IsOrderOf, WithdrawTokens;
    var tokens', open' := TokensIn(db, done + {sid}), OpenIn(db, done + {sid});
    assert tokens' == if sid in db.sessions then TokensIn(db, done) + db.FamilyOf(sid) else TokensIn(db, done);
    WithdrawTwice(db.tokens, TokensIn(db, done), db.FamilyOf(sid));
    assert open' == if db.IsOpen(sid) then OpenIn(db, done) + {sid} else OpenIn(db, done);
    if db.IsOpen(sid) { OrderAppend(ended, OpenIn(db, done), sid); }
    EndSessionsGrows(db.sessions, done, sid, status);
  }

  lemma EndSessionsGrows(sessions: map<Sid, Session>, done: set<Sid>, sid: Sid, status: Status)
    requires sid !in done
    ensures EndSessions(sessions, done + {sid}, status) ==
      if sid in sessions && sessions[sid].status.Active? then EndSessions(sessions, done, status)[sid := sessions[sid].(status := status)]
      else EndSessions(sessions, done, status)
  {
  }
}
