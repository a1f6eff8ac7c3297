/** Logins, refreshes, logouts, revocations and validations racing over the session store. Only the
    Lua scripts are atomic; every other store access is a step of its own, may fail with or without
    effect, and everybody else may run in between. The refresh lock is taken to be exclusive. */
module SsoProtocol {
  import opened SsoStore

  datatype Outcome = Success | FailedApplied | FailedClean {
    predicate Applied() { !FailedClean? }
  }

  datatype RefreshPhase =
    | Begin
    | Lapse                                       // mark an expired token: read, then write back the copy
    | LapseWrite(copy: Token)
    | CheckSession(rt: Token)
    | TakeLock(rt: Token)
    | Recheck(rt: Token)
    | Replay(rt: Token, holds: bool)              // a used token came again: revoke its session
    | Mark(rt: Token)                             // mark the old token rotated: read, then write back
    | MarkWrite(rt: Token, copy: Token)
    | Save(rt: Token)
    | Touch(rt: Token, next: Tok)                // extend the session: read, then write back the copy
    | TouchWrite(rt: Token, next: Tok, seen: Session)
    | Release(result: Option<Tok>)
    | Refreshed(result: Option<Tok>)

  datatype LogoutPhase =
    | ByAccess
    | ReadToken
    | Withdraw(rt: Token)
    | WithdrawWrite(rt: Token, copy: Token)
    | ByToken(rt: Token)
    | Left

  datatype Refusal = SessionReplaced | SessionNotFound | SessionLoggedOut | SessionRevoked | SessionExpired | Unavailable

  datatype CheckPhase =
    | Probe                                       // the introspection cache
    | CachedRead
    | CurrentRead
    | SessionRead
    | CacheWrite
    | Passed
    | Denied(why: Refusal)

  datatype Proc =
    | Refresh(tok: Tok, at: nat, sessionTtl: nat, refreshTtl: nat, refreshing: RefreshPhase)
    | Logout(access: Option<(User, Sid)>, refresh: Option<Tok>, leaving: LogoutPhase)
    | Check(user: User, sid: Sid, cached: bool, checking: CheckPhase)

  type Births = map<Tok, (Sid, Option<Tok>)>

  /** retired, tip and born are histories: ids that stopped being current, the last token created in a
      session, and for every token its session and the token it was rotated from. */
  datatype State = State(
    now: nat, db: Db, locks: map<Tok, nat>, probes: set<(User, Sid)>, procs: seq<Proc>,
    nextSid: Sid, nextTok: Tok, retired: set<Sid>, tip: map<Sid, Tok>, born: Births)

  const INIT := State(0, Db(map[], map[], map[], map[], map[], []), map[], {}, [], 0, 0, {}, map[], map[])

  datatype Action =
    | Tick
    | Login(user: User, reject: bool, order: seq<Sid>, sessionTtl: nat, refreshTtl: nat)
    | RevokeAll(user: User, reason: Reason, order: seq<Sid>)
    | Spawn(proc: Proc)
    | Go(p: nat, o: Outcome)
    | Die(p: nat)
    | ExpireSession(sid: Sid)
    | ExpireToken(tok: Tok)
    | ExpireFamily(sid: Sid)
    | ExpireIndex(user: User)
    | ExpireCurrent(user: User)
    | ExpireProbe(probe: (User, Sid))

  // ---------- the steps ----------

  /** The session ids that are current before and not any more after. */
  function Retiring(before: map<User, Sid>, after: map<User, Sid>): set<Sid> {
    set u | u in before && (u !in after || after[u] != before[u]) :: before[u]
  }

  function WithDb(s: State, db: Db): State {
    s.(db := db, retired := s.retired + Retiring(s.db.current, db.current))
  }

  function SetProc(s: State, p: nat, proc: Proc): State
    requires p < |s.procs|
  {
    s.(procs := s.procs[p := proc])
  }

  function ToRefresh(s: State, p: nat, phase: RefreshPhase): State
    requires p < |s.procs| && s.procs[p].Refresh?
  {
    SetProc(s, p, s.procs[p].(refreshing := phase))
  }

  function ToLogout(s: State, p: nat, phase: LogoutPhase): State
    requires p < |s.procs| && s.procs[p].Logout?
  {
    SetProc(s, p, s.procs[p].(leaving := phase))
  }

  function ToCheck(s: State, p: nat, phase: CheckPhase): State
    requires p < |s.procs| && s.procs[p].Check?
  {
    SetProc(s, p, s.procs[p].(checking := phase))
  }

  function WriteToken(s: State, tok: Tok, token: Token, o: Outcome): State {
    if o.Applied() then s.(db := s.db.(tokens := s.db.tokens[tok := token])) else s
  }

  function WriteSession(s: State, sid: Sid, session: Session, o: Outcome): State {
    if o.Applied() then s.(db := s.db.(sessions := s.db.sessions[sid := session])) else s
  }

  function Revoke(s: State, user: User, sid: Sid, status: Status, reason: Reason, o: Outcome): State {
    if o.Applied() then WithDb(s, RevokeSession(s.db, user, sid, status, reason)) else s
  }

  function NewToken(rt: Token, at: nat, ttl: nat, from: Tok): Token {
    Token(rt.sid, rt.user, Usable, at + ttl, Some(from))
  }

  /** SaveRefreshToken; the new hash is taken whether or not the write gets through. */
  function SaveToken(s: State, tok: Tok, rt: Token, at: nat, ttl: nat, o: Outcome): State {
    var next := s.nextTok;
    var token := NewToken(rt, at, ttl, tok);
    if o.Applied() then
      s.(nextTok := next + 1, tip := s.tip[rt.sid := next], born := s.born[next := (rt.sid, Some(tok))],
         db := s.db.(tokens := s.db.tokens[next := token], family := s.db.family[rt.sid := s.db.FamilyOf(rt.sid) + {next}]))
    else s.(nextTok := next + 1)
  }

  /** Where a refresh goes next, from what it reads now. */
  function RefreshNext(s: State, p: nat, o: Outcome): RefreshPhase
    requires p < |s.procs| && s.procs[p].Refresh?
  {
    var r := s.procs[p];
    var found := o.Success? && r.tok in s.db.tokens;
    match r.refreshing
    case Begin =>
      if !found then Refreshed(None)
      else
        var rt := s.db.tokens[r.tok];
        if rt.status.Rotated? then Replay(rt, false)
        else if !rt.status.Usable? then Refreshed(None)
        else if rt.expiresAt <= r.at then Lapse
        else CheckSession(rt)
    case Lapse => if !found || s.db.tokens[r.tok].status.Lapsed? then Refreshed(None) else LapseWrite(s.db.tokens[r.tok])
    case LapseWrite(_) => Refreshed(None)
    case CheckSession(rt) =>
      if o.Success? && rt.sid in s.db.sessions && s.db.sessions[rt.sid].IsActive(r.at) then TakeLock(rt) else Refreshed(None)
    case TakeLock(rt) => if o.Success? && r.tok !in s.locks then Recheck(rt) else Refreshed(None)
    case Recheck(rt) =>
      if !found then Release(None)
      else if s.db.tokens[r.tok].status.Rotated? then Replay(s.db.tokens[r.tok], true)
      else if !s.db.tokens[r.tok].status.Usable? then Release(None)
      else Mark(rt)
    case Replay(_, holds) => if holds then Release(None) else Refreshed(None)
    case Mark(rt) =>
      if !found then Release(None)
      else if s.db.tokens[r.tok].status.Rotated? then Save(rt)
      else MarkWrite(rt, s.db.tokens[r.tok])
    case MarkWrite(rt, _) => if o.Success? then Save(rt) else Release(None)
    case Save(rt) => if o.Success? then Touch(rt, s.nextTok) else Release(None)
    case Touch(rt, next) =>
      if o.Success? && rt.sid in s.db.sessions && r.at + r.sessionTtl > s.now then TouchWrite(rt, next, s.db.sessions[rt.sid])
      else Release(None)
    case TouchWrite(_, next, _) => Release(if o.Success? then Some(next) else None)
    case Release(result) => Refreshed(result)
    case Refreshed(result) => Refreshed(result)
  }

  /** What a refresh does to what it shares with others. */
  function RefreshShared(s: State, p: nat, o: Outcome): State
    requires p < |s.procs| && s.procs[p].Refresh?
  {
    var r := s.procs[p];
    match r.refreshing
    case LapseWrite(copy) => WriteToken(s, r.tok, copy.(status := Lapsed), o)
    case TakeLock(_) => if o.Success? && r.tok !in s.locks then s.(locks := s.locks[r.tok := p]) else s
    case Replay(rt, _) => Revoke(s, rt.user, rt.sid, Revoked, RefreshReplay, o)
    case MarkWrite(_, copy) => WriteToken(s, r.tok, copy.(status := Rotated), o)
    case Save(rt) => SaveToken(s, r.tok, rt, r.at, r.refreshTtl, o)
    case TouchWrite(rt, _, seen) => WriteSession(s, rt.sid, seen.(expiresAt := r.at + r.sessionTtl), o)
    case Release(_) => s.(locks := if o.Applied() && r.tok in s.locks && s.locks[r.tok] == p then s.locks - {r.tok} else s.locks)
    case _ => s
  }

  function RefreshOp(s: State, p: nat, o: Outcome): State
    requires p < |s.procs| && s.procs[p].Refresh?
  {
    var shared := RefreshShared(s, p, o);
    shared.(procs := s.procs[p := s.procs[p].(refreshing := RefreshNext(s, p, o))])
  }

  function LogoutOp(s: State, p: nat, o: Outcome): State
    requires p < |s.procs| && s.procs[p].Logout?
  {
    var l := s.procs[p];
    match l.leaving
    case ByAccess =>
      ToLogout(if l.access.Some? then Revoke(s, l.access.value.0, l.access.value.1, LoggedOut, LoggedOutReason, o) else s, p, ReadToken)
    case ReadToken =>
      ToLogout(s, p,
        if l.refresh.Some? && o.Success? && l.refresh.value in s.db.tokens && s.db.tokens[l.refresh.value].status.Usable?
        then Withdraw(s.db.tokens[l.refresh.value]) else Left)
    case Withdraw(rt) =>
      ToLogout(s, p,
        if l.refresh.Some? && o.Success? && l.refresh.value in s.db.tokens && !s.db.tokens[l.refresh.value].status.Withdrawn?
        then WithdrawWrite(rt, s.db.tokens[l.refresh.value])
        else if l.access.None? then ByToken(rt) else Left)
    case WithdrawWrite(rt, copy) =>
      ToLogout(if l.refresh.Some? then WriteToken(s, l.refresh.value, copy.(status := Withdrawn), o) else s, p,
               if l.access.None? then ByToken(rt) else Left)
    case ByToken(rt) => ToLogout(Revoke(s, rt.user, rt.sid, LoggedOut, LoggedOutReason, o), p, Left)
    case Left => s
  }

  function RefusalOf(status: Status): Refusal {
    match status
    case Replaced => SessionReplaced
    case LoggedOut => SessionLoggedOut
    case Revoked => SessionRevoked
    case Active => SessionExpired
  }

  /** Where a check goes next, from what it reads now. */
  function CheckNext(s: State, c: Proc, o: Outcome): CheckPhase
    requires c.Check?
  {
    var isCurrent := c.user in s.db.current && s.db.current[c.user] == c.sid;
    match c.checking
    case Probe => if o.Success? && (c.user, c.sid) in s.probes then CachedRead else CurrentRead
    case CachedRead => if o.Success? && isCurrent then Passed else CurrentRead
    case CurrentRead => if !o.Success? then Denied(Unavailable) else if !isCurrent then Denied(SessionReplaced) else SessionRead
    case SessionRead =>
      if !o.Success? then Denied(Unavailable)
      else if c.sid !in s.db.sessions then Denied(SessionNotFound)
      else if !s.db.sessions[c.sid].IsActive(s.now) then Denied(RefusalOf(s.db.sessions[c.sid].status))
      else if c.cached then CacheWrite
      else Passed
    case CacheWrite => Passed
    case Passed => Passed
    case Denied(why) => Denied(why)
  }

  function CheckOp(s: State, p: nat, o: Outcome): State
    requires p < |s.procs| && s.procs[p].Check?
  {
    var c := s.procs[p];
    var probes := if c.checking.CacheWrite? && o.Applied() then s.probes + {(c.user, c.sid)} else s.probes;
    ToCheck(s.(probes := probes), p, CheckNext(s, c, o))
  }

  function StepLogin(s: State, user: User, reject: bool, order: seq<Sid>, sessionTtl: nat, refreshTtl: nat): State {
    if (reject && RejectsLogin(s.db, user)) || !IsOrderOf(order, OpenIn(s.db, s.db.IndexOf(user))) then s
    else
      var sid, tok := s.nextSid, s.nextTok;
      var db := ReplaceLogin(s.db, user, sid, Session(user, Active, s.now + sessionTtl),
                             tok, Token(sid, user, Usable, s.now + refreshTtl, None), order);
      WithDb(s, db).(nextSid := sid + 1, nextTok := tok + 1, tip := s.tip[sid := tok], born := s.born[tok := (sid, None)])
  }

  function StepRevokeAll(s: State, user: User, reason: Reason, order: seq<Sid>): State {
    if IsOrderOf(order, OpenIn(s.db, s.db.IndexOf(user))) then WithDb(s, RevokeUser(s.db, user, reason, order)) else s
  }

  /** A request arrives: with a refresh token, with tokens to log out, or with an access token to check. */
  function StepSpawn(s: State, proc: Proc): State {
    var starts := match proc
      case Refresh(_, at, _, _, phase) => at == s.now && phase.Begin?
      case Logout(_, _, phase) => phase.ByAccess?
      case Check(_, _, cached, phase) => if cached then phase.Probe? else phase.CurrentRead?;
    if starts then s.(procs := s.procs + [proc]) else s
  }

  function StepGo(s: State, p: nat, o: Outcome): State {
    if p < |s.procs| then
      match s.procs[p]
      case Refresh(_, _, _, _, _) => RefreshOp(s, p, o)
      case Logout(_, _, _) => LogoutOp(s, p, o)
      case Check(_, _, _, _) => CheckOp(s, p, o)
    else s
  }

  /** The request's process dies; a lock it held stays. */
  function StepDie(s: State, p: nat): State {
    if p < |s.procs| then
      match s.procs[p]
      case Refresh(_, _, _, _, _) => ToRefresh(s, p, Refreshed(None))
      case Logout(_, _, _) => ToLogout(s, p, Left)
      case Check(_, _, _, phase) => if phase.Passed? then s else ToCheck(s, p, Denied(Unavailable))
    else s
  }

  function Step(s: State, a: Action): State {
    match a
    case Tick => s.(now := s.now + 1)
    case Login(user, reject, order, sessionTtl, refreshTtl) => StepLogin(s, user, reject, order, sessionTtl, refreshTtl)
    case RevokeAll(user, reason, order) => StepRevokeAll(s, user, reason, order)
    case Spawn(proc) => StepSpawn(s, proc)
    case Go(p, o) => StepGo(s, p, o)
    case Die(p) => StepDie(s, p)
    case ExpireSession(sid) => s.(db := s.db.(sessions := s.db.sessions - {sid}))
    case ExpireToken(tok) => s.(db := s.db.(tokens := s.db.tokens - {tok}))
    case ExpireFamily(sid) => s.(db := s.db.(family := s.db.family - {sid}))
    case ExpireIndex(user) => s.(db := s.db.(index := s.db.index - {user}))
    case ExpireCurrent(user) => WithDb(s, s.db.(current := s.db.current - {user}))
    case ExpireProbe(probe) => s.(probes := s.probes - {probe})
  }

  // ---------- the invariant ----------

  /** An id that stopped being current is not current for anyone; an id is current for one user at most. */
  ghost predicate CurrentOk(current: map<User, Sid>, retired: set<Sid>, nextSid: Sid) {
    && (forall u :: u in current ==> current[u] < nextSid && current[u] !in retired)
    && (forall u, v :: u in current && v in current && current[u] == current[v] ==> u == v)
    && (forall sid :: sid in retired ==> sid < nextSid)
  }

  /** The families, with every token ever created: each was rotated from one of its own session that is
      no longer the tip, and none was rotated twice. */
  ghost predicate BornOk(born: Births, tip: map<Sid, Tok>, nextSid: Sid, nextTok: Tok) {
    && (forall t :: t in born ==> t < nextTok && born[t].0 < nextSid && born[t].0 in tip)
    && (forall sid :: sid in tip ==> tip[sid] in born && born[tip[sid]].0 == sid)
    && (forall t :: t in born && born[t].1.Some? ==> Before(born, tip, born[t].1.value, born[t].0))
    && (forall t, u :: t in born && u in born && born[t].1.Some? && born[t].1 == born[u].1 ==> t == u)
  }

  predicate Before(born: Births, tip: map<Sid, Tok>, t: Tok, sid: Sid) {
    t in born && born[t].0 == sid && (sid in tip ==> tip[sid] != t)
  }

  predicate IsTip(s: State, sid: Sid, t: Tok) {
    sid in s.tip && s.tip[sid] == t
  }

  predicate IsUsable(s: State, t: Tok) {
    t in s.db.tokens && s.db.tokens[t].status.Usable?
  }

  /** A token record, stored or copied, tells the truth about its family. */
  ghost predicate Truthful(s: State, t: Tok, token: Token) {
    t in s.born && token.sid == s.born[t].0 && token.rotatedFrom == s.born[t].1
  }

  ghost predicate TokenOk(s: State, t: Tok) {
    && t in s.db.tokens && Truthful(s, t, s.db.tokens[t])
    && (s.db.tokens[t].status.Usable? ==> IsTip(s, s.db.tokens[t].sid, t))
  }

  function Targets(events: seq<Event>): set<Sid> {
    set e | e in events :: e.target
  }

  /** No session has ended without an event. */
  ghost predicate SessionOk(s: State, sid: Sid, session: Session) {
    session.status.Active? || sid in Targets(s.db.events)
  }

  predicate Holding(phase: RefreshPhase) {
    match phase
    case Recheck(_) => true
    case Replay(_, holds) => holds
    case Mark(_) => true
    case MarkWrite(_, _) => true
    case Save(_) => true
    case Touch(_, _) => true
    case TouchWrite(_, _, _) => true
    case Release(_) => true
    case _ => false
  }

  /** Between the recheck and the new token's save. */
  predicate Rotating(phase: RefreshPhase) {
    phase.Mark? || phase.MarkWrite? || phase.Save?
  }

  ghost predicate RefreshOk(s: State, p: nat, r: Proc)
    requires r.Refresh?
  {
    && (Holding(r.refreshing) ==> r.tok in s.locks && s.locks[r.tok] == p)
    && (match r.refreshing
        case CheckSession(rt) => Truthful(s, r.tok, rt)
        case TakeLock(rt) => Truthful(s, r.tok, rt)
        case Recheck(rt) => Truthful(s, r.tok, rt)
        case LapseWrite(copy) => Truthful(s, r.tok, copy)
        case Mark(rt) => Truthful(s, r.tok, rt) && IsTip(s, rt.sid, r.tok)
        case MarkWrite(rt, copy) => Truthful(s, r.tok, rt) && Truthful(s, r.tok, copy) && IsTip(s, rt.sid, r.tok)
        case Save(rt) => Truthful(s, r.tok, rt) && IsTip(s, rt.sid, r.tok) && !IsUsable(s, r.tok)
        case TouchWrite(rt, _, seen) => rt.sid < s.nextSid && SessionOk(s, rt.sid, seen)
        case _ => true)
  }

  ghost predicate ProcOk(s: State, p: nat) {
    && p < |s.procs|
    && (match s.procs[p]
        case Refresh(_, _, _, _, _) => RefreshOk(s, p, s.procs[p])
        case Logout(_, refresh, phase) => phase.WithdrawWrite? && refresh.Some? ==> Truthful(s, refresh.value, phase.copy)
        case Check(_, _, _, _) => true)
  }

  ghost predicate Inv(s: State) {
    && CurrentOk(s.db.current, s.retired, s.nextSid)
    && BornOk(s.born, s.tip, s.nextSid, s.nextTok)
    && (forall t {:trigger TokenOk(s, t)} {:trigger s.db.tokens[t]} :: t in s.db.tokens ==> TokenOk(s, t))
    && (forall sid :: sid in s.db.sessions ==> sid < s.nextSid && SessionOk(s, sid, s.db.sessions[sid]))
    && (forall p: nat {:trigger ProcOk(s, p)} {:trigger s.procs[p]} :: p < |s.procs| ==> ProcOk(s, p))
  }

  // ---------- whole runs ----------

  /** The state after any sequence of steps from the start. */
  ghost function Exec(run: seq<Action>): State {
    if run == [] then INIT else Step(Exec(run[..|run| - 1]), run[|run| - 1])
  }
}
