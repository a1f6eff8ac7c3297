/** The service's request handlers as they are written, one store access after another; between any
    two of them everybody else runs: `schedule` is what they do in each pause. */
module SsoRequests {
  import opened SsoStore
  import opened SsoProtocol
  import opened SsoStoreSteps
  import opened SsoRequestSteps
  import opened SsoTheorems
  import opened SsoCalls

  class Service {
    var s: State
    ghost var run: seq<Action>
    const schedule: nat -> seq<Action>
    var pauses: nat

    constructor (schedule: nat -> seq<Action>)
      ensures Ok() && s == INIT && this.schedule == schedule
    {
      s, run, pauses := INIT, [], 0;
      this.schedule := schedule;
      new;
      StartsEmpty();
    }

    ghost predicate Ok()
      reads this
    {
      s == Exec(run)
    }

    ghost predicate Leaves(p: nat) {
      forall n, a :: a in schedule(n) ==> !Mine(a, p)
    }

    method Do(a: Action)
      requires Ok()
      modifies this
      ensures Ok() && s == Step(old(s), a) && run == old(run) + [a]
    {
      hide Step, Exec, Inv;
      ExecStep(run, a);
      s := Step(s, a);
      run := run + [a];
    }

    /** The others run while request p waits. */
    method Wait(p: nat)
      requires Ok() && p < |s.procs| && Leaves(p)
      modifies this
      ensures Ok() && Kept(old(s), s, p) && CallsAre(old(run), run, p, [])
    {
      hide Step, Exec, Inv, Kept;
      var todo := schedule(pauses);
      pauses := pauses + 1;
      OthersKeep(run, todo, p);
      ghost var end := After(s, todo);
      ghost var others := todo;
      while todo != []
        invariant Ok() && After(s, todo) == end && old(run) <= run && run + todo == old(run) + others
        decreases |todo|
      {
        Do(todo[0]);
        todo := todo[1..];
      }
      assert run + todo == run;
      assert forall k :: |old(run)| <= k < |run| ==> run[k] == others[k - |old(run)|];
    }

    method AnyOutcome() returns (o: Outcome)
    {
      if * { o := Success; } else if * { o := FailedApplied; } else { o := FailedClean; }
    }

    /** One store call of request p, after a pause: its outcome, and the store it found. */
    method Call(p: nat) returns (o: Outcome, found: State, ghost k: nat)
      requires Ok() && p < |s.procs| && Leaves(p)
      modifies this
      ensures Ok() && Kept(old(s), found, p) && s == Step(found, Go(p, o))
      ensures CallsAre(old(run), run, p, [k]) && |run| == k + 1 && run[k] == Go(p, o)
      ensures Found(run, k) == found && Found(run, k + 1) == s && Inv(found)
      ensures forall j: nat :: j <= |old(run)| ==> Found(run, j) == Found(old(run), j)
      ensures forall j: nat :: j < |old(run)| ==> Answered(run, j) == Answered(old(run), j) && TookEffect(run, j) == TookEffect(old(run), j)
    {
      hide Step, Exec, Inv, Kept, CallsAre;
      Wait(p);
      o := AnyOutcome();
      found := s;
      k := |run|;
      ghost var waited := run;
      Reachable(run);
      OneCall(run, p, o);
      CallFinds(run, Go(p, o));
      Do(Go(p, o));
      ThenCalls(old(run), waited, run, p, [], [k]);
      Earlier(old(run), run);
      assert [] + [k] == [k];
    }

    /** A request arrives. */
    method Start(proc: Proc)
      requires Ok()
      modifies this
      ensures Ok() && s == Step(old(s), Spawn(proc)) && forall p :: CallsAre(old(run), run, p, [])
    {
      hide Step, Exec, Inv;
      Do(Spawn(proc));
    }

    // ---------- validating an access token ----------

    ghost predicate Checking(p: nat, user: User, sid: Sid, cached: bool, phase: CheckPhase)
      reads this
    {
      p < |s.procs| && s.procs[p] == Check(user, sid, cached, phase)
    }

    /** Current session first, then the record: it passes if and only if both reads answer, the first names
        this session and the second finds it active and unexpired; otherwise the refusal says what was found.
        An id that is out of office at the start is refused. */
    method ValidateAccessToken(user: User, sid: Sid) returns (p: nat, refused: Option<Refusal>, ghost calls: seq<nat>)
      requires Ok() && Leaves(|s.procs|)
      modifies this
      ensures Ok() && Checking(p, user, sid, false, if refused.None? then Passed else Denied(refused.value))
      ensures CallsAre(old(run), run, p, calls) && Validated(run, calls, user, sid, refused)
      ensures Out(old(s), user, sid) ==> refused.Some?
    {
      hide Step, Exec, Inv, Out, CallsAre, Validated;
      p := |s.procs|;
      ghost var before := run;
      SpawnDoes(s, Check(user, sid, false, CurrentRead));
      NotYetSeen(s, p);
      Start(Check(user, sid, false, CurrentRead));
      ghost var spawned := run;
      refused, calls := VerifySession(p, user, sid, false);
      ThenCalls(before, spawned, run, p, [], calls);
      assert [] + calls == calls;
      if refused.None? && Out(old(s), user, sid) {
        Since(before, run, p, calls);
        OnlyTheCurrentIdPasses(before, run[|before|..], user, sid, p);
        assert false;
      }
    }

    method VerifySession(p: nat, user: User, sid: Sid, cached: bool) returns (refused: Option<Refusal>, ghost calls: seq<nat>)
      requires Ok() && Leaves(p) && Checking(p, user, sid, cached, CurrentRead)
      modifies this
      ensures Ok() && CallsAre(old(run), run, p, calls) && Validated(run, calls, user, sid, refused)
      ensures Checking(p, user, sid, cached,
        if refused.Some? then Denied(refused.value) else if cached then CacheWrite else Passed)
    {
      hide Step, Exec, Inv, CallsAre;
      var o, found, k := Call(p);
      calls := [k];
      var current := if user in found.db.current then Some(found.db.current[user]) else None;
      CheckMoves(found, p, o);
      if !o.Success? {
        return Some(Unavailable), calls;
      }
      if current.None? || current.value != sid {
        return Some(SessionReplaced), calls;
      }
      ghost var looked := run;
      o, found, k := Call(p);
      ThenCalls(old(run), looked, run, p, calls, [k]);
      calls := calls + [k];
      var session := if sid in found.db.sessions then Some(found.db.sessions[sid]) else None;
      CheckMoves(found, p, o);
      if !o.Success? {
        return Some(Unavailable), calls;
      }
      if session.None? {
        return Some(SessionNotFound), calls;
      }
      if !session.value.IsActive(found.now) {
        return Some(RefusalOf(session.value.status)), calls;
      }
      return None, calls;
    }

    /** The cached answer counts only while the session is still the current one; otherwise the full way. */
    method Introspect(user: User, sid: Sid) returns (p: nat, refused: Option<Refusal>, ghost asked: seq<nat>, ghost calls: seq<nat>, ghost kept: seq<nat>)
      requires Ok() && Leaves(|s.procs|)
      modifies this
      ensures Ok() && Checking(p, user, sid, true, if refused.None? then Passed else Denied(refused.value))
      ensures CallsAre(old(run), run, p, asked + calls + kept) && Introspected(run, asked, calls, kept, user, sid, refused)
      ensures Out(old(s), user, sid) ==> refused.Some?
    {
      hide Step, Exec, Inv, Out, CallsAre, Introspected;
      p := |s.procs|;
      ghost var before := run;
      SpawnDoes(s, Check(user, sid, true, Probe));
      NotYetSeen(s, p);
      Start(Check(user, sid, true, Probe));
      ghost var spawned := run;
      refused, asked, calls, kept := CheckCached(p, user, sid);
      ThenCalls(before, spawned, run, p, [], asked + calls + kept);
      assert [] + (asked + calls + kept) == asked + calls + kept;
      if refused.None? && Out(old(s), user, sid) {
        Since(before, run, p, asked + calls + kept);
        OnlyTheCurrentIdPasses(before, run[|before|..], user, sid, p);
        assert false;
      }
    }

    method CheckCached(p: nat, user: User, sid: Sid)
      returns (refused: Option<Refusal>, ghost asked: seq<nat>, ghost calls: seq<nat>, ghost kept: seq<nat>)
      requires Ok() && Leaves(p) && Checking(p, user, sid, true, Probe)
      modifies this
      ensures Ok() && Checking(p, user, sid, true, if refused.None? then Passed else Denied(refused.value))
      ensures CallsAre(old(run), run, p, asked + calls + kept) && Introspected(run, asked, calls, kept, user, sid, refused)
    {
      hide Step, Exec, Inv, CallsAre, Verdict, Cached;
      calls, kept := [], [];
      var still;
      still, asked := ReadCache(p, user, sid);
      assert asked + calls + kept == asked;
      if still {
        return None, asked, calls, kept;
      }
      ghost var read := run;
      refused, calls := VerifySession(p, user, sid, true);
      ThenCalls(old(run), read, run, p, asked, calls);
      CachedStays(old(run), read, run, p, asked, user, sid, still);
      assert asked + calls + kept == asked + calls;
      if refused.Some? {
        return;
      }
      ghost var verified := run;
      var o, found, k := Call(p);
      CheckMoves(found, p, o);
      kept := [k];
      ThenCalls(old(run), verified, run, p, asked + calls, [k]);
      CachedStays(old(run), read, run, p, asked, user, sid, still);
      ValidatedStays(read, verified, run, p, calls, user, sid, refused);
      if o.Applied() { KeepsAnswer(found, p, o); }
    }

    method ReadCache(p: nat, user: User, sid: Sid) returns (still: bool, ghost calls: seq<nat>)
      requires Ok() && Leaves(p) && Checking(p, user, sid, true, Probe)
      modifies this
      ensures Ok() && CallsAre(old(run), run, p, calls) && Cached(run, calls, user, sid, still)
      ensures Checking(p, user, sid, true, if still then Passed else CurrentRead)
    {
      hide Step, Exec, Inv, CallsAre;
      var o, found, k := Call(p);
      calls := [k];
      CheckMoves(found, p, o);
      if !o.Success? || (user, sid) !in found.probes {
        return false, calls;
      }
      ghost var hit := run;
      o, found, k := Call(p);
      ThenCalls(old(run), hit, run, p, calls, [k]);
      calls := calls + [k];
      still := o.Success? && user in found.db.current && found.db.current[user] == sid;
      CheckMoves(found, p, o);
    }

    // ---------- refreshing ----------

    ghost predicate At(p: nat, r: Proc, phase: RefreshPhase)
      reads this
    {
      p < |s.procs| && r.Refresh? && s.procs[p] == r.(refreshing := phase)
    }

    /** Read, check the session, take the lock, look again, rotate; then release the lock. A token comes out
        if and only if every call was answered and found what it must; it was rotated from the one presented,
        in its session, and that one is spent for good. A used token, seen at the first look or under the
        lock, costs its session; an expired one is marked so. */
    method RefreshToken(tok: Tok, sessionTtl: nat, refreshTtl: nat)
      returns (p: nat, next: Option<Tok>, ghost calls: seq<nat>, ghost released: seq<nat>)
      requires Ok() && Leaves(|s.procs|)
      modifies this
      ensures Ok() && p < |s.procs| && s.procs[p].Refresh? && s.procs[p].refreshing == Refreshed(next)
      ensures CallsAre(old(run), run, p, calls + released) && |calls| > 0
      ensures next.Some? <==> Serves(run, calls, tok, old(s).now, sessionTtl)
      ensures next.Some? ==>
        && tok in Found(run, calls[0]).db.tokens
        && Rotates(run, calls, tok, Found(run, calls[0]).db.tokens[tok], next.value, old(s).now + sessionTtl, old(s).now + refreshTtl)
      ensures next.Some? ==>
        && tok in s.born && next.value in s.born && s.born[next.value] == (s.born[tok].0, Some(tok))
        && !IsUsable(s, tok)
      ensures Answered(run, calls[0]) && IsUsed(Found(run, calls[0]), tok) ==> |calls| == 2 && Caught(run, calls[0], calls[1], tok)
      ensures |calls| > 3 && Answered(run, calls[3]) && IsUsed(Found(run, calls[3]), tok) ==>
        |calls| == 5 && Caught(run, calls[3], calls[4], tok)
      ensures IsPast(run, calls[0], tok, old(s).now) ==> MarkedAs(run, calls[1..], tok, Lapsed)
      ensures |calls| > 3 ==> |released| == 1 && Freed(run, released[0], tok, p)
    {
      hide Step, Exec, Inv, RefreshNext, CallsAre, ServesOpen, Rotates, Caught, MarkedAs, Freed;
      p := |s.procs|;
      var at := s.now;
      ghost var r := Refresh(tok, at, sessionTtl, refreshTtl, Begin);
      SpawnDoes(s, r);
      Start(Refresh(tok, at, sessionTtl, refreshTtl, Begin));
      ghost var spawned := run;
      var rt;
      rt, calls := ReadToken(p, tok, at, r);
      ThenCalls(old(run), spawned, run, p, [], calls);
      assert [] + calls == calls;
      next, released := None, [];
      if rt.None? {
        assert calls + released == calls;
        return;
      }
      ghost var read, first := run, calls[0];
      assert calls == [first];
      ghost var more;
      next, more, released := RefreshFrom(p, tok, rt.value, r);
      calls := [first] + more;
      assert calls[1..] == more && calls + released == [first] + (more + released);
      ThenCalls(old(run), read, run, p, [first], more + released);
      if next.Some? { RotatesLater(run, [first], more, tok, rt.value, next.value, r.at + sessionTtl, r.at + refreshTtl); }
    }

    /** Steps 1 and 2: a used token revokes its session, an expired one is marked; only a usable one goes on. */
    method ReadToken(p: nat, tok: Tok, at: nat, ghost r: Proc) returns (rt: Option<Token>, ghost calls: seq<nat>)
      requires Ok() && Leaves(p) && At(p, r, Begin) && r.tok == tok && r.at == at
      modifies this
      ensures Ok() && At(p, r, if rt.Some? then CheckSession(rt.value) else Refreshed(None))
      ensures CallsAre(old(run), run, p, calls) && |calls| > 0
      ensures rt.Some? <==> Answered(run, calls[0]) && IsUnexpired(Found(run, calls[0]), tok, at)
      ensures |calls| <= 3 && (rt.Some? ==> |calls| == 1 && rt.value == Found(run, calls[0]).db.tokens[tok])
      ensures Answered(run, calls[0]) && IsUsed(Found(run, calls[0]), tok) ==> |calls| == 2 && Caught(run, calls[0], calls[1], tok)
      ensures IsPast(run, calls[0], tok, at) ==> MarkedAs(run, calls[1..], tok, Lapsed)
    {
      hide Step, Exec, Inv, CallsAre, Ended;
      var o, found, k := Call(p);
      calls := [k];
      RefreshMoves(found, p, o);
      ghost var read := run;
      if !o.Success? || tok !in found.db.tokens {
        return None, calls;
      }
      var token := found.db.tokens[tok];
      if token.status.Rotated? {
        ghost var next;
        next := RevokeReplayed(p, token, false, r);
        ThenCalls(old(run), read, run, p, calls, [next]);
        calls := calls + [next];
        return None, calls;
      }
      if !token.status.Usable? {
        return None, calls;
      }
      if token.expiresAt <= at {
        ghost var marks := MarkExpired(p, tok, r);
        ThenCalls(old(run), read, run, p, calls, marks);
        calls := calls + marks;
        assert calls[1..] == marks;
        return None, calls;
      }
      return Some(token), calls;
    }

    /** A used token came again: its session is revoked. */
    method RevokeReplayed(p: nat, rt: Token, holds: bool, ghost r: Proc) returns (ghost k: nat)
      requires Ok() && Leaves(p) && At(p, r, Replay(rt, holds))
      modifies this
      ensures Ok() && At(p, r, if holds then Release(None) else Refreshed(None))
      ensures CallsAre(old(run), run, p, [k])
      ensures EndedAt(run, k, rt.user, rt.sid, Revoked, RefreshReplay)
    {
      hide Step, Exec, Inv, CallsAre, Ended;
      var o, found;
      o, found, k := Call(p);
      RefreshMoves(found, p, o);
      if o.Applied() { ReplayEnds(found, p, o); }
    }

    method MarkExpired(p: nat, tok: Tok, ghost r: Proc) returns (ghost calls: seq<nat>)
      requires Ok() && Leaves(p) && At(p, r, Lapse) && r.tok == tok
      modifies this
      ensures Ok() && At(p, r, Refreshed(None))
      ensures CallsAre(old(run), run, p, calls) && MarkedAs(run, calls, tok, Lapsed)
    {
      hide Step, Exec, Inv, CallsAre;
      var o, found, k := Call(p);
      calls := [k];
      RefreshMoves(found, p, o);
      LapseReads(found, p, o);
      if !o.Success? || tok !in found.db.tokens || found.db.tokens[tok].status.Lapsed? {
        return;
      }
      ghost var read := run;
      o, found, k := Call(p);
      ThenCalls(old(run), read, run, p, calls, [k]);
      calls := calls + [k];
      RefreshMoves(found, p, o);
      if o.Applied() { LapseWrites(found, p, o); }
    }

    /** Steps 3 to 7: the session, the lock, the rotation under it, and the release whatever came of it. */
    method RefreshFrom(p: nat, tok: Tok, rt: Token, ghost r: Proc)
      returns (next: Option<Tok>, ghost calls: seq<nat>, ghost released: seq<nat>)
      requires Ok() && Leaves(p) && At(p, r, CheckSession(rt)) && r.tok == tok
      modifies this
      ensures Ok() && At(p, r, Refreshed(next))
      ensures CallsAre(old(run), run, p, calls + released) && |calls| > 0
      ensures next.Some? <==> ServesOpen(run, calls, tok, rt.sid, r.at, r.at + r.sessionTtl)
      ensures next.Some? ==> Rotates(run, calls, tok, rt, next.value, r.at + r.sessionTtl, r.at + r.refreshTtl)
      ensures next.Some? ==>
        && tok in s.born && next.value in s.born && s.born[next.value] == (s.born[tok].0, Some(tok))
        && !IsUsable(s, tok)
      ensures |calls| > 2 && Answered(run, calls[2]) && IsUsed(Found(run, calls[2]), tok) ==>
        |calls| == 4 && Caught(run, calls[2], calls[3], tok)
      ensures |calls| > 2 ==> |released| == 1 && Freed(run, released[0], tok, p)
    {
      hide Step, Exec, Inv, RefreshNext, CallsAre, ServesLocked, Rotates, Caught, Freed;
      next, released := None, [];
      var open, k := ReadSession(p, s.procs[p].at, rt, r);
      calls := [k];
      ghost var before := run;
      if !open {
        assert calls + released == calls;
        return;
      }
      var got, k' := AcquireLock(p, tok, rt, r);
      ThenCalls(old(run), before, run, p, calls, [k']);
      calls := calls + [k'];
      before := run;
      if !got {
        assert calls + released == calls;
        return;
      }
      ghost var locked, last;
      next, locked, last := RotateAndRelease(p, tok, rt, r);
      ThenCalls(old(run), before, run, p, calls, locked + [last]);
      OpenServesIff(run, k, k', locked, tok, rt.sid, r.at, r.at + r.sessionTtl);
      if next.Some? { RotatesLater(run, calls, locked, tok, rt, next.value, r.at + r.sessionTtl, r.at + r.refreshTtl); }
      assert calls + locked + [last] == calls + (locked + [last]) && [k, k'] == calls;
      calls, released := calls + locked, [last];
    }

    method ReadSession(p: nat, at: nat, rt: Token, ghost r: Proc) returns (open: bool, ghost k: nat)
      requires Ok() && Leaves(p) && At(p, r, CheckSession(rt)) && r.at == at
      modifies this
      ensures Ok() && At(p, r, if open then TakeLock(rt) else Refreshed(None))
      ensures CallsAre(old(run), run, p, [k])
      ensures open <==> Answered(run, k) && IsOpenAt(Found(run, k), rt.sid, at)
    {
      hide Step, Exec, Inv, CallsAre;
      var o, found;
      o, found, k := Call(p);
      open := o.Success? && rt.sid in found.db.sessions && found.db.sessions[rt.sid].IsActive(at);
      RefreshMoves(found, p, o);
    }

    /** SET NX; the lock is taken to be exclusive. */
    method AcquireLock(p: nat, tok: Tok, rt: Token, ghost r: Proc) returns (got: bool, ghost k: nat)
      requires Ok() && Leaves(p) && At(p, r, TakeLock(rt)) && r.tok == tok
      modifies this
      ensures Ok() && At(p, r, if got then Recheck(rt) else Refreshed(None))
      ensures CallsAre(old(run), run, p, [k])
      ensures got <==> Answered(run, k) && tok !in Found(run, k).locks
    {
      hide Step, Exec, Inv, CallsAre;
      var o, found;
      o, found, k := Call(p);
      got := o.Success? && tok !in found.locks;
      RefreshMoves(found, p, o);
    }

    method RotateAndRelease(p: nat, tok: Tok, rt: Token, ghost r: Proc) returns (next: Option<Tok>, ghost calls: seq<nat>, ghost k: nat)
      requires Ok() && Leaves(p) && At(p, r, Recheck(rt)) && r.tok == tok
      modifies this
      ensures Ok() && At(p, r, Refreshed(next))
      ensures CallsAre(old(run), run, p, calls + [k]) && |calls| > 0
      ensures next.Some? <==> ServesLocked(run, calls, tok, rt.sid, r.at + r.sessionTtl)
      ensures next.Some? ==> Rotates(run, calls, tok, rt, next.value, r.at + r.sessionTtl, r.at + r.refreshTtl)
      ensures next.Some? ==>
        && tok in s.born && next.value in s.born && s.born[next.value] == (s.born[tok].0, Some(tok))
        && !IsUsable(s, tok)
      ensures Answered(run, calls[0]) && IsUsed(Found(run, calls[0]), tok) ==> |calls| == 2 && Caught(run, calls[0], calls[1], tok)
      ensures Freed(run, k, tok, p)
    {
      hide Step, Exec, Inv, RefreshNext, CallsAre, ServesLocked, Rotates, Caught, IsUsable;
      next, calls := RotateLocked(p, tok, rt, r);
      ghost var before := run;
      var o, found;
      o, found, k := Call(p);
      ReleaseNext(found, p, o, next);
      RefreshMoves(found, p, o);
      if o.Applied() { ReleaseFrees(found, p, o); }
      ThenCalls(old(run), before, run, p, calls, [k]);
      FoundStays(old(run), before, run, p, calls);
      ServesLockedStays(old(run), before, run, p, calls, tok, rt.sid, r.at + r.sessionTtl);
      if |calls| == 2 && Caught(before, calls[0], calls[1], tok) {
        assert calls == [calls[0], calls[1]];
        CaughtStays(old(run), before, run, p, calls[0], calls[1], tok);
      }
      if next.Some? {
        RotatesStays(old(run), before, run, p, calls, tok, rt, next.value, r.at + r.sessionTtl, r.at + r.refreshTtl);
        Since(before, run, p, [k]);
        SpentStaysSpent(before, run[|before|..], tok);
        BornForever(before, run[|before|..], tok);
        BornForever(before, run[|before|..], next.value);
      }
    }

    /** Step 6, under the lock: look again; a token used meanwhile costs its session, a usable one is rotated. */
    method RotateLocked(p: nat, tok: Tok, rt: Token, ghost r: Proc) returns (next: Option<Tok>, ghost calls: seq<nat>)
      requires Ok() && Leaves(p) && At(p, r, Recheck(rt)) && r.tok == tok
      modifies this
      ensures Ok() && At(p, r, Release(next))
      ensures CallsAre(old(run), run, p, calls) && |calls| > 0
      ensures next.Some? <==> ServesLocked(run, calls, tok, rt.sid, r.at + r.sessionTtl)
      ensures next.Some? ==> Rotates(run, calls, tok, rt, next.value, r.at + r.sessionTtl, r.at + r.refreshTtl)
      ensures next.Some? ==>
        && tok in s.born && next.value in s.born && s.born[next.value] == (s.born[tok].0, Some(tok))
        && !IsUsable(s, tok)
      ensures Answered(run, calls[0]) && IsUsed(Found(run, calls[0]), tok) ==> |calls| == 2 && Caught(run, calls[0], calls[1], tok)
    {
      hide Step, Exec, Inv, CallsAre, Ended, Rotates, RotatesRest;
      next := None;
      var o, found, k := Call(p);
      calls := [k];
      RefreshMoves(found, p, o);
      ghost var read := run;
      if !o.Success? || tok !in found.db.tokens {
        return;
      }
      if found.db.tokens[tok].status.Rotated? {
        ghost var last := RevokeReplayed(p, found.db.tokens[tok], true, r);
        ThenCalls(old(run), read, run, p, calls, [last]);
        calls := calls + [last];
        return;
      }
      if !found.db.tokens[tok].status.Usable? {
        return;
      }
      ghost var more;
      next, more := RotateRefreshToken(p, tok, rt, r);
      ThenCalls(old(run), read, run, p, calls, more);
      LockedServesIff(run, k, more, tok, rt.sid, r.at + r.sessionTtl);
      if next.Some? { RotatesLater(run, calls, more, tok, rt, next.value, r.at + r.sessionTtl, r.at + r.refreshTtl); }
      calls := calls + more;
    }

    /** Step 7: mark the old token, save the new one, touch the session; the first failure ends it. */
    method RotateRefreshToken(p: nat, tok: Tok, rt: Token, ghost r: Proc) returns (next: Option<Tok>, ghost calls: seq<nat>)
      requires Ok() && Leaves(p) && At(p, r, Mark(rt)) && r.tok == tok
      modifies this
      ensures Ok() && At(p, r, Release(next))
      ensures CallsAre(old(run), run, p, calls) && |calls| > 0
      ensures next.Some? <==> RotatesRest(run, calls, tok, rt.sid, r.at + r.sessionTtl)
      ensures next.Some? ==> Rotates(run, calls, tok, rt, next.value, r.at + r.sessionTtl, r.at + r.refreshTtl)
      ensures next.Some? ==>
        && tok in s.born && next.value in s.born && s.born[next.value] == (s.born[tok].0, Some(tok))
        && !IsUsable(s, tok)
    {
      hide Step, Exec, Inv, CallsAre, SavedAndTouched, RotatesRest, Saves;
      var marked;
      marked, calls := MarkRotated(p, tok, rt, r);
      if !marked {
        UnmarkedServesNot(run, calls, tok, rt.sid, r.at + r.sessionTtl);
        return None, calls;
      }
      ghost var before := run;
      ghost var saves;
      next, saves := SaveAndTouch(p, tok, rt, r);
      ThenCalls(old(run), before, run, p, calls, saves);
      MarksStay(old(run), before, run, p, calls, tok);
      MarkedServesIff(run, calls, saves, tok, rt.sid, r.at + r.sessionTtl);
      if next.Some? { RotatesInAll(run, calls, saves, tok, rt, next.value, r.at + r.sessionTtl, r.at + r.refreshTtl); }
      calls := calls + saves;
    }

    method MarkRotated(p: nat, tok: Tok, rt: Token, ghost r: Proc) returns (marked: bool, ghost calls: seq<nat>)
      requires Ok() && Leaves(p) && At(p, r, Mark(rt)) && r.tok == tok
      modifies this
      ensures Ok() && At(p, r, if marked then Save(rt) else Release(None))
      ensures CallsAre(old(run), run, p, calls) && 1 <= |calls| <= 2
      ensures marked ==> Marks(run, calls, tok) && IsUsed(Found(run, calls[|calls| - 1] + 1), tok)
      ensures |calls| == 2 <==> Answered(run, calls[0]) && tok in Found(run, calls[0]).db.tokens && !IsUsed(Found(run, calls[0]), tok)
      ensures !marked ==> if |calls| == 2 then !Answered(run, calls[1]) else !(Answered(run, calls[0]) && tok in Found(run, calls[0]).db.tokens)
    {
      hide Step, Exec, Inv, CallsAre;
      var o, found, k := Call(p);
      calls := [k];
      RefreshMoves(found, p, o);
      MarkReads(found, p, o);
      if !o.Success? || tok !in found.db.tokens {
        return false, calls;
      }
      if found.db.tokens[tok].status.Rotated? {
        return true, calls;
      }
      ghost var read := run;
      o, found, k := Call(p);
      ThenCalls(old(run), read, run, p, calls, [k]);
      calls := calls + [k];
      marked := o.Success?;
      RefreshMoves(found, p, o);
      if o.Applied() { MarkWrites(found, p, o); }
    }

    method SaveAndTouch(p: nat, tok: Tok, rt: Token, ghost r: Proc) returns (next: Option<Tok>, ghost calls: seq<nat>)
      requires Ok() && Leaves(p) && At(p, r, Save(rt)) && r.tok == tok
      modifies this
      ensures Ok() && At(p, r, Release(next))
      ensures CallsAre(old(run), run, p, calls) && |calls| > 0
      ensures next.Some? <==> Saves(run, calls, rt.sid, r.at + r.sessionTtl)
      ensures next.Some? ==> SavedAndTouched(run, calls, tok, rt, next.value, r.at + r.sessionTtl, r.at + r.refreshTtl)
      ensures next.Some? ==>
        && tok in s.born && next.value in s.born && s.born[next.value] == (s.born[tok].0, Some(tok))
        && !IsUsable(s, tok)
    {
      hide Step, Exec, Inv, IsUsable, CallsAre, Touches, Touched;
      var o, found, k := Call(p);
      calls := [k];
      var fresh' := found.nextTok;
      ghost var saving, saved := run[..k], run;
      RefreshMoves(found, p, o);
      if !o.Success? {
        assert !Answered(run, calls[0]);
        return None, calls;
      }
      SavesForItsSession(saving, p);
      SaveWrites(found, p, o);
      ghost var touches;
      var touched;
      touched, touches := TouchSession(p, rt, fresh', r);
      ThenCalls(old(run), saved, run, p, calls, touches);
      calls := calls + touches;
      assert calls[1..] == touches;
      SavesIff(run, k, touches, rt.sid, r.at + r.sessionTtl);
      if !touched {
        return None, calls;
      }
      next := Some(fresh');
      SavedForGood(saving, saved, run, rt.sid, tok, fresh');
    }

    /** The read and the write of the session, apart. */
    method TouchSession(p: nat, rt: Token, next: Tok, ghost r: Proc) returns (touched: bool, ghost calls: seq<nat>)
      requires Ok() && Leaves(p) && At(p, r, Touch(rt, next))
      modifies this
      ensures Ok() && At(p, r, Release(if touched then Some(next) else None))
      ensures CallsAre(old(run), run, p, calls) && |calls| > 0
      ensures touched <==> Touches(run, calls, rt.sid, r.at + r.sessionTtl)
      ensures touched ==> |calls| == 2 && Touched(run, calls, rt.sid, r.at + r.sessionTtl)
    {
      hide Step, Exec, Inv, CallsAre;
      var o, found, k := Call(p);
      calls := [k];
      RefreshMoves(found, p, o);
      if !o.Success? || rt.sid !in found.db.sessions || found.procs[p].at + found.procs[p].sessionTtl <= found.now {
        return false, calls;
      }
      ghost var read := run;
      o, found, k := Call(p);
      ThenCalls(old(run), read, run, p, calls, [k]);
      calls := calls + [k];
      RefreshMoves(found, p, o);
      touched := o.Success?;
      if touched { TouchWrites(found, p, o); }
    }

    // ---------- logging out ----------

    ghost predicate Leaving(p: nat, access: Option<(User, Sid)>, refresh: Option<Tok>, phase: LogoutPhase)
      reads this
    {
      p < |s.procs| && s.procs[p] == Logout(access, refresh, phase)
    }

    /** Best effort: revoke by the access token, then withdraw the refresh token; the session is revoked
        by the refresh token only when there was no access token. Each call that takes effect ends its
        session or withdraws the token, whether or not the others do; a token withdrawn is spent for good,
        and a session that was open is out of office for good. */
    method LogOut(access: Option<(User, Sid)>, refresh: Option<Tok>)
      returns (p: nat, ghost revoke: nat, ghost read: nat, ghost marks: seq<nat>, ghost ends: seq<nat>)
      requires Ok() && Leaves(|s.procs|)
      modifies this
      ensures Ok() && Leaving(p, access, refresh, Left)
      ensures CallsAre(old(run), run, p, [revoke] + ([read] + marks + ends))
      ensures access.Some? ==> EndedAt(run, revoke, access.value.0, access.value.1, LoggedOut, LoggedOutReason)
      ensures access.Some? && TookEffect(run, revoke) && Found(run, revoke).db.IsOpen(access.value.1) ==> Out(s, access.value.0, access.value.1)
      ensures Withdrew(run, read, marks, ends, access, refresh)
      ensures refresh.Some? && refresh.value in old(s).born && Answered(run, read) && (forall k :: k in marks ==> Answered(run, k)) ==>
        !IsUsable(s, refresh.value)
    {
      hide Step, Exec, Inv, Out, IsUsable, CallsAre, Withdrew;
      p := |s.procs|;
      SpawnDoes(s, Logout(access, refresh, ByAccess));
      Start(Logout(access, refresh, ByAccess));
      ghost var spawned := run;
      var o, found;
      o, found, revoke := Call(p);
      LogoutMoves(found, p, o);
      if access.Some? && o.Applied() { LogoutEnds(found, p, o); }
      ghost var closed := run;
      ThenCalls(old(run), spawned, run, p, [], [revoke]);
      if refresh.Some? && refresh.value in old(s).born { BornSince(old(run), run, refresh.value); }
      read, marks, ends := LogOutToken(p, access, refresh);
      assert [] + [revoke] == [revoke];
      ThenCalls(old(run), closed, run, p, [revoke], [read] + marks + ends);
      if access.Some? && TookEffect(run, revoke) && found.db.IsOpen(access.value.1) {
        OutSince(closed, run, access.value.0, access.value.1);
      }
    }

    /** The refresh token's part of a logout. */
    method LogOutToken(p: nat, access: Option<(User, Sid)>, refresh: Option<Tok>)
      returns (ghost read: nat, ghost marks: seq<nat>, ghost ends: seq<nat>)
      requires Ok() && Leaves(p) && Leaving(p, access, refresh, LogoutPhase.ReadToken)
      modifies this
      ensures Ok() && Leaving(p, access, refresh, Left)
      ensures CallsAre(old(run), run, p, [read] + marks + ends) && Withdrew(run, read, marks, ends, access, refresh)
      ensures refresh.Some? && refresh.value in old(s).born && Answered(run, read) && (forall k :: k in marks ==> Answered(run, k)) ==>
        !IsUsable(s, refresh.value)
    {
      hide Step, Exec, Inv, CallsAre, MarkedAs, EndedAt;
      var o, found;
      marks, ends := [], [];
      o, found, read := Call(p);
      LogoutMoves(found, p, o);
      LogoutReads(found, p, o);
      ghost var seen := run;
      Since(old(run), run, p, [read]);
      if refresh.Some? && refresh.value in old(s).born { BornSince(old(run), run, refresh.value); }
      assert [read] + marks + ends == [read];
      if refresh.None? || !o.Success? || refresh.value !in found.db.tokens || !found.db.tokens[refresh.value].status.Usable? {
        return;
      }
      marks, ends := WithdrawToken(p, access, refresh.value, found.db.tokens[refresh.value]);
      ThenCalls(old(run), seen, run, p, [read], marks + ends);
      assert [read] + marks + ends == [read] + (marks + ends);
    }

    /** The read and the write of the token's status, apart; then the session, if there was no access token. */
    method WithdrawToken(p: nat, access: Option<(User, Sid)>, tok: Tok, rt: Token) returns (ghost marks: seq<nat>, ghost ends: seq<nat>)
      requires Ok() && Leaves(p) && Leaving(p, access, Some(tok), Withdraw(rt))
      modifies this
      ensures Ok() && Leaving(p, access, Some(tok), Left)
      ensures CallsAre(old(run), run, p, marks + ends) && MarkedAs(run, marks, tok, Withdrawn)
      ensures |ends| == (if access.None? then 1 else 0)
      ensures access.None? ==> EndedAt(run, ends[0], rt.user, rt.sid, LoggedOut, LoggedOutReason)
      ensures tok in old(s).born && (forall k :: k in marks ==> Answered(run, k)) ==> !IsUsable(s, tok)
    {
      hide Step, Exec, Inv, CallsAre, Ended;
      ends := [];
      marks := MarkWithdrawn(p, access, tok, rt);
      ghost var marked := run;
      assert marks + ends == marks;
      if access.None? {
        var o, found, k := Call(p);
        LogoutMoves(found, p, o);
        if o.Applied() { LogoutEnds(found, p, o); }
        ThenCalls(old(run), marked, run, p, marks, [k]);
        MarkedStays(old(run), marked, run, p, marks, tok, Withdrawn);
        FoundStays(old(run), marked, run, p, marks);
        ends := [k];
        if tok in Exec(marked).born && !IsUsable(Exec(marked), tok) { StaysSpent(marked, marked, run, tok); }
      }
    }

    method MarkWithdrawn(p: nat, access: Option<(User, Sid)>, tok: Tok, rt: Token) returns (ghost marks: seq<nat>)
      requires Ok() && Leaves(p) && Leaving(p, access, Some(tok), Withdraw(rt))
      modifies this
      ensures Ok() && Leaving(p, access, Some(tok), if access.None? then ByToken(rt) else Left)
      ensures CallsAre(old(run), run, p, marks) && MarkedAs(run, marks, tok, Withdrawn)
      ensures tok in old(s).born ==> tok in s.born
      ensures tok in old(s).born && (forall k :: k in marks ==> Answered(run, k)) ==> !IsUsable(s, tok)
    {
      hide Step, Exec, Inv, CallsAre;
      var o, found, k := Call(p);
      marks := [k];
      LogoutMoves(found, p, o);
      LogoutReads(found, p, o);
      ghost var read := run;
      Since(old(run), run, p, [k]);
      if tok in old(s).born { BornSince(old(run), run, tok); }
      if !o.Success? || tok !in found.db.tokens || found.db.tokens[tok].status.Withdrawn? {
        assert o.Success? <==> Answered(run, marks[0]);
        return;
      }
      o, found, k := Call(p);
      LogoutMoves(found, p, o);
      if o.Applied() { LogoutWithdraws(found, p, o); }
      ThenCalls(old(run), read, run, p, marks, [k]);
      marks := marks + [k];
      assert o.Success? <==> Answered(run, marks[1]);
      if tok in old(s).born { BornSince(old(run), run, tok); }
    }
  }
}
