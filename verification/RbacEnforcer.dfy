/** The caching enforcer among concurrent requests: between any two of its critical sections time goes
    on, the database changes, and other requests reload, cache and invalidate. */
module RbacEnforcer {
  import opened RbacPolicy

  datatype Option<+T> = None | Some(value: T)

  type UserId = int

  /** The committed database at one moment. */
  datatype Snapshot = Snapshot(rows: seq<Row>, rolesOf: map<UserId, seq<string>>) {
    function RolesOf(user: UserId): seq<string> { if user in rolesOf then rolesOf[user] else [] }
  }

  datatype Entry = Entry(roles: seq<string>, expireAt: nat)

  const POLICY_TTL: nat := 300
  const ROLE_TTL: nat := 300

  /** What others do meanwhile. A query answers with the database of some earlier moment. */
  datatype Other =
    | Tick(next: Snapshot)
    | Install(asOf: nat)
    | Forget
    | ClearRoles
    | DropRoles(user: UserId)
    | StoreRoles(user: UserId, asOf: nat)

  class CachedEnforcer {
    /** history[t] is the database at time t; the last one is now. */
    var history: seq<Snapshot>
    const schedule: nat -> seq<Other>
    var pauses: nat

    var policy: Index
    var rolePermCodes: map<string, seq<string>>
    var policyLoadedAt: Option<nat>
    var roleCache: map<UserId, Entry>

    // which moment's rows the policy shows, and when it was installed; the same for cached roles
    ghost var loaded: bool
    ghost var policyAsOf: nat
    ghost var installedAt: nat
    ghost var rolesAsOf: map<UserId, nat>

    constructor (first: Snapshot, schedule: nat -> seq<Other>)
      ensures Valid() && history == [first] && policyLoadedAt == None && roleCache == map[] && this.schedule == schedule && pauses == 0
    {
      history, this.schedule, pauses := [first], schedule, 0;
      policy, rolePermCodes, policyLoadedAt, roleCache := map[], map[], None, map[];
      loaded, policyAsOf, installedAt, rolesAsOf := false, 0, 0, map[];
    }

    function Now(): nat
      reads this
      requires history != []
    {
      |history| - 1
    }

    /** The caches show the database of the moments on record: not an entry more, not one less. */
    ghost predicate Valid()
      reads this
    {
      && history != []
      && (policyLoadedAt.Some? ==> loaded && policyLoadedAt.value == installedAt)
      && (loaded ==> policyAsOf <= installedAt <= Now())
      && (loaded ==> Indexes(policy, history[policyAsOf].rows) && Lists(rolePermCodes, history[policyAsOf].rows))
      && forall u :: u in roleCache ==> CachedRolesOk(u)
    }

    /** Cached roles are those of a moment, and expire one TTL after they were stored. */
    ghost predicate CachedRolesOk(u: UserId)
      reads this
      requires u in roleCache && history != []
    {
      && u in rolesAsOf && rolesAsOf[u] + ROLE_TTL <= roleCache[u].expireAt <= Now() + ROLE_TTL
      && roleCache[u].roles == history[rolesAsOf[u]].RolesOf(u)
    }

    /** Time does not go back, and neither does the installation of policies. */
    twostate predicate Onward()
      reads this
    {
      old(history) <= history && (old(loaded) ==> loaded && old(installedAt) <= installedAt)
    }

    /** Nobody else is there: no time passes and nothing changes between this request's steps. */
    ghost predicate Alone() {
      forall n :: schedule(n) == []
    }

    /** The policy in the cache is the same one. */
    twostate predicate SamePolicy()
      reads this
    {
      && policy == old(policy) && policyLoadedAt == old(policyLoadedAt)
      && loaded == old(loaded) && policyAsOf == old(policyAsOf) && installedAt == old(installedAt)
    }

    /** What is in the caches was there, or was put there since. */
    twostate predicate OldOrStored()
      reads this
      requires old(history) != []
    {
      && (forall u :: u in roleCache ==>
           (u in old(roleCache) && roleCache[u] == old(roleCache)[u]) || roleCache[u].expireAt >= |old(history)| - 1 + ROLE_TTL)
      && (policyLoadedAt.Some? ==> policyLoadedAt == old(policyLoadedAt) || policyLoadedAt.value >= |old(history)| - 1)
    }

    /** A policy is loaded and its time is not over. */
    predicate Current()
      reads this
      requires history != []
    {
      policyLoadedAt.Some? && Now() - policyLoadedAt.value < POLICY_TTL
    }

    method OthersStep(a: Other)
      requires Valid()
      modifies this
      ensures Valid() && Onward() && OldOrStored() && pauses == old(pauses)
      ensures a.Tick? ==> history == old(history) + [a.next] && policy == old(policy)
      ensures a.Tick? ==> loaded == old(loaded) && policyAsOf == old(policyAsOf) && policyLoadedAt == old(policyLoadedAt)
    {
      hide Indexes, Lists;
      match a
      case Tick(next) => history := history + [next];
      case Install(asOf) => if asOf <= Now() { InstallPolicy(asOf); }
      case Forget => policyLoadedAt := None;
      case ClearRoles => roleCache := map[];
      case DropRoles(user) => roleCache := roleCache - {user};
      case StoreRoles(user, asOf) => if asOf <= Now() { StoreEntry(user, history[asOf].RolesOf(user), asOf); }
    }

    method Pause()
      requires Valid()
      modifies this
      ensures Valid() && Onward() && OldOrStored()
      ensures Alone() ==> history == old(history) && SamePolicy() && roleCache == old(roleCache)
    {
      var todo := schedule(pauses);
      pauses := pauses + 1;
      for k := 0 to |todo|
        invariant Valid() && Onward() && OldOrStored()
        invariant todo == [] ==> history == old(history) && SamePolicy() && roleCache == old(roleCache)
      {
        OthersStep(todo[k]);
      }
    }

    /** The critical section of ReloadPolicy, with what its query had read. */
    method InstallPolicy(asOf: nat)
      requires Valid() && asOf <= Now()
      modifies this`policy, this`rolePermCodes, this`policyLoadedAt, this`loaded, this`policyAsOf, this`installedAt
      ensures Valid() && loaded && policyAsOf == asOf && installedAt == Now() && policyLoadedAt == Some(installedAt)
    {
      hide Indexes, Lists;
      policy, rolePermCodes := BuildIndex(history[asOf].rows);
      policyLoadedAt := Some(Now());
      loaded, policyAsOf, installedAt := true, asOf, Now();
    }

    method StoreEntry(user: UserId, roles: seq<string>, ghost asOf: nat)
      requires Valid() && asOf <= Now() && roles == history[asOf].RolesOf(user)
      modifies this`roleCache, this`rolesAsOf
      ensures Valid() && roleCache == old(roleCache)[user := Entry(roles, Now() + ROLE_TTL)]
    {
      hide Indexes, Lists;
      roleCache := roleCache[user := Entry(roles, Now() + ROLE_TTL)];
      rolesAsOf := rolesAsOf[user := asOf];
    }

    /** The query, then the installation; a query that fails changes nothing. */
    method ReloadPolicy(fails: bool) returns (ok: bool)
      requires Valid()
      modifies this
      ensures Valid() && Onward() && OldOrStored() && ok == !fails
      ensures ok ==> policyLoadedAt == Some(installedAt)
      ensures ok ==> loaded && policyAsOf >= |old(history)| - 1
      ensures Alone() ==> history == old(history) && roleCache == old(roleCache) && (!ok ==> SamePolicy())
    {
      hide Indexes, Lists;
      Pause();
      if fails {
        return false;
      }
      var asOf := Now();
      Pause();
      InstallPolicy(asOf);
      ok := true;
    }

    /** True only when a policy was installed within the last TTL before this call, or during it. */
    method EnsurePolicy(fails: bool) returns (ok: bool)
      requires Valid()
      modifies this
      ensures Valid() && Onward()
      ensures ok ==> loaded && installedAt + 300 > |old(history)| - 1
      ensures !ok ==> fails
      ensures old(Current()) ==> ok
      ensures Alone() ==> history == old(history)
      ensures Alone() && old(Current()) ==> SamePolicy()
      ensures !old(Current()) && ok ==> policyAsOf >= |old(history)| - 1
    {
      var current := Current();
      Pause();
      if current {
        return true;
      }
      ok := ReloadPolicy(fails);
    }

    /** A grant is the plain check on the rows of a moment whose policy was installed no longer than
        one TTL before the request, and so read no longer ago than the TTL and its own query took; a
        refusal is that check too, unless there are no roles or the reload failed. */
    method Enforce(roles: seq<string>, target: string, action: string, fails: bool) returns (granted: bool, ghost asOf: nat)
      requires Valid()
      modifies this
      ensures Valid() && Onward() && asOf < |history|
      ensures granted ==> Allowed(history[asOf].rows, roles, target, action)
      ensures granted ==> loaded && asOf == policyAsOf && installedAt + 300 > |old(history)| - 1
      ensures !granted && roles != [] && !fails ==> !Allowed(history[asOf].rows, roles, target, action) && installedAt + 300 > |old(history)| - 1
      ensures Alone() ==> history == old(history)
      ensures Alone() && roles != [] && (old(Current()) || !fails) ==>
        asOf == (if old(Current()) then old(policyAsOf) else |history| - 1) && (granted <==> Allowed(history[asOf].rows, roles, target, action))
    {
      hide Indexes, Lists, Allowed;
      granted, asOf := false, 0;
      if roles == [] {
        return;
      }
      var ok := EnsurePolicy(fails);
      if !ok {
        return;
      }
      Pause();
      asOf := policyAsOf;
      granted := MatchRoles(policy, roles, target, action, history[asOf].rows);
    }

    /** The cache's critical section: an entry past its time is dropped. */
    method CachedRoles(user: UserId) returns (roles: Option<seq<string>>)
      requires Valid()
      modifies this`roleCache
      ensures Valid()
      ensures roles.Some? ==> user in old(roleCache) && roles.value == old(roleCache)[user].roles && Now() <= old(roleCache)[user].expireAt
      ensures roles.None? <==> user !in old(roleCache) || Now() > old(roleCache)[user].expireAt
      ensures roleCache == if roles.None? then old(roleCache) - {user} else old(roleCache)
    {
      hide Indexes, Lists;
      if user !in roleCache || Now() > roleCache[user].expireAt {
        roleCache := roleCache - {user};
        return None;
      }
      return Some(roleCache[user].roles);
    }

    /** The answer is the user's roles of some moment: of this call, or cached and not past its time. */
    method LoadRoles(user: UserId, fails: bool) returns (roles: Option<seq<string>>, ghost asOf: nat)
      requires Valid()
      modifies this
      ensures Valid() && Onward() && asOf < |history|
      ensures roles.Some? ==> roles.value == history[asOf].RolesOf(user)
      ensures roles.Some? && asOf < |old(history)| - 1 ==> user in old(roleCache) && asOf == old(rolesAsOf)[user]
      ensures roles.Some? && asOf < |old(history)| - 1 ==> |old(history)| - 1 <= old(roleCache)[user].expireAt
      ensures roles.None? ==> fails
    {
      hide Indexes, Lists;
      var hit := CachedRoles(user);
      if hit.Some? {
        return hit, rolesAsOf[user];
      }
      asOf := Now();
      if fails {
        return None, asOf;
      }
      Pause();
      asOf := Now();
      var found := history[Now()].RolesOf(user);
      Pause();
      StoreEntry(user, found, asOf);
      roles := Some(found);
    }

    method HasRole(user: UserId, role: string, fails: bool) returns (has: Option<bool>, ghost asOf: nat)
      requires Valid()
      modifies this
      ensures Valid() && Onward() && asOf < |history|
      ensures has.Some? ==> (has.value <==> role in history[asOf].RolesOf(user))
      ensures has.None? ==> fails
    {
      hide Indexes, Lists;
      var roles;
      roles, asOf := LoadRoles(user, fails);
      if roles.None? {
        return None, asOf;
      }
      for k := 0 to |roles.value|
        invariant role !in roles.value[..k]
      {
        if roles.value[k] == role {
          return Some(true), asOf;
        }
        assert roles.value[..k + 1] == roles.value[..k] + [roles.value[k]];
      }
      assert roles.value[..|roles.value|] == roles.value;
      return Some(false), asOf;
    }

    /** All codes of the user's roles, once each: exactly those of the policy's rows. */
    method PermissionCodes(user: UserId, policyFails: bool, rolesFail: bool) returns (codes: Option<set<string>>, ghost rowsAsOf: nat, ghost roles: seq<string>)
      requires Valid()
      modifies this
      ensures Valid() && Onward() && rowsAsOf < |history|
      ensures codes.Some? ==> forall code :: code in codes.value <==> exists row :: row in history[rowsAsOf].rows && row.role in roles && row.code == code
      ensures codes.Some? ==> exists asOf :: 0 <= asOf < |history| && roles == history[asOf].RolesOf(user)
      ensures codes.None? ==> policyFails || rolesFail
    {
      hide Indexes, Lists;
      rowsAsOf, roles := 0, [];
      var ok := EnsurePolicy(policyFails);
      if !ok {
        return None, rowsAsOf, roles;
      }
      var held;
      ghost var asOf;
      held, asOf := LoadRoles(user, rolesFail);
      if held.None? {
        return None, rowsAsOf, roles;
      }
      roles := held.value;
      ghost var then' := history;
      Pause();
      assert history[asOf] == then'[asOf];
      rowsAsOf := policyAsOf;
      var all := CollectCodes(held.value, rowsAsOf);
      codes := Some(all);
    }

    method CollectCodes(roles: seq<string>, ghost asOf: nat) returns (all: set<string>)
      requires asOf < |history| && Lists(rolePermCodes, history[asOf].rows)
      ensures forall code :: code in all <==> exists row :: row in history[asOf].rows && row.role in roles && row.code == code
    {
      ghost var rows := history[asOf].rows;
      all := {};
      for k := 0 to |roles|
        invariant forall code :: code in all <==> exists row :: row in rows && row.role in roles[..k] && row.code == code
      {
        var role := roles[k];
        var codes := CodesIn(rolePermCodes, role);
        assert roles[..k + 1] == roles[..k] + [role];
        forall code ensures code in codes <==> exists row :: row in rows && row.role == role && row.code == code {
          CodesAreOfRows(rows, role, code);
        }
        all := all + set code | code in codes;
      }
      assert roles[..|roles|] == roles;
    }

    method InvalidateUser(user: UserId)
      requires Valid()
      modifies this`roleCache
      ensures Valid() && roleCache == old(roleCache) - {user}
    {
      hide Indexes, Lists;
      roleCache := roleCache - {user};
    }

    /** Clear the roles, mark the policy as not loaded, reload. No cached role is older than the call. A
        failed reload leaves the old policy in place but marked, so that every check reloads first, unless
        another request has loaded one since. */
    method InvalidatePolicy(fails: bool) returns (ok: bool)
      requires Valid()
      modifies this
      ensures Valid() && Onward() && ok == !fails
      ensures forall u :: u in roleCache ==> roleCache[u].expireAt >= |old(history)| - 1 + 300
      ensures policyLoadedAt.Some? ==> policyLoadedAt.value >= |old(history)| - 1
      ensures ok ==> loaded && policyAsOf >= |old(history)| - 1 && policyLoadedAt == Some(installedAt)
      ensures Alone() ==> history == old(history) && roleCache == map[] && (!ok ==> policyLoadedAt == None)
    {
      hide Indexes, Lists;
      roleCache := map[];
      Pause();
      policyLoadedAt := None;
      ok := ReloadPolicy(fails);
    }
  }

  lemma {:induction false} CodesAreOfRows(rows: seq<Row>, role: string, code: string)
    ensures code in CodesOf(rows, role) <==> exists row :: row in rows && row.role == role && row.code == code
  {
    if rows != [] {
      var init, last := rows[..|rows| - 1], rows[|rows| - 1];
      CodesAreOfRows(init, role, code);
      assert rows == init + [last];
    }
  }

  // ---------- invalidating inside an open transaction ----------

  // ---------- invalidation and the transaction it is called from ----------

  /** The next check after an invalidation, when nobody else touches the caches and the database goes
      through `later` in between: it shows the rows of the moment of the invalidation for one whole TTL,
      and then the latest; after an invalidation whose reload failed, the latest. */
  method CheckAfterInvalidation(e: CachedEnforcer, fails: bool, later: seq<Snapshot>, roles: seq<string>, target: string, action: string)
    returns (granted: bool)
    requires e.Valid() && e.Alone() && roles != []
    modifies e
    ensures e.Valid() && e.history == old(e.history) + later
    ensures granted <==>
      Allowed(e.history[if !fails && |later| < 300 then |old(e.history)| - 1 else |e.history| - 1].rows, roles, target, action)
  {
    hide Allowed, Indexes, Lists;
    var ok := e.InvalidatePolicy(fails);
    ghost var now := e.Now();
    for k := 0 to |later|
      invariant e.Valid() && e.history == old(e.history) + later[..k]
      invariant if fails then e.policyLoadedAt == None else e.policyLoadedAt == Some(now) && e.policyAsOf == now
    {
      e.OthersStep(Tick(later[k]));
      assert later[..k + 1] == later[..k] + [later[k]];
    }
    assert later[..|later|] == later;
    ghost var asOf;
    granted, asOf := e.Enforce(roles, target, action, false);
  }

  /** A change of the rows commits after the invalidation, as the services order it, or before. The next
      check is right for the new rows if and only if the change committed first, or the two snapshots
      agree on what is asked. */
  method CheckAfterChange(e: CachedEnforcer, after: Snapshot, committedFirst: bool, roles: seq<string>, target: string, action: string)
    returns (granted: bool)
    requires e.Valid() && e.Alone() && roles != []
    modifies e
    ensures e.Valid() && e.history == old(e.history) + [after]
    ensures var before := old(e.history)[|old(e.history)| - 1];
      && (granted <==> Allowed((if committedFirst then after else before).rows, roles, target, action))
      && ((granted <==> Allowed(after.rows, roles, target, action)) <==>
          committedFirst || (Allowed(before.rows, roles, target, action) <==> Allowed(after.rows, roles, target, action)))
  {
    hide Allowed, Indexes, Lists;
    if committedFirst {
      e.OthersStep(Tick(after));
      granted := CheckAfterInvalidation(e, false, [], roles, target, action);
    } else {
      granted := CheckAfterInvalidation(e, false, [after], roles, target, action);
    }
  }

  const READER := Row("auditor", "report:read")

  /** So a permission that no row gives any more is still granted: an instance of the case above. */
  method GrantOutlivesInvalidation() returns (granted: bool, e: CachedEnforcer)
    ensures granted && fresh(e) && e.Valid()
    ensures |e.history| == 2 && !Allowed(e.history[1].rows, ["auditor"], "report", "read")
  {
    hide Allowed, Indexes, Lists;
    e := new CachedEnforcer(Snapshot([READER], map[]), n => []);
    ReaderMayRead();
    NobodyMay();
    granted := CheckAfterChange(e, Snapshot([], map[]), false, ["auditor"], "report", "read");
  }

  lemma ReaderMayRead()
    ensures Allowed([READER], ["auditor"], "report", "read")
  {
    SplitInvertsJoin("report", "read");
    assert READER.code == "report" + ":" + "read";
    assert Grants(READER, "auditor", "report", "read");
    assert InRows([READER], "auditor", "report", "read");
    assert "auditor" in ["auditor"];
  }

  lemma NobodyMay()
    ensures !Allowed([], ["auditor"], "report", "read")
  {
  }
}
