/** What goes into a role-assignment plan, and the check that nothing has changed before it is written. */
module AgentPlanning {

  type RoleId = nat

  datatype Role = Role(id: RoleId, name: string, code: string, status: nat, builtin: bool)

  datatype Employee = Employee(id: nat, account: string, name: string, department: string)

  /** A sorted permission list is its multiset. */
  datatype PlannedRole = PlannedRole(role: Role, permissions: multiset<nat>)

  datatype Payload = Payload(employee: Employee, before: seq<Role>, added: seq<PlannedRole>)

  const ENABLED: nat := 1
  const MOST: nat := 20

  function IdsOf(roles: seq<Role>): set<RoleId> {
    set r | r in roles :: r.id
  }

  function AddedIds(p: Payload): (ids: seq<RoleId>)
    ensures |ids| == |p.added| && forall i :: 0 <= i < |ids| ==> ids[i] == p.added[i].role.id
  {
    seq(|p.added|, i requires 0 <= i < |p.added| => p.added[i].role.id)
  }

  predicate Ascending(ids: seq<RoleId>) {
    forall i, j :: 0 <= i < j < |ids| ==> ids[i] < ids[j]
  }

  /** 1 to 20 distinct roles, all enabled, none of them held. */
  predicate Sound(p: Payload) {
    && 1 <= |p.added| <= MOST
    && Ascending(AddedIds(p))
    && forall k :: 0 <= k < |p.added| ==> p.added[k].role.status == ENABLED && p.added[k].role.id !in IdsOf(p.before)
  }

  // ---------- the preview ----------

  datatype Outcome = Planned(payload: Payload) | NothingToDo | Refused

  /** sorted(set(ids)) */
  method SortedDistinct(ids: seq<RoleId>) returns (out: seq<RoleId>)
    ensures Ascending(out) && forall x :: x in out <==> x in ids
  {
    out := [];
    for k := 0 to |ids|
      invariant Ascending(out) && forall x :: x in out <==> x in ids[..k]
    {
      var i := 0;
      while i < |out| && out[i] < ids[k]
        invariant 0 <= i <= |out| && forall j :: 0 <= j < i ==> out[j] < ids[k]
      {
        i := i + 1;
      }
      if i == |out| || out[i] != ids[k] {
        assert out == out[..i] + out[i..];
        out := out[..i] + [ids[k]] + out[i..];
      }
      assert ids[..k + 1] == ids[..k] + [ids[k]];
    }
    assert ids[..|ids|] == ids;
  }

  method FindSame(found: seq<Employee>, employee: Employee) returns (i: int)
    ensures -1 <= i < |found|
    ensures i >= 0 ==> found[i].id == employee.id && found[i].account == employee.account
    ensures i < 0 ==> forall x :: x in found ==> x.id != employee.id || x.account != employee.account
  {
    for k := 0 to |found|
      invariant forall j :: 0 <= j < k ==> found[j].id != employee.id || found[j].account != employee.account
    {
      if found[k].id == employee.id && found[k].account == employee.account {
        return k;
      }
    }
    return -1;
  }

  /** The roles asked for that the employee lacks. */
  predicate Wanted(ids: seq<RoleId>, before: seq<Role>, x: RoleId) {
    x in ids && x !in IdsOf(before)
  }

  predicate Assignable(catalog: map<RoleId, Role>, x: RoleId) {
    x in catalog && catalog[x].status == ENABLED
  }

  ghost predicate Refusable(ids: seq<RoleId>, known: set<RoleId>, employee: Employee, found: seq<Employee>, catalog: map<RoleId, Role>, before: seq<Role>) {
    || |Elements(ids)| == 0 || |Elements(ids)| > MOST
    || (exists x :: x in ids && x !in known)
    || (forall x :: x in found ==> x.id != employee.id || x.account != employee.account)
    || (exists x :: Wanted(ids, before, x) && !Assignable(catalog, x))
  }

  function Elements(ids: seq<RoleId>): set<RoleId> {
    set x | x in ids
  }

  lemma {:induction false} AscendingIsDistinct(out: seq<RoleId>)
    requires Ascending(out)
    ensures |Elements(out)| == |out|
  {
    if out == [] {
      assert Elements(out) == {};
    } else {
      var init, last := out[..|out| - 1], out[|out| - 1];
      AscendingIsDistinct(init);
      assert out == init + [last];
      assert Elements(out) == Elements(init) + {last} && last !in Elements(init);
    }
  }

  /** The tool's checks in its order: the permission, the employee seen before, the selection, the known
      ids, the person, the catalogue. */
  method Preview(permitted: bool, employees: map<nat, Employee>, userId: nat, ids: seq<RoleId>, known: set<RoleId>, found: seq<Employee>,
                 catalog: map<RoleId, Role>, before: seq<Role>, permissions: RoleId -> multiset<nat>) returns (r: Outcome)
    requires forall x :: x in catalog ==> catalog[x].id == x
    ensures r.Refused? <==> !permitted || userId !in employees || Refusable(ids, known, employees[userId], found, catalog, before)
    ensures r.NothingToDo? ==> forall x :: x in ids ==> x in IdsOf(before)
    ensures r.Planned? ==>
      && Sound(r.payload) && r.payload.before == before && userId in employees
      && r.payload.employee in found && r.payload.employee.id == employees[userId].id && r.payload.employee.account == employees[userId].account
      && (forall x :: x in AddedIds(r.payload) <==> Wanted(ids, before, x))
      && forall k :: 0 <= k < |r.payload.added| ==>
        && r.payload.added[k].role.id in catalog && r.payload.added[k].role == catalog[r.payload.added[k].role.id]
        && r.payload.added[k].permissions == permissions(r.payload.added[k].role.id)
  {
    hide Sound, AddedIds, IdsOf;
    if !permitted || userId !in employees {
      return Refused;
    }
    var employee := employees[userId];
    var selected := SortedDistinct(ids);
    AscendingIsDistinct(selected);
    assert Elements(selected) == Elements(ids);
    if !(1 <= |selected| <= MOST) {
      return Refused;
    }
    for k := 0 to |selected|
      invariant forall j :: 0 <= j < k ==> selected[j] in known
    {
      if selected[k] !in known {
        assert selected[k] in ids;
        return Refused;
      }
    }
    assert forall x :: x in ids ==> x in known;
    var i := FindSame(found, employee);
    if i < 0 {
      return Refused;
    }
    assert found[i] in found;
    var wanted := Lacking(selected, before);
    assert forall x :: x in wanted <==> Wanted(ids, before, x);
    if wanted == [] {
      assert forall x :: x in ids ==> x in IdsOf(before) by { forall x | x in ids ensures x in IdsOf(before) { assert x !in wanted; } }
      return NothingToDo;
    }
    var added, ok := Describe(wanted, catalog, permissions);
    if !ok {
      return Refused;
    }
    var payload := Payload(found[i], before, added);
    PayloadIsSound(payload, wanted, selected);
    return Planned(payload);
  }

  method Lacking(selected: seq<RoleId>, before: seq<Role>) returns (wanted: seq<RoleId>)
    requires Ascending(selected)
    ensures Ascending(wanted) && |wanted| <= |selected|
    ensures forall x :: x in wanted <==> x in selected && x !in IdsOf(before)
  {
    hide IdsOf;
    wanted := [];
    for k := 0 to |selected|
      invariant Ascending(wanted) && |wanted| <= k
      invariant forall x :: x in wanted <==> x in selected[..k] && x !in IdsOf(before)
    {
      assert selected[..k + 1] == selected[..k] + [selected[k]];
      assert forall x :: x in selected[..k] ==> x < selected[k];
      assert forall j :: 0 <= j < |wanted| ==> wanted[j] in wanted;
      if selected[k] !in IdsOf(before) {
        wanted := wanted + [selected[k]];
      }
    }
    assert selected[..|selected|] == selected;
  }

  method Describe(wanted: seq<RoleId>, catalog: map<RoleId, Role>, permissions: RoleId -> multiset<nat>) returns (added: seq<PlannedRole>, ok: bool)
    requires forall x :: x in catalog ==> catalog[x].id == x
    ensures !ok <==> exists x :: x in wanted && !Assignable(catalog, x)
    ensures ok ==> |added| == |wanted| && forall k :: 0 <= k < |wanted| ==>
      wanted[k] in catalog && added[k] == PlannedRole(catalog[wanted[k]], permissions(wanted[k])) && catalog[wanted[k]].status == ENABLED
  {
    added := [];
    for k := 0 to |wanted|
      invariant |added| == k
      invariant forall j :: 0 <= j < k ==> Assignable(catalog, wanted[j]) && added[j] == PlannedRole(catalog[wanted[j]], permissions(wanted[j]))
    {
      if wanted[k] !in catalog || catalog[wanted[k]].status != ENABLED {
        assert !Assignable(catalog, wanted[k]);
        return added, false;
      }
      added := added + [PlannedRole(catalog[wanted[k]], permissions(wanted[k]))];
    }
    ok := true;
  }

  lemma PayloadIsSound(p: Payload, wanted: seq<RoleId>, selected: seq<RoleId>)
    requires 1 <= |wanted| <= |selected| <= MOST && Ascending(wanted) && |p.added| == |wanted|
    requires forall k :: 0 <= k < |wanted| ==> p.added[k].role.id == wanted[k] && p.added[k].role.status == ENABLED
    requires forall x :: x in wanted ==> x !in IdsOf(p.before)
    ensures Sound(p) && AddedIds(p) == wanted
  {
    assert AddedIds(p) == wanted;
  }

  // ---------- the check before the write ----------

  /** What the execution reads again. */
  datatype Reads = Reads(before: seq<Role>, catalog: map<RoleId, Role>, found: seq<Employee>, permissions: map<RoleId, multiset<nat>>)

  predicate SamePerson(p: Payload, found: seq<Employee>) {
    p.employee in found
  }

  predicate SameRole(planned: PlannedRole, seen: Reads) {
    && planned.role.id in seen.catalog && seen.catalog[planned.role.id] == planned.role
    && planned.role.id in seen.permissions && seen.permissions[planned.role.id] == planned.permissions
  }

  /** The same person, holding the same roles, and every role to add unchanged. */
  predicate Matches(p: Payload, seen: Reads) {
    && SamePerson(p, seen.found)
    && IdsOf(seen.before) == IdsOf(p.before)
    && forall k :: 0 <= k < |p.added| ==> SameRole(p.added[k], seen)
  }

  /** Accumulated person by person, then role by role, as the execution does. */
  method Unchanged(p: Payload, seen: Reads) returns (same: bool)
    ensures same <==> Matches(p, seen)
  {
    var person := false;
    for k := 0 to |seen.found|
      invariant person <==> p.employee in seen.found[..k]
    {
      var x := seen.found[k];
      if x.id == p.employee.id && x.account == p.employee.account && x.name == p.employee.name && x.department == p.employee.department {
        person := true;
      }
      assert seen.found[..k + 1] == seen.found[..k] + [x];
    }
    assert seen.found[..|seen.found|] == seen.found;
    same := person && IdsOf(seen.before) == IdsOf(p.before);
    for k := 0 to |p.added|
      invariant same <==> SamePerson(p, seen.found) && IdsOf(seen.before) == IdsOf(p.before) && forall j :: 0 <= j < k ==> SameRole(p.added[j], seen)
    {
      var role := p.added[k].role;
      same := same && role.id in seen.catalog && seen.catalog[role.id] == role;
      same := same && role.id in seen.permissions && seen.permissions[role.id] == p.added[k].permissions;
    }
  }

  /** What a matching second reading means for a sound plan: at the last read the employee lacked every role to be
      added, and every one was enabled. */
  lemma MatchingReadsLackTheRoles(p: Payload, seen: Reads, x: RoleId)
    requires Sound(p) && Matches(p, seen) && x in AddedIds(p)
    ensures x !in IdsOf(seen.before) && x in seen.catalog && seen.catalog[x].status == ENABLED
  {
    var k :| 0 <= k < |p.added| && AddedIds(p)[k] == x;
    assert SameRole(p.added[k], seen);
  }
}
