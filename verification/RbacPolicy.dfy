/** Role-based access: permission codes, the policy index built from the plain rows, and its lookup. */
module RbacPolicy {

  datatype Row = Row(role: string, code: string)

  const WILDCARD := "*"

  /** strings.LastIndex(s, c) */
  function LastIndex(s: string, c: char): (i: int)
    ensures -1 <= i < |s|
    ensures i >= 0 ==> s[i] == c && forall j :: i < j < |s| ==> s[j] != c
    ensures i < 0 ==> c !in s
  {
    if s == [] then -1
    else if s[|s| - 1] == c then |s| - 1
    else
      var init := s[..|s| - 1];
      assert s == init + [s[|s| - 1]];
      LastIndex(init, c)
  }

  /** The last colon separates object and action; without both sides the whole code is the object. */
  function SplitPermissionCode(code: string): (string, string) {
    var i := LastIndex(code, ':');
    if i <= 0 || i == |code| - 1 then (code, "") else (code[..i], code[i + 1..])
  }

  /** A code in two parts is put together again from them, and an object and an action are got back
      exactly when neither is empty and the action has no colon. */
  lemma SplitInvertsJoin(target: string, action: string)
    ensures SplitPermissionCode(target + ":" + action) == (target, action) <==> target != "" && action != "" && ':' !in action
  {
    var code := target + ":" + action;
    var i := LastIndex(code, ':');
    assert code[|target|] == ':';
    if target != "" && action != "" && ':' !in action {
      assert forall j :: |target| < j < |code| ==> code[j] == action[j - |target| - 1];
      assert code[..|target|] == target && code[|target| + 1..] == action;
    } else if SplitPermissionCode(code) == (target, action) {
      assert |code| == |target| + 1 + |action|;
    }
  }

  lemma JoinInvertsSplit(code: string)
    ensures var (target, action) := SplitPermissionCode(code);
      if action == "" then target == code else target != "" && ':' !in action && target + ":" + action == code
  {
    var i := LastIndex(code, ':');
    if !(i <= 0 || i == |code| - 1) {
      assert code == code[..i] + ":" + code[i + 1..];
      var rest := code[i + 1..];
      assert forall j :: 0 <= j < |rest| ==> rest[j] == code[i + 1 + j];
    }
  }

  // ---------- the index ----------

  type Actions = set<string>
  type Objects = map<string, Actions>
  type Index = map<string, Objects>

  predicate Has(policy: Index, role: string, target: string, action: string) {
    role in policy && target in policy[role] && action in policy[role][target]
  }

  predicate Grants(row: Row, role: string, target: string, action: string) {
    row.role == role && SplitPermissionCode(row.code) == (target, action)
  }

  predicate InRows(rows: seq<Row>, role: string, target: string, action: string) {
    exists row :: row in rows && Grants(row, role, target, action)
  }

  /** The nested maps hold exactly what the rows say. */
  ghost predicate Indexes(policy: Index, rows: seq<Row>) {
    forall role, target, action :: Has(policy, role, target, action) <==> InRows(rows, role, target, action)
  }

  function AddRow(policy: Index, row: Row): Index {
    var (target, action) := SplitPermissionCode(row.code);
    var objects := if row.role in policy then policy[row.role] else map[];
    var actions := if target in objects then objects[target] else {};
    policy[row.role := objects[target := actions + {action}]]
  }

  lemma AddRowIndexes(policy: Index, rows: seq<Row>, row: Row)
    requires Indexes(policy, rows)
    ensures Indexes(AddRow(policy, row), rows + [row])
  {
    hide SplitPermissionCode;
    var policy' := AddRow(policy, row);
    forall role, target, action
      ensures Has(policy', role, target, action) <==> InRows(rows + [row], role, target, action)
    {
      AddRowHas(policy, row, role, target, action);
      assert Has(policy, role, target, action) <==> InRows(rows, role, target, action);
      if InRows(rows, role, target, action) {
        var r :| r in rows && Grants(r, role, target, action);
        assert r in rows + [row];
      }
      if Grants(row, role, target, action) { assert row in rows + [row]; }
    }
  }

  lemma AddRowHas(policy: Index, row: Row, role: string, target: string, action: string)
    ensures Has(AddRow(policy, row), role, target, action) <==> Has(policy, role, target, action) || Grants(row, role, target, action)
  {
    hide SplitPermissionCode;
  }

  /** The codes of a role, in row order. */
  function CodesOf(rows: seq<Row>, role: string): seq<string> {
    if rows == [] then []
    else
      var init, row := rows[..|rows| - 1], rows[|rows| - 1];
      CodesOf(init, role) + if row.role == role then [row.code] else []
  }

  function CodesIn(codes: map<string, seq<string>>, role: string): seq<string> {
    if role in codes then codes[role] else []
  }

  ghost predicate Lists(codes: map<string, seq<string>>, rows: seq<Row>) {
    forall role :: CodesIn(codes, role) == CodesOf(rows, role)
  }

  /** The loop of ReloadPolicy over the rows. */
  method BuildIndex(rows: seq<Row>) returns (policy: Index, codes: map<string, seq<string>>)
    ensures Indexes(policy, rows) && Lists(codes, rows)
  {
    hide SplitPermissionCode, AddRow, Indexes;
    policy, codes := map[], map[];
    NothingIndexed();
    assert rows[..0] == [];
    for k := 0 to |rows|
      invariant Indexes(policy, rows[..k]) && Lists(codes, rows[..k])
    {
      var row := rows[k];
      assert rows[..k + 1] == rows[..k] + [row];
      AddRowIndexes(policy, rows[..k], row);
      AddRowIs(policy, row);
      var (target, action) := SplitPermissionCode(row.code);
      var objects := if row.role in policy then policy[row.role] else map[];
      var actions := if target in objects then objects[target] else {};
      actions := actions + {action};
      objects := objects[target := actions];
      policy := policy[row.role := objects];
      ListsMore(codes, rows[..k], row);
      codes := codes[row.role := CodesIn(codes, row.role) + [row.code]];
    }
    assert rows[..|rows|] == rows;
  }

  lemma AddRowIs(policy: Index, row: Row)
    ensures var (target, action) := SplitPermissionCode(row.code);
      var objects := if row.role in policy then policy[row.role] else map[];
      var actions := if target in objects then objects[target] else {};
      AddRow(policy, row) == policy[row.role := objects[target := actions + {action}]]
  {
    hide SplitPermissionCode;
  }

  lemma NothingIndexed()
    ensures Indexes(map[], [])
  {
  }

  lemma ListsMore(codes: map<string, seq<string>>, rows: seq<Row>, row: Row)
    requires Lists(codes, rows)
    ensures Lists(codes[row.role := CodesIn(codes, row.role) + [row.code]], rows + [row])
  {
    assert (rows + [row])[..|rows|] == rows;
    var codes' := codes[row.role := CodesIn(codes, row.role) + [row.code]];
    forall role ensures CodesIn(codes', role) == CodesOf(rows + [row], role) {
      assert CodesIn(codes, role) == CodesOf(rows, role);
    }
  }

  // ---------- the lookup ----------

  /** Exact object first, then the wildcard object; in each the action, then the wildcard action. */
  predicate MatchPolicy(perms: Objects, target: string, action: string) {
    if target in perms && action in perms[target] then true
    else if target in perms && WILDCARD in perms[target] then true
    else if WILDCARD in perms && action in perms[WILDCARD] then true
    else WILDCARD in perms && WILDCARD in perms[WILDCARD]
  }

  /** The plain check: some row of some held role is for this object or all, and this action or all. */
  ghost predicate Allowed(rows: seq<Row>, roles: seq<string>, target: string, action: string) {
    exists role, o, a :: role in roles && InRows(rows, role, o, a) && (o == target || o == "*") && (a == action || a == "*")
  }

  /** The loop of Enforce over the held roles: the index lookup is the plain check on the rows. */
  method MatchRoles(policy: Index, roles: seq<string>, target: string, action: string, ghost rows: seq<Row>) returns (granted: bool)
    requires Indexes(policy, rows)
    ensures granted <==> Allowed(rows, roles, target, action)
  {
    hide InRows;
    for k := 0 to |roles|
      invariant !Allowed(rows, roles[..k], target, action)
    {
      var role := roles[k];
      assert roles[..k + 1] == roles[..k] + [role];
      if role in policy && MatchPolicy(policy[role], target, action) {
        MatchMeansAllowed(policy, rows, roles, role, target, action);
        return true;
      }
      if Allowed(rows, roles[..k + 1], target, action) { AllowedByOne(policy, rows, roles[..k], role, target, action); }
    }
    assert roles[..|roles|] == roles;
    return false;
  }

  lemma MatchMeansAllowed(policy: Index, rows: seq<Row>, roles: seq<string>, role: string, target: string, action: string)
    requires Indexes(policy, rows) && role in roles && role in policy && MatchPolicy(policy[role], target, action)
    ensures Allowed(rows, roles, target, action)
  {
    hide InRows;
    var o := if target in policy[role] && (action in policy[role][target] || WILDCARD in policy[role][target]) then target else WILDCARD;
    var a := if action in policy[role][o] then action else WILDCARD;
    assert Has(policy, role, o, a);
  }

  lemma AllowedByOne(policy: Index, rows: seq<Row>, before: seq<string>, role: string, target: string, action: string)
    requires Indexes(policy, rows) && Allowed(rows, before + [role], target, action)
    ensures Allowed(rows, before, target, action) || (role in policy && MatchPolicy(policy[role], target, action))
  {
    hide InRows;
    var r, o, a :| r in before + [role] && InRows(rows, r, o, a) && (o == target || o == WILDCARD) && (a == action || a == WILDCARD);
    assert Has(policy, r, o, a);
    assert r in before || r == role;
  }
}
