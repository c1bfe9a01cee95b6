/**
 The reporting hierarchy: `create`, `update`, `hardDelete`, `grantAccess`, the upward cycle check and
 the downward team lookup of src/modules/employees/employees.service.ts.
 */
module Hierarchy {
  import opened Wrappers

  type Id = string

  datatype Role = SuperAdmin | Admin | Manager | Staff

  datatype Employee = Employee(role: Option<Role>, vertical: Option<Id>, manager: Option<Id>, active: bool,
      pending: bool)

  type Roster = map<Id, Employee>

  /** `rows` is the order in which the table is read. */
  datatype Store = Store(employees: Roster, rows: seq<Id>, verticals: set<Id>)

  datatype Error = NotFound | BadRequest | Conflict | ForeignKey

  /** A field of a partial update. */
  datatype Change<T> = Keep | Set(value: T)

  // ---------------------------------------------------------------- chains

  /** Whom the employee reports to; nobody when there is no such employee. */
  function Up(e: Roster, id: Id): Option<Id> {
    if id in e then e[id].manager else None
  }

  /** The n-th superior, counting the employee as the zeroth. */
  function Climb(e: Roster, id: Id, n: nat): Option<Id>
    decreases n
  {
    if n == 0 then Some(id)
    else if Up(e, id).None? then None
    else Climb(e, Up(e, id).value, n - 1)
  }

  /** The target is the employee or one of the superiors. */
  ghost predicate OnChain(e: Roster, from: Id, target: Id) {
    exists n: nat :: Climb(e, from, n) == Some(target)
  }

  /** The employee is their own superior. */
  ghost predicate OnCycle(e: Roster, id: Id) {
    Up(e, id).Some? && OnChain(e, Up(e, id).value, id)
  }

  ghost predicate Acyclic(e: Roster) {
    forall id :: !OnCycle(e, id)
  }

  lemma ChainStart(e: Roster, id: Id)
    ensures OnChain(e, id, id)
  {
    assert Climb(e, id, 0) == Some(id);
  }

  lemma {:induction false} ClimbPlus(e: Roster, id: Id, m: nat, n: nat)
    requires Climb(e, id, m).Some?
    ensures Climb(e, id, m + n) == Climb(e, Climb(e, id, m).value, n)
    decreases m
  {
    if m > 0 {
      ClimbPlus(e, Up(e, id).value, m - 1, n);
    }
  }

  lemma ChainStep(e: Roster, from: Id, target: Id)
    requires OnChain(e, from, target) && Up(e, target).Some?
    ensures OnChain(e, from, Up(e, target).value)
  {
    var n: nat :| Climb(e, from, n) == Some(target);
    ClimbPlus(e, from, n, 1);
    assert Climb(e, target, 1) == Climb(e, Up(e, target).value, 0);
    assert Climb(e, from, n + 1) == Some(Up(e, target).value);
  }

  lemma ChainTransitive(e: Roster, a: Id, b: Id, c: Id)
    requires OnChain(e, a, b) && OnChain(e, b, c)
    ensures OnChain(e, a, c)
  {
    var m: nat, n: nat :| Climb(e, a, m) == Some(b) && Climb(e, b, n) == Some(c);
    ClimbPlus(e, a, m, n);
    assert Climb(e, a, m + n) == Some(c);
  }

  // ---------------------------------------------------------------- the upward check

  /** The set is closed upwards, but for the employee still to be visited. */
  ghost predicate Closed(e: Roster, visited: set<Id>, current: Option<Id>) {
    forall id :: id in visited && Up(e, id).Some? ==> Up(e, id).value in visited || current == Up(e, id)
  }

  lemma {:induction false} ClosedHoldsChain(e: Roster, visited: set<Id>, from: Id, n: nat)
    requires Closed(e, visited, None) && from in visited
    ensures Climb(e, from, n).Some? ==> Climb(e, from, n).value in visited
    decreases n
  {
    if n > 0 && Up(e, from).Some? {
      ClosedHoldsChain(e, visited, Up(e, from).value, n - 1);
    }
  }

  lemma ClosedExcludes(e: Roster, visited: set<Id>, from: Id, target: Id)
    requires Closed(e, visited, None) && from in visited && target !in visited
    ensures !OnChain(e, from, target)
  {
    if OnChain(e, from, target) {
      var n: nat :| Climb(e, from, n) == Some(target);
      ClosedHoldsChain(e, visited, from, n);
    }
  }

  /**
   Walks up from the new manager. It ends on every roster, cyclic or not, and refuses exactly
   when the employee lies on the new manager's chain.
   */
  method AssertNoCycle(e: Roster, employeeId: Id, newManagerId: Id) returns (outcome: Outcome<Error>)
    ensures outcome.Fail? <==> OnChain(e, newManagerId, employeeId)
    ensures outcome.Fail? ==> outcome.error == BadRequest
  {
    var currentId := Some(newManagerId);
    var visited: set<Id> := {};
    ChainStart(e, newManagerId);
    while currentId.Some?
      invariant newManagerId in visited || currentId == Some(newManagerId)
      invariant employeeId !in visited
      invariant Closed(e, visited, currentId)
      invariant currentId.Some? ==> OnChain(e, newManagerId, currentId.value)
      decreases e.Keys - visited, currentId.Some? && currentId.value in e, currentId.Some?
    {
      if currentId.value == employeeId {
        return Fail(BadRequest);
      }
      if currentId.value in visited {
        break;
      }
      visited := visited + {currentId.value};
      if Up(e, currentId.value).Some? {
        ChainStep(e, newManagerId, currentId.value);
      }
      currentId := Up(e, currentId.value);
    }
    ClosedExcludes(e, visited, newManagerId, employeeId);
    return Pass;
  }

  // ---------------------------------------------------------------- the operations

  /** A manager and a vertical are required, and must be there, for every role but the highest. */
  function Validate(s: Store, role: Option<Role>, vertical: Option<Id>, manager: Option<Id>): Outcome<Error> {
    if role == Some(SuperAdmin) then Pass
    else if vertical.None? || manager.None? then Fail(BadRequest)
    else if vertical.value !in s.verticals then Fail(BadRequest)
    else if manager.value !in s.employees || !s.employees[manager.value].active then Fail(BadRequest)
    else Pass
  }

  /** The table refuses a reference to nobody. */
  predicate Referable(s: Store, vertical: Option<Id>, manager: Option<Id>) {
    (vertical.Some? ==> vertical.value in s.verticals) && (manager.Some? ==> manager.value in s.employees)
  }

  /** A new employee; `id` is freshly generated, unless it is not. */
  function Create(s: Store, id: Id, role: Role, vertical: Option<Id>, manager: Option<Id>): Result<Store, Error> {
    if Validate(s, Some(role), vertical, manager).Fail? then Failure(BadRequest)
    else if id in s.employees then Failure(Conflict)
    else if !Referable(s, vertical, manager) then Failure(ForeignKey)
    else Success(s.(employees := s.employees[id := Employee(Some(role), vertical, manager, true, false)],
                    rows := s.rows + [id]))
  }

  /** Step one of onboarding: a record without role, vertical or manager. */
  function Onboard(s: Store, id: Id): Result<Store, Error> {
    if id in s.employees then Failure(Conflict)
    else Success(s.(employees := s.employees[id := Employee(None, None, None, true, true)], rows := s.rows + [id]))
  }

  function Merged<T>(change: Change<T>, current: T): T {
    if change.Keep? then current else change.value
  }

  ghost function Update(s: Store, id: Id, role: Option<Role>, vertical: Change<Option<Id>>, manager: Change<Option<Id>>)
    : Result<Store, Error>
  {
    if id !in s.employees then Failure(NotFound)
    else
      var current := s.employees[id];
      var nextRole := if role.Some? then role else current.role;
      var nextVertical, nextManager := Merged(vertical, current.vertical), Merged(manager, current.manager);
      if Validate(s, nextRole, nextVertical, nextManager).Fail? then Failure(BadRequest)
      else if nextManager.Some? && OnChain(s.employees, nextManager.value, id) then Failure(BadRequest)
      else if !Referable(s, nextVertical, nextManager) then Failure(ForeignKey)
      else Success(s.(employees :=
        s.employees[id := current.(role := nextRole, vertical := nextVertical, manager := nextManager)]))
  }

  /** Step two of onboarding, which sets the manager without the upward check. */
  function GrantAccess(s: Store, id: Id, role: Role, vertical: Option<Id>, manager: Option<Id>): Result<Store, Error> {
    if id !in s.employees then Failure(NotFound)
    else if !s.employees[id].pending then Failure(BadRequest)
    else if Validate(s, Some(role), vertical, manager).Fail? then Failure(BadRequest)
    else if !Referable(s, vertical, manager) then Failure(ForeignKey)
    else Success(s.(employees := s.employees[id :=
      s.employees[id].(role := Some(role), vertical := vertical, manager := manager, pending := false)]))
  }

  predicate HasReports(e: Roster, id: Id) {
    exists k :: k in e && e[k].manager == Some(id)
  }

  function Without(rows: seq<Id>, id: Id): seq<Id> {
    if rows == [] then [] else (if rows[0] == id then [] else [rows[0]]) + Without(rows[1..], id)
  }

  /** `referenced`: some other record still names the employee. */
  function HardDelete(s: Store, id: Id, caller: Id, referenced: bool): Result<Store, Error> {
    if id == caller then Failure(BadRequest)
    else if id !in s.employees then Failure(NotFound)
    else if HasReports(s.employees, id) || referenced then Failure(Conflict)
    else Success(s.(employees := s.employees - {id}, rows := Without(s.rows, id)))
  }

  // ---------------------------------------------------------------- the service

  class EmployeesService {
    var employees: Roster
    var rows: seq<Id>
    var verticals: set<Id>

    constructor (verticals: set<Id>)
      ensures State() == Store(map[], [], verticals)
    {
      employees, rows := map[], [];
      this.verticals := verticals;
    }

    function State(): Store
      reads this
    {
      Store(employees, rows, verticals)
    }

    method CreateEmployee(id: Id, role: Role, vertical: Option<Id>, manager: Option<Id>)
        returns (outcome: Outcome<Error>)
      modifies this
      ensures Follows(old(State()), State(), outcome, Create(old(State()), id, role, vertical, manager))
    {
      var valid := Validate(State(), Some(role), vertical, manager);
      if valid.Fail? {
        return valid;
      }
      if id in employees {
        return Fail(Conflict);
      }
      if !Referable(State(), vertical, manager) {
        return Fail(ForeignKey);
      }
      employees := employees[id := Employee(Some(role), vertical, manager, true, false)];
      rows := rows + [id];
      return Pass;
    }

    method UpdateEmployee(id: Id, role: Option<Role>, vertical: Change<Option<Id>>, manager: Change<Option<Id>>)
      returns (outcome: Outcome<Error>)
      modifies this
      ensures Follows(old(State()), State(), outcome, Update(old(State()), id, role, vertical, manager))
    {
      if id !in employees {
        return Fail(NotFound);
      }
      var current := employees[id];
      var nextRole := if role.Some? then role else current.role;
      var nextVertical, nextManager := Merged(vertical, current.vertical), Merged(manager, current.manager);
      var valid := Validate(State(), nextRole, nextVertical, nextManager);
      if valid.Fail? {
        return valid;
      }
      if nextManager.Some? {
        if nextManager.value == id {
          ChainStart(employees, id);
          return Fail(BadRequest);
        }
        var acyclic := AssertNoCycle(employees, id, nextManager.value);
        if acyclic.Fail? {
          return acyclic;
        }
      }
      if !Referable(State(), nextVertical, nextManager) {
        return Fail(ForeignKey);
      }
      employees := employees[id := current.(role := nextRole, vertical := nextVertical, manager := nextManager)];
      return Pass;
    }

    method DeleteEmployee(id: Id, caller: Id, referenced: bool) returns (outcome: Outcome<Error>)
      modifies this
      ensures Follows(old(State()), State(), outcome, HardDelete(old(State()), id, caller, referenced))
    {
      if id == caller {
        return Fail(BadRequest);
      }
      if id !in employees {
        return Fail(NotFound);
      }
      if HasReports(employees, id) || referenced {
        return Fail(Conflict);
      }
      employees := employees - {id};
      rows := Without(rows, id);
      return Pass;
    }
  }

  // ---------------------------------------------------------------- the downward lookup

  /** The rows that report to the manager, in table order. */
  function Reports(e: Roster, rows: seq<Id>, manager: Id): seq<Id> {
    if rows == [] then []
    else Reports(e, rows[..|rows| - 1], manager) +
         if Up(e, rows[|rows| - 1]) == Some(manager) then [rows[|rows| - 1]] else []
  }

  /** One round of the recursive query: the join of the working table with the employees. */
  function Join(e: Roster, rows: seq<Id>, working: seq<Id>): seq<Id> {
    if working == [] then []
    else Join(e, rows, working[..|working| - 1]) + Reports(e, rows, working[|working| - 1])
  }

  /** The table has one row per employee. */
  ghost predicate Table(e: Roster, rows: seq<Id>) {
    Distinct(rows) && forall id :: id in rows <==> id in e
  }

  lemma {:induction false} ReportsAre(e: Roster, rows: seq<Id>, manager: Id)
    requires Distinct(rows)
    ensures Distinct(Reports(e, rows, manager))
    ensures forall x :: x in Reports(e, rows, manager) <==> x in rows && Up(e, x) == Some(manager)
  {
    if rows != [] {
      var init := rows[..|rows| - 1];
      ReportsAre(e, init, manager);
      assert rows == init + [rows[|rows| - 1]];
    }
  }

  lemma DistinctConcat(a: seq<Id>, b: seq<Id>)
    requires Distinct(a) && Distinct(b) && forall x :: x in a ==> x !in b
    ensures Distinct(a + b)
  {
    forall i, j | 0 <= i < j < |a + b|
      ensures (a + b)[i] != (a + b)[j]
    {
      if i < |a| <= j {
        assert (a + b)[i] in a && (a + b)[j] in b;
      }
    }
  }

  lemma {:induction false} JoinIs(e: Roster, rows: seq<Id>, working: seq<Id>)
    requires Distinct(rows) && Distinct(working)
    ensures Distinct(Join(e, rows, working))
    ensures forall x :: x in Join(e, rows, working) <==> x in rows && Up(e, x).Some? && Up(e, x).value in working
  {
    if working != [] {
      var init, last := working[..|working| - 1], working[|working| - 1];
      assert working == init + [last];
      JoinIs(e, rows, init);
      ReportsAre(e, rows, last);
      DistinctConcat(Join(e, rows, init), Reports(e, rows, last));
    }
  }

  /** The loop of the join. */
  method JoinWorking(e: Roster, rows: seq<Id>, working: seq<Id>) returns (next: seq<Id>)
    ensures next == Join(e, rows, working)
  {
    next := [];
    for i := 0 to |working|
      invariant next == Join(e, rows, working[..i])
    {
      assert working[..i + 1][..i] == working[..i];
      ghost var before := next;
      for j := 0 to |rows|
        invariant next == before + Reports(e, rows[..j], working[i])
      {
        assert rows[..j + 1][..j] == rows[..j];
        if Up(e, rows[j]) == Some(working[i]) {
          next := next + [rows[j]];
        }
      }
      assert rows[..|rows|] == rows;
    }
    assert working[..|working|] == working;
  }

  /** Exactly at depth `n` below the manager. */
  ghost predicate AtDepth(e: Roster, manager: Id, x: Id, n: nat) {
    x in e && Climb(e, x, n) == Some(manager)
  }

  /** Some superior of `x`, the first above it or a later one, is the manager. */
  ghost predicate Below(e: Roster, manager: Id, x: Id) {
    x in e && Up(e, x).Some? && OnChain(e, Up(e, x).value, manager)
  }

  /** Nobody is at two depths below a manager who is on no cycle. */
  lemma DepthUnique(e: Roster, manager: Id, x: Id, m: nat, n: nat)
    requires AtDepth(e, manager, x, m) && AtDepth(e, manager, x, n) && !OnCycle(e, manager)
    ensures m == n
  {
    if m < n {
      DepthGap(e, manager, x, m, n);
    } else if n < m {
      DepthGap(e, manager, x, n, m);
    }
  }

  lemma DepthGap(e: Roster, manager: Id, x: Id, m: nat, n: nat)
    requires m < n && Climb(e, x, m) == Some(manager) && Climb(e, x, n) == Some(manager)
    ensures OnCycle(e, manager)
  {
    ClimbPlus(e, x, m, n - m);
    assert Climb(e, manager, n - m) == Some(manager);
    assert Climb(e, Up(e, manager).value, n - m - 1) == Some(manager);
  }

  /** Reporting to someone at depth `n` is being at depth `n + 1`. */
  lemma DepthStep(e: Roster, manager: Id, x: Id, n: nat)
    requires manager in e && x in e
    ensures AtDepth(e, manager, x, n + 1) <==> Up(e, x).Some? && Climb(e, Up(e, x).value, n) == Some(manager)
  {
  }

  /** Everybody on the way up to somebody on the roster's chain is on the roster. */
  lemma ClimbedThrough(e: Roster, id: Id, n: nat)
    requires Climb(e, id, n).Some? && n > 0
    ensures id in e
  {
  }

  /** What the rounds have collected so far. */
  ghost predicate Collected(e: Roster, manager: Id, result: seq<Id>, working: seq<Id>, depth: nat) {
    && Distinct(result) && Distinct(working)
    && (forall x :: x in working <==> AtDepth(e, manager, x, depth))
    && (forall x :: x in result <==> exists n :: 0 <= n <= depth && AtDepth(e, manager, x, n))
  }

  lemma NextRound(e: Roster, rows: seq<Id>, manager: Id, result: seq<Id>, working: seq<Id>, depth: nat)
    requires Table(e, rows) && manager in e && !OnCycle(e, manager)
    requires Collected(e, manager, result, working, depth)
    ensures var next := Join(e, rows, working);
      && Collected(e, manager, result + next, next, depth + 1)
      && (forall x :: x in next ==> x !in result)
  {
    var next := Join(e, rows, working);
    JoinIs(e, rows, working);
    forall x
      ensures x in next <==> AtDepth(e, manager, x, depth + 1)
    {
      JoinIsDepth(e, rows, manager, working, x, depth);
    }
    forall x | x in next && x in result
      ensures false
    {
      var n :| 0 <= n <= depth && AtDepth(e, manager, x, n);
      DepthUnique(e, manager, x, n, depth + 1);
    }
    DistinctConcat(result, next);
    forall x
      ensures x in result + next <==> exists n :: 0 <= n <= depth + 1 && AtDepth(e, manager, x, n)
    {
      if x in result {
        var n :| 0 <= n <= depth && AtDepth(e, manager, x, n);
      } else if x in next {
        assert AtDepth(e, manager, x, depth + 1);
      }
      if n :| 0 <= n <= depth + 1 && AtDepth(e, manager, x, n) {
        assert n == depth + 1 || n <= depth;
      }
    }
  }

  /** When a round finds nobody there is nobody deeper either. */
  lemma {:induction false} NobodyDeeper(e: Roster, manager: Id, depth: nat, x: Id, n: nat)
    requires manager in e && n >= depth && AtDepth(e, manager, x, n)
    ensures exists y :: AtDepth(e, manager, y, depth)
    decreases n
  {
    if n > depth {
      var y := Up(e, x).value;
      assert Climb(e, y, n - 1) == Some(manager);
      if n > 1 {
        ClimbedThrough(e, y, n - 1);
      }
      NobodyDeeper(e, manager, depth, y, n - 1);
    }
  }

  /**
   The recursive query. For a manager on no cycle it ends, whatever cycles there are elsewhere,
   and lists once each exactly the employees with the manager among their superiors.
   */
  method GetTeamIds(e: Roster, rows: seq<Id>, managerId: Id) returns (team: seq<Id>)
    requires Table(e, rows) && !OnCycle(e, managerId)
    ensures Distinct(team)
    ensures managerId in e ==> forall x :: x in team <==> Below(e, managerId, x)
    ensures managerId !in e ==> team == []
  {
    if managerId !in e {
      return [];
    }
    var working := [managerId];
    var result := working;
    ghost var depth := 0;
    while working != []
      invariant Collected(e, managerId, result, working, depth)
      decreases e.Keys - (set x | x in result), |working|
    {
      var next := JoinWorking(e, rows, working);
      NextRound(e, rows, managerId, result, working, depth);
      if next != [] {
        assert next[0] in next && next[0] !in result;
        assert AtDepth(e, managerId, next[0], depth + 1);
        assert next[0] in e.Keys - (set x | x in result);
      }
      assert result <= result + next;
      assert next == [] ==> result + next == result;
      result := result + next;
      working := next;
      depth := depth + 1;
    }
    team := Without(result, managerId);
    WithoutIs(result, managerId);
    forall x
      ensures x in team <==> Below(e, managerId, x)
    {
      TeamIs(e, managerId, result, depth, x);
    }
  }

  lemma {:induction false} WithoutIs(rows: seq<Id>, id: Id)
    requires Distinct(rows)
    ensures Distinct(Without(rows, id))
    ensures forall x :: x in Without(rows, id) <==> x in rows && x != id
  {
    if rows != [] {
      WithoutIs(rows[1..], id);
      assert rows == [rows[0]] + rows[1..];
      DistinctConcat(if rows[0] == id then [] else [rows[0]], Without(rows[1..], id));
    }
  }

  lemma TeamIs(e: Roster, manager: Id, result: seq<Id>, depth: nat, x: Id)
    requires manager in e && !OnCycle(e, manager) && Collected(e, manager, result, [], depth)
    ensures x in result && x != manager <==> Below(e, manager, x)
  {
    if x in result && x != manager {
      var n :| 0 <= n <= depth && AtDepth(e, manager, x, n);
      assert n > 0 && Climb(e, Up(e, x).value, n - 1) == Some(manager);
    }
    if Below(e, manager, x) {
      var n: nat :| Climb(e, Up(e, x).value, n) == Some(manager);
      assert AtDepth(e, manager, x, n + 1);
      if n + 1 >= depth {
        NobodyDeeper(e, manager, depth, x, n + 1);
      }
      assert x in result;
    }
  }

  /** The working table of the n-th round. */
  function Round(e: Roster, rows: seq<Id>, manager: Id, n: nat): seq<Id> {
    if n == 0 then [manager] else Join(e, rows, Round(e, rows, manager, n - 1))
  }

  /** The working table holds exactly the employees at the depth, each once. */
  ghost predicate IsDepth(e: Roster, manager: Id, working: seq<Id>, n: nat) {
    Distinct(working) && forall x :: x in working <==> AtDepth(e, manager, x, n)
  }

  lemma NextDepth(e: Roster, rows: seq<Id>, manager: Id, working: seq<Id>, n: nat)
    requires Table(e, rows) && manager in e && IsDepth(e, manager, working, n)
    ensures IsDepth(e, manager, Join(e, rows, working), n + 1)
  {
    JoinIs(e, rows, working);
    forall x
      ensures x in Join(e, rows, working) <==> AtDepth(e, manager, x, n + 1)
    {
      JoinIsDepth(e, rows, manager, working, x, n);
    }
  }

  /** On any roster, cyclic or not, the n-th round works on exactly the employees at depth n, each once. */
  lemma {:induction false} RoundIsDepth(e: Roster, rows: seq<Id>, manager: Id, n: nat)
    requires Table(e, rows) && manager in e
    ensures IsDepth(e, manager, Round(e, rows, manager, n), n)
  {
    if n > 0 {
      hide IsDepth, Table;
      RoundIsDepth(e, rows, manager, n - 1);
      NextDepth(e, rows, manager, Round(e, rows, manager, n - 1), n - 1);
    }
  }

  /** The table joined from depth n is depth n + 1. */
  lemma JoinIsDepth(e: Roster, rows: seq<Id>, manager: Id, working: seq<Id>, x: Id, n: nat)
    requires Table(e, rows) && manager in e && Distinct(working)
    requires forall y :: y in working <==> AtDepth(e, manager, y, n)
    ensures x in Join(e, rows, working) <==> AtDepth(e, manager, x, n + 1)
  {
    JoinIs(e, rows, working);
    if x in e && Up(e, x).Some? {
      DepthStep(e, manager, x, n);
      if Climb(e, Up(e, x).value, n) == Some(manager) && n > 0 {
        ClimbedThrough(e, Up(e, x).value, n);
      }
    }
  }

  /** For a manager on a cycle no round comes up empty, so the query would never end. */
  lemma CycleNeverEnds(e: Roster, rows: seq<Id>, manager: Id, n: nat)
    requires Table(e, rows) && manager in e && OnCycle(e, manager)
    ensures Round(e, rows, manager, n) != []
  {
    RoundIsDepth(e, rows, manager, n);
    SomebodyAtDepth(e, manager, n);
  }

  lemma SomebodyAtDepth(e: Roster, manager: Id, depth: nat)
    requires manager in e && OnCycle(e, manager)
    ensures exists x :: AtDepth(e, manager, x, depth)
  {
    var n: nat :| Climb(e, Up(e, manager).value, n) == Some(manager);
    CycleAround(e, manager, n + 1, depth);
    NobodyDeeper(e, manager, depth, manager, (n + 1) * depth);
  }

  lemma {:induction false} CycleAround(e: Roster, manager: Id, n: nat, times: nat)
    requires n > 0 && Climb(e, manager, n) == Some(manager)
    ensures n * times >= times && Climb(e, manager, n * times) == Some(manager)
  {
    if times > 0 {
      CycleAround(e, manager, n, times - 1);
      ClimbPlus(e, manager, n * (times - 1), n);
      assert n * times == n * (times - 1) + n;
    }
  }
}
