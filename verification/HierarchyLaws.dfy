/** The reporting hierarchy stays free of cycles, so every team lookup ends. */
module HierarchyLaws {
  import opened Wrappers
  import opened Hierarchy

  // ---------------------------------------------------------------- giving someone a manager

  /** The employee's superior becomes `manager`; everyone else keeps theirs. */
  ghost predicate Reassigned(e: Roster, f: Roster, id: Id, manager: Option<Id>) {
    Up(f, id) == manager && forall x :: x != id ==> Up(f, x) == Up(e, x)
  }

  /** A chain that never meets the employee is the same before and after. */
  lemma {:induction false} ClimbUnchanged(e: Roster, f: Roster, id: Id, manager: Option<Id>, a: Id, n: nat)
    requires Reassigned(e, f, id, manager) && !OnChain(e, a, id)
    ensures Climb(f, a, n) == Climb(e, a, n)
    decreases n
  {
    ChainStart(e, a);
    if n > 0 && Up(e, a).Some? {
      var b := Up(e, a).value;
      if OnChain(e, b, id) {
        ChainStart(e, a);
        ChainStep(e, a, a);
        ChainTransitive(e, a, b, id);
      }
      ClimbUnchanged(e, f, id, manager, b, n - 1);
    }
  }

  /** Where a chain first meets the employee, before and after. */
  lemma {:induction false} FirstMeeting(e: Roster, f: Roster, id: Id, manager: Option<Id>, a: Id, n: nat)
      returns (k: nat)
    requires Reassigned(e, f, id, manager) && Climb(e, a, n) == Some(id)
    ensures k <= n && Climb(e, a, k) == Climb(f, a, k) == Some(id)
    ensures forall j :: 0 <= j < k ==> Climb(f, a, j) == Climb(e, a, j) != Some(id)
    decreases n
  {
    if a == id {
      k := 0;
    } else {
      var b := Up(e, a).value;
      var rest := FirstMeeting(e, f, id, manager, b, n - 1);
      k := rest + 1;
      forall j | 0 <= j < k
        ensures Climb(f, a, j) == Climb(e, a, j) != Some(id)
      {
        if j > 0 {
          assert Climb(f, b, j - 1) == Climb(e, b, j - 1);
        }
      }
    }
  }

  /** A cycle after the change was there before, unless the employee is on the manager's chain. */
  lemma CycleComesFrom(e: Roster, f: Roster, id: Id, m: Id, x: Id)
    requires Reassigned(e, f, id, Some(m)) && OnCycle(f, x)
    ensures OnChain(e, m, id) || OnCycle(e, x)
  {
    if !OnChain(e, m, id) {
      var y := Up(f, x).value;
      var n: nat :| Climb(f, y, n) == Some(x);
      if OnChain(e, y, id) {
        assert x != id;
        var meets: nat :| Climb(e, y, meets) == Some(id);
        var k := FirstMeeting(e, f, id, Some(m), y, meets);
        if n < k {
          assert Climb(e, y, n) == Some(x);
        } else {
          ClimbPlus(f, y, k, n - k);
          assert Climb(f, m, n - k - 1) == Some(x);
          ClimbUnchanged(e, f, id, Some(m), m, n - k - 1);
          ChainStep(e, m, x);
          ChainTransitive(e, m, y, id);
        }
      } else {
        ClimbUnchanged(e, f, id, Some(m), y, n);
        assert OnChain(e, y, x);
      }
    }
  }

  /** Giving an employee a manager makes a cycle exactly when the employee is on the manager's chain. */
  lemma AssignmentAcyclicIff(e: Roster, f: Roster, id: Id, m: Id)
    requires Acyclic(e) && Reassigned(e, f, id, Some(m))
    ensures Acyclic(f) <==> !OnChain(e, m, id)
  {
    if OnChain(e, m, id) {
      var n: nat :| Climb(e, m, n) == Some(id);
      var k := FirstMeeting(e, f, id, Some(m), m, n);
      assert OnCycle(f, id);
    } else {
      forall x
        ensures !OnCycle(f, x)
      {
        if OnCycle(f, x) {
          CycleComesFrom(e, f, id, m, x);
        }
      }
    }
  }

  /** Having no manager closes no cycle. */
  lemma RemovalAcyclic(e: Roster, f: Roster, id: Id)
    requires Acyclic(e) && Reassigned(e, f, id, None)
    ensures Acyclic(f)
  {
    forall x
      ensures !OnCycle(f, x)
    {
      if OnCycle(f, x) {
        var y := Up(f, x).value;
        var n: nat :| Climb(f, y, n) == Some(x);
        ClimbSubset(e, f, id, y, n);
        assert OnCycle(e, x);
      }
    }
  }

  lemma {:induction false} ClimbSubset(e: Roster, f: Roster, id: Id, a: Id, n: nat)
    requires Reassigned(e, f, id, None)
    ensures Climb(f, a, n).Some? ==> Climb(e, a, n) == Climb(f, a, n)
    decreases n
  {
    if n > 0 && Up(f, a).Some? {
      ClimbSubset(e, f, id, Up(f, a).value, n - 1);
    }
  }

  // ---------------------------------------------------------------- the invariant

  /** Managers exist, one row per employee, and nobody is their own superior. */
  ghost predicate Inv(s: Store) {
    && Table(s.employees, s.rows)
    && (forall id :: id in s.employees && s.employees[id].manager.Some? ==>
        s.employees[id].manager.value in s.employees)
    && Acyclic(s.employees)
  }

  /** Nobody reports to someone who is not there. */
  lemma {:induction false} NobodyClimbsTo(e: Roster, a: Id, id: Id, n: nat)
    requires id !in e && a in e
    requires forall x :: x in e && e[x].manager.Some? ==> e[x].manager.value in e
    ensures Climb(e, a, n) != Some(id)
    decreases n
  {
    if n > 0 && Up(e, a).Some? {
      NobodyClimbsTo(e, Up(e, a).value, id, n - 1);
    }
  }

  lemma NewcomerKeeps(s: Store, id: Id, x: Employee)
    requires Inv(s) && id !in s.employees && (x.manager.Some? ==> x.manager.value in s.employees)
    ensures Inv(s.(employees := s.employees[id := x], rows := s.rows + [id]))
  {
    var f := s.employees[id := x];
    assert Reassigned(s.employees, f, id, x.manager);
    if x.manager.Some? {
      if OnChain(s.employees, x.manager.value, id) {
        var n: nat :| Climb(s.employees, x.manager.value, n) == Some(id);
        NobodyClimbsTo(s.employees, x.manager.value, id, n);
      }
      AssignmentAcyclicIff(s.employees, f, id, x.manager.value);
    } else {
      RemovalAcyclic(s.employees, f, id);
    }
    hide Acyclic;
    assert id !in s.rows;
  }

  lemma UpdateKeeps(s: Store, id: Id, role: Option<Role>, vertical: Change<Option<Id>>, manager: Change<Option<Id>>)
    requires Inv(s) && Update(s, id, role, vertical, manager).Success?
    ensures Inv(Update(s, id, role, vertical, manager).value)
  {
    var t := Update(s, id, role, vertical, manager).value;
    var next := t.employees[id].manager;
    assert Reassigned(s.employees, t.employees, id, next);
    if next.Some? {
      AssignmentAcyclicIff(s.employees, t.employees, id, next.value);
    } else {
      RemovalAcyclic(s.employees, t.employees, id);
    }
    hide Acyclic;
  }

  lemma DeleteKeeps(s: Store, id: Id, caller: Id, referenced: bool)
    requires Inv(s) && HardDelete(s, id, caller, referenced).Success?
    ensures Inv(HardDelete(s, id, caller, referenced).value)
  {
    var t := HardDelete(s, id, caller, referenced).value;
    assert Reassigned(s.employees, t.employees, id, None);
    RemovalAcyclic(s.employees, t.employees, id);
    WithoutIs(s.rows, id);
    hide Acyclic;
  }

  /**
   * Granting access sets the manager unchecked: the relation stays acyclic exactly when the check would have
   * passed.
   */
  lemma GrantAccessAcyclicIff(s: Store, id: Id, role: Role, vertical: Option<Id>, manager: Id)
    requires Inv(s) && GrantAccess(s, id, role, vertical, Some(manager)).Success?
    ensures Inv(GrantAccess(s, id, role, vertical, Some(manager)).value) <==> !OnChain(s.employees, manager, id)
    ensures Acyclic(GrantAccess(s, id, role, vertical, Some(manager)).value.employees) <==>
              !OnChain(s.employees, manager, id)
  {
    var t := GrantAccess(s, id, role, vertical, Some(manager)).value;
    assert Reassigned(s.employees, t.employees, id, Some(manager));
    AssignmentAcyclicIff(s.employees, t.employees, id, manager);
    hide Acyclic;
  }

  // ---------------------------------------------------------------- runs

  datatype Op =
    | CreateOp(id: Id, role: Role, vertical: Option<Id>, manager: Option<Id>)
    | OnboardOp(id: Id)
    | UpdateOp(id: Id, newRole: Option<Role>, newVertical: Change<Option<Id>>, newManager: Change<Option<Id>>)
    | DeleteOp(id: Id, caller: Id, referenced: bool)
    | GrantOp(id: Id, role: Role, vertical: Option<Id>, manager: Option<Id>)

  ghost function Apply(s: Store, op: Op): Result<Store, Error> {
    match op
    case CreateOp(id, role, vertical, manager) => Create(s, id, role, vertical, manager)
    case OnboardOp(id) => Onboard(s, id)
    case UpdateOp(id, role, vertical, manager) => Update(s, id, role, vertical, manager)
    case DeleteOp(id, caller, referenced) => HardDelete(s, id, caller, referenced)
    case GrantOp(id, role, vertical, manager) => GrantAccess(s, id, role, vertical, manager)
  }

  /** The store after one call, which changes nothing when it fails. */
  ghost function Step(s: Store, op: Op): Store {
    var r := Apply(s, op);
    if r.Success? then r.value else s
  }

  ghost function Run(s: Store, ops: seq<Op>): Store
    decreases |ops|
  {
    if ops == [] then s else Run(Step(s, ops[0]), ops[1..])
  }

  /** A grant that goes through would have passed the check it skips. */
  ghost predicate GrantChecked(s: Store, op: Op) {
    op.GrantOp? && Apply(s, op).Success? && op.manager.Some? ==> !OnChain(s.employees, op.manager.value, op.id)
  }

  ghost predicate GrantsChecked(s: Store, ops: seq<Op>)
    decreases |ops|
  {
    ops == [] || (GrantChecked(s, ops[0]) && GrantsChecked(Step(s, ops[0]), ops[1..]))
  }

  lemma GrantNobodyKeeps(s: Store, id: Id, role: Role, vertical: Option<Id>)
    requires Inv(s) && GrantAccess(s, id, role, vertical, None).Success?
    ensures Inv(GrantAccess(s, id, role, vertical, None).value)
  {
    var t := GrantAccess(s, id, role, vertical, None).value;
    assert Reassigned(s.employees, t.employees, id, None);
    RemovalAcyclic(s.employees, t.employees, id);
    hide Acyclic;
  }

  lemma StepKeeps(s: Store, op: Op)
    requires Inv(s) && GrantChecked(s, op)
    ensures Inv(Step(s, op))
  {
    hide Inv;
    if Apply(s, op).Success? {
      match op
      case CreateOp(id, role, vertical, manager) =>
          NewcomerKeeps(s, id, Employee(Some(role), vertical, manager, true, false));
      case OnboardOp(id) => NewcomerKeeps(s, id, Employee(None, None, None, true, true));
      case UpdateOp(id, role, vertical, manager) => UpdateKeeps(s, id, role, vertical, manager);
      case DeleteOp(id, caller, referenced) => DeleteKeeps(s, id, caller, referenced);
      case GrantOp(id, role, vertical, Some(manager)) => GrantAccessAcyclicIff(s, id, role, vertical, manager);
      case GrantOp(id, role, vertical, None) => GrantNobodyKeeps(s, id, role, vertical);
    }
  }

  lemma {:induction false} RunKeeps(s: Store, ops: seq<Op>)
    requires Inv(s) && GrantsChecked(s, ops)
    ensures Inv(Run(s, ops))
    decreases |ops|
  {
    if ops != [] {
      StepKeeps(s, ops[0]);
      hide Inv, Step, GrantChecked;
      RunKeeps(Step(s, ops[0]), ops[1..]);
    }
  }

  /**
   In every run of creating, onboarding, updating, deleting and granting access, nobody becomes
   their own superior and every manager exists, provided each grant would pass the check it skips.
   */
  lemma EveryRunAcyclic(verticals: set<Id>, ops: seq<Op>, id: Id)
    requires GrantsChecked(Store(map[], [], verticals), ops)
    ensures var s := Run(Store(map[], [], verticals), ops);
      && Table(s.employees, s.rows)
      && !OnCycle(s.employees, id)
      && (id in s.employees && s.employees[id].manager.Some? ==> s.employees[id].manager.value in s.employees)
  {
    var e := Store(map[], [], verticals);
    assert Inv(e);
    RunKeeps(e, ops);
    hide Run, OnCycle, Table;
  }

  /** Runs without grants need no proviso. */
  lemma {:induction false} WithoutGrants(s: Store, ops: seq<Op>)
    requires forall i :: 0 <= i < |ops| ==> !ops[i].GrantOp?
    ensures GrantsChecked(s, ops)
    decreases |ops|
  {
    if ops != [] {
      WithoutGrants(Step(s, ops[0]), ops[1..]);
    }
  }

  /** The relation is acyclic in every state the run passes through. */
  ghost predicate AlwaysAcyclic(s: Store, ops: seq<Op>)
    decreases |ops|
  {
    Acyclic(s.employees) && (ops == [] || AlwaysAcyclic(Step(s, ops[0]), ops[1..]))
  }

  /** And the proviso is exact: the relation stays acyclic throughout exactly when every grant would have passed. */
  lemma {:induction false} AlwaysAcyclicIff(s: Store, ops: seq<Op>)
    requires Inv(s)
    ensures AlwaysAcyclic(s, ops) <==> GrantsChecked(s, ops)
    decreases |ops|
  {
    hide Acyclic, Table;
    if ops != [] {
      var op := ops[0];
      if GrantChecked(s, op) {
        StepKeeps(s, op);
        hide Step, GrantChecked;
        AlwaysAcyclicIff(Step(s, op), ops[1..]);
      } else {
        GrantAccessAcyclicIff(s, op.id, op.role, op.vertical, op.manager.value);
      }
    }
  }

  /** With granted access it does not hold: two calls after onboarding, two people manage each other. */
  lemma GrantAccessCanCloseCycle()
    ensures var s := Run(Store(map[], [], {"v"}), [OnboardOp("a"), CreateOp("b", Staff, Some("v"), Some("a"))]);
      var t := GrantAccess(s, "a", Staff, Some("v"), Some("b"));
      t.Success? && OnCycle(t.value.employees, "a")
  {
    var e := Store(map[], [], {"v"});
    var first, second := OnboardOp("a"), CreateOp("b", Staff, Some("v"), Some("a"));
    var s1 := Step(e, first);
    var s := Step(s1, second);
    assert [first, second][1..] == [second] && [second][1..] == [];
    assert Run(s, []) == s;
    assert Run(s1, [second]) == s;
    var f := GrantAccess(s, "a", Staff, Some("v"), Some("b")).value.employees;
    assert Climb(f, "a", 0) == Some("a");
    assert Climb(f, "b", 1) == Climb(f, "a", 0);
    assert OnChain(f, "b", "a");
  }
}
