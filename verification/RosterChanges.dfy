/** What each call does to the roster, employee by employee. */
module RosterChanges {
  import opened Wrappers
  import opened Hierarchy
  import opened HierarchyLaws

  /** The highest role needs neither; every other an active manager and a known vertical. */
  predicate Placed(s: Store, role: Option<Role>, vertical: Option<Id>, manager: Option<Id>) {
    && (role != Some(SuperAdmin) ==>
          && vertical.Some? && manager.Some?
          && manager.value in s.employees && s.employees[manager.value].active)
    && (vertical.Some? ==> vertical.value in s.verticals)
    && (manager.Some? ==> manager.value in s.employees)
  }

  lemma PlacedIff(s: Store, role: Option<Role>, vertical: Option<Id>, manager: Option<Id>)
    ensures Placed(s, role, vertical, manager) <==>
            Validate(s, role, vertical, manager).Pass? && Referable(s, vertical, manager)
  {
  }

  /** Nobody on the way up from the manager is the employee. */
  ghost predicate NotBelow(e: Roster, manager: Id, id: Id) {
    forall n: nat :: Climb(e, manager, n) != Some(id)
  }

  /** What becomes of an employee, or of an id nobody has yet. */
  ghost predicate Becomes(s: Store, op: Op, id: Id, after: Option<Employee>) {
    var was := if id in s.employees then Some(s.employees[id]) else None;
    match op
    case CreateOp(n, role, vertical, manager) =>
      n == id && was.None? && Placed(s, Some(role), vertical, manager)
      && after == Some(Employee(Some(role), vertical, manager, true, false))
    case OnboardOp(n) => n == id && was.None? && after == Some(Employee(None, None, None, true, true))
    case UpdateOp(n, newRole, newVertical, newManager) =>
      n == id && was.Some?
      && var role := if newRole.Some? then newRole else was.value.role;
      var vertical := if newVertical.Set? then newVertical.value else was.value.vertical;
      var manager := if newManager.Set? then newManager.value else was.value.manager;
      && Placed(s, role, vertical, manager)
      && (manager.Some? ==> NotBelow(s.employees, manager.value, id))
      && after == Some(Employee(role, vertical, manager, was.value.active, was.value.pending))
    case DeleteOp(n, caller, referenced) =>
      n == id && was.Some? && id != caller && !referenced && after.None?
      && forall k :: k in s.employees ==> s.employees[k].manager != Some(id)
    case GrantOp(n, role, vertical, manager) =>
      n == id && was.Some? && was.value.pending && Placed(s, Some(role), vertical, manager)
      && after == Some(Employee(Some(role), vertical, manager, was.value.active, false))
  }

  /** Every id either becomes what its call says, or stays as it is because the call says nothing of it. */
  lemma RosterAfter(s: Store, op: Op, id: Id)
    ensures var t := HierarchyLaws.Step(s, op);
      var was := if id in s.employees then Some(s.employees[id]) else None;
      var after := if id in t.employees then Some(t.employees[id]) else None;
      && t.verticals == s.verticals
      && (Becomes(s, op, id, after) || (after == was && forall x :: !Becomes(s, op, id, x)))
  {
    match op
    case CreateOp(_, role, vertical, manager) => PlacedIff(s, Some(role), vertical, manager);
    case GrantOp(_, role, vertical, manager) => PlacedIff(s, Some(role), vertical, manager);
    case UpdateOp(n, newRole, newVertical, newManager) =>
      if n in s.employees {
        var current := s.employees[n];
        PlacedIff(s, if newRole.Some? then newRole else current.role, Merged(newVertical, current.vertical),
                  Merged(newManager, current.manager));
      }
    case _ =>
  }

  /** The highest role, or an active manager and a known vertical. */
  predicate Suits(s: Store, role: Option<Role>, vertical: Option<Id>, manager: Option<Id>) {
    || role == Some(SuperAdmin)
    || (&& vertical.Some? && vertical.value in s.verticals
        && manager.Some? && manager.value in s.employees && s.employees[manager.value].active)
  }

  lemma SuitsIff(s: Store, role: Option<Role>, vertical: Option<Id>, manager: Option<Id>)
    ensures Validate(s, role, vertical, manager).Pass? <==> Suits(s, role, vertical, manager)
  {
  }

  /** An update refused for itself, not for a reference to nobody. */
  ghost predicate UpdateUnfit(s: Store, id: Id, newRole: Option<Role>, newVertical: Change<Option<Id>>,
      newManager: Change<Option<Id>>)
    requires id in s.employees
  {
    var was := s.employees[id];
    var role := if newRole.Some? then newRole else was.role;
    var vertical := if newVertical.Set? then newVertical.value else was.vertical;
    var manager := if newManager.Set? then newManager.value else was.manager;
    !Suits(s, role, vertical, manager) || (manager.Some? && !NotBelow(s.employees, manager.value, id))
  }

  /** Which error a refused call gives. */
  lemma RefusedWith(s: Store, op: Op)
    requires Apply(s, op).Failure?
    ensures Apply(s, op).error ==
            match op
            case CreateOp(id, role, vertical, manager) =>
              if !Suits(s, Some(role), vertical, manager) then BadRequest
              else if id in s.employees then Conflict else ForeignKey
            case OnboardOp(_) => Conflict
            case UpdateOp(id, newRole, newVertical, newManager) =>
              if id !in s.employees then NotFound
              else if UpdateUnfit(s, id, newRole, newVertical, newManager) then BadRequest else ForeignKey
            case DeleteOp(id, caller, _) =>
              if id == caller then BadRequest else if id !in s.employees then NotFound else Conflict
            case GrantOp(id, role, vertical, manager) =>
              if id !in s.employees then NotFound
              else if !s.employees[id].pending || !Suits(s, Some(role), vertical, manager) then BadRequest
              else ForeignKey
  {
    forall role, vertical, manager
      ensures Validate(s, role, vertical, manager).Pass? <==> Suits(s, role, vertical, manager)
    {
      SuitsIff(s, role, vertical, manager);
    }
    hide Validate, Suits;
  }
}
