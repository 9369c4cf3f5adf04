/**
 * The employee service of the music catalogue: creating and updating
 * employees with e-mail uniqueness, deleting only employees nobody reports
 * to and who serve no customer, assigning managers without ever closing a
 * cycle, and listing an employee's hierarchy.
 */
module EmployeeService {
  import opened Wrappers
  import opened ChinookDtos
  import opened Employees

  /**
   * The employee table, and the support rep of each customer that has one
   * (the customers an employee serves).
   */
  class EmployeeStore {
    var employees: map<int, Employee>
    var supportReps: map<int, int>
    var nextId: int
    /** Witness of acyclicity: a manager ranks below its reports, every rank below `bound`. */
    ghost var rank: map<int, nat>
    ghost var bound: nat

    ghost predicate Valid()
      reads this
    {
      (forall k :: k in employees ==> k < nextId)
      && Ranked(employees, rank) && Bounded(employees, rank, bound)
      && (forall c :: c in supportReps ==> supportReps[c] in employees)
    }

    /** No two employees share an e-mail address. */
    predicate EmailsUnique()
      reads this
    {
      forall a, b :: a in employees && b in employees && a != b && employees[a].email.Some? ==>
        employees[a].email != employees[b].email
    }

    /** `findByEmail(email)` finds an employee other than `except`. */
    predicate EmailHeld(email: string, except: Option<int>)
      reads this
    {
      exists k :: k in employees && employees[k].email == Some(email) && Some(k) != except
    }

    /** The customers `id` serves. */
    function Customers(id: int): (cs: set<int>)
      reads this
      ensures forall c :: c in cs <==> c in supportReps && supportReps[c] == id
    {
      set c | c in supportReps && supportReps[c] == id
    }

    constructor(employees: map<int, Employee>, supportReps: map<int, int>, nextId: int,
                ghost rank: map<int, nat>, ghost bound: nat)
      requires forall k :: k in employees ==> k < nextId
      requires Ranked(employees, rank) && Bounded(employees, rank, bound)
      requires forall c :: c in supportReps ==> supportReps[c] in employees
      ensures Valid()
      ensures this.employees == employees && this.supportReps == supportReps && this.nextId == nextId
    {
      this.employees, this.supportReps, this.nextId := employees, supportReps, nextId;
      this.rank, this.bound := rank, bound;
    }

    /**
     * createEmployee: a non-null e-mail some employee already has is an
     * IllegalArgumentException and nothing is saved; otherwise a new row
     * without a manager. A null e-mail skips the check.
     */
    method CreateEmployee(dto: EmployeeDto) returns (r: Result<int, Exception>)
      requires Valid() && NewEmployeeDto(dto).Ok?
      modifies this
      ensures Valid() && supportReps == old(supportReps)
      ensures dto.email.Some? && old(EmailHeld(dto.email.value, None)) ==>
                r == Err(IllegalArgument) && employees == old(employees) && nextId == old(nextId)
      ensures !(dto.email.Some? && old(EmailHeld(dto.email.value, None))) ==>
                r == Ok(old(nextId)) && old(nextId) !in old(employees)
                && employees == old(employees)[old(nextId) := FromDto(dto, None)]
      ensures old(EmailsUnique()) ==> EmailsUnique()
    {
      if dto.email.Some? && exists k :: k in employees && employees[k].email == dto.email {
        return Err(IllegalArgument);
      }
      r := Ok(nextId);
      AddTopLevel(employees, rank, bound, nextId, FromDto(dto, None));
      employees := employees[nextId := FromDto(dto, None)];
      rank := rank[nextId := 0];
      bound := bound + 1;
      nextId := nextId + 1;
    }

    /**
     * updateEmployee: an unknown id is an EntityNotFoundException; then an
     * e-mail held by a different employee is an IllegalArgumentException;
     * otherwise the data fields are overwritten and the manager is kept.
     */
    method UpdateEmployee(id: int, dto: EmployeeDto) returns (r: Result<Employee, Exception>)
      requires Valid() && NewEmployeeDto(dto).Ok?
      modifies this
      ensures Valid() && supportReps == old(supportReps) && nextId == old(nextId)
      ensures id !in old(employees) ==> r == Err(EntityNotFound) && employees == old(employees)
      ensures id in old(employees) && dto.email.Some? && old(EmailHeld(dto.email.value, Some(id))) ==>
                r == Err(IllegalArgument) && employees == old(employees)
      ensures id in old(employees) && !(dto.email.Some? && old(EmailHeld(dto.email.value, Some(id)))) ==>
                r == Ok(FromDto(dto, old(employees)[id].reportsTo))
                && employees == old(employees)[id := FromDto(dto, old(employees)[id].reportsTo)]
      ensures old(EmailsUnique()) ==> EmailsUnique()
    {
      if id !in employees {
        return Err(EntityNotFound);
      }
      if dto.email.Some? && exists k :: k in employees && employees[k].email == dto.email && k != id {
        return Err(IllegalArgument);
      }
      var row := FromDto(dto, employees[id].reportsTo);
      employees := employees[id := row];
      r := Ok(row);
    }

    /**
     * deleteEmployee: an unknown id is an EntityNotFoundException; an
     * employee with direct reports, and then one serving customers, is an
     * IllegalStateException; only otherwise is the row removed.
     */
    method DeleteEmployee(id: int) returns (thrown: Option<Exception>)
      requires Valid()
      modifies this
      ensures Valid() && supportReps == old(supportReps) && nextId == old(nextId)
      ensures id !in old(employees) ==> thrown == Some(EntityNotFound) && employees == old(employees)
      ensures id in old(employees) && Subordinates(old(employees), id) != {} ==>
                thrown == Some(IllegalState) && employees == old(employees)
      ensures id in old(employees) && Subordinates(old(employees), id) == {} && old(Customers(id)) != {} ==>
                thrown == Some(IllegalState) && employees == old(employees)
      ensures id in old(employees) && Subordinates(old(employees), id) == {} && old(Customers(id)) == {} ==>
                thrown == None && employees == old(employees) - {id}
    {
      if id !in employees {
        return Some(EntityNotFound);
      }
      if Subordinates(employees, id) != {} {
        return Some(IllegalState);
      }
      if Customers(id) != {} {
        return Some(IllegalState);
      }
      employees := employees - {id};
      thrown := None;
    }

    /** getEmployee: the row, or an EntityNotFoundException for an unknown id. */
    function GetEmployee(id: int): (r: Result<Employee, Exception>)
      reads this
      ensures r.Ok? <==> id in employees
      ensures r.Ok? ==> r.value == employees[id]
      ensures r.Err? ==> r.error == EntityNotFound
    {
      if id in employees then Ok(employees[id]) else Err(EntityNotFound)
    }

    /** getEmployeeCustomerCount: how many customers the employee serves; unknown ids are not found. */
    function GetEmployeeCustomerCount(id: int): (r: Result<nat, Exception>)
      reads this
      ensures r.Ok? <==> id in employees
      ensures r.Ok? ==> r.value == |set c | c in supportReps && supportReps[c] == id|
      ensures r.Err? ==> r.error == EntityNotFound
    {
      if id in employees then Ok(|Customers(id)|) else Err(EntityNotFound)
    }

    /**
     * validateManagerAssignment: walks up the chain from the manager and
     * throws IllegalArgumentException when it meets the employee, that is
     * exactly when the employee is the manager or above it.
     */
    method ValidateManagerAssignment(e: int, m: int) returns (thrown: Option<Exception>)
      requires Valid() && m in employees
      ensures thrown == (if Reaches(employees, rank, m, e) then Some(IllegalArgument) else None)
    {
      var current := Some(m);
      while current.Some?
        invariant current.Some? ==> current.value in employees
        invariant Reaches(employees, rank, m, e) <==> current.Some? && Reaches(employees, rank, current.value, e)
        decreases if current.Some? then rank[current.value] + 1 else 0
      {
        if current.value == e {
          return Some(IllegalArgument);
        }
        current := employees[current.value].reportsTo;
      }
      thrown := None;
    }

    /**
     * assignManager: the same id twice is an IllegalArgumentException before
     * any lookup; an unknown employee, then an unknown manager, is an
     * EntityNotFoundException; a manager at or below the employee is an
     * IllegalArgumentException. Otherwise only the employee's manager
     * changes, and the structure stays acyclic.
     */
    method AssignManager(e: int, m: int) returns (r: Result<Employee, Exception>)
      requires Valid()
      modifies this
      ensures Valid() && supportReps == old(supportReps) && nextId == old(nextId)
      ensures e == m ==> r == Err(IllegalArgument) && employees == old(employees)
      ensures e != m && e !in old(employees) ==> r == Err(EntityNotFound) && employees == old(employees)
      ensures e != m && e in old(employees) && m !in old(employees) ==>
                r == Err(EntityNotFound) && employees == old(employees)
      ensures e != m && e in old(employees) && m in old(employees) ==>
                if old(Reaches(employees, rank, m, e)) then r == Err(IllegalArgument) && employees == old(employees)
                else r == Ok(old(employees)[e].(reportsTo := Some(m)))
                     && employees == old(employees)[e := old(employees)[e].(reportsTo := Some(m))]
    {
      if e == m {
        return Err(IllegalArgument);
      }
      if e !in employees {
        return Err(EntityNotFound);
      }
      if m !in employees {
        return Err(EntityNotFound);
      }
      var thrown := ValidateManagerAssignment(e, m);
      if thrown.Some? {
        return Err(thrown.value);
      }
      Reparent(employees, rank, e, m);
      ReparentBounded(employees, rank, bound, e, m);
      rank := Shifted(employees, rank, e, m);
      bound := bound + rank[m] + 1;
      var row := employees[e].(reportsTo := Some(m));
      employees := employees[e := row];
      r := Ok(row);
    }

    /** getEmployeeHierarchy: the listing under the root, or EntityNotFoundException for an unknown root. */
    method GetEmployeeHierarchy(root: int) returns (r: Result<seq<int>, Exception>)
      requires Valid()
      ensures root !in employees ==> r == Err(EntityNotFound)
      ensures root in employees ==> r == Ok(PreOrder(employees, rank, bound, root))
    {
      if root !in employees {
        return Err(EntityNotFound);
      }
      var hierarchy := BuildHierarchy(employees, rank, bound, root, []);
      assert [] + PreOrder(employees, rank, bound, root) == PreOrder(employees, rank, bound, root);
      r := Ok(hierarchy);
    }
  }

  /** buildHierarchy: appends `x`, then recurses into its direct reports in Before order. */
  method BuildHierarchy(emps: map<int, Employee>, ghost rank: map<int, nat>, ghost bound: nat, x: int,
                        hierarchy: seq<int>) returns (h: seq<int>)
    requires Ranked(emps, rank) && Bounded(emps, rank, bound) && x in emps
    ensures h == hierarchy + PreOrder(emps, rank, bound, x)
    decreases bound - rank[x]
  {
    var subs := Sorted(emps, Subordinates(emps, x));
    var prefix := hierarchy + [x];
    h := prefix;
    SortedReports(emps, x);
    for i := 0 to |subs|
      invariant ReportsTo(emps, subs[..i], x)
      invariant h == prefix + Forest(emps, rank, bound, x, subs[..i])
    {
      HierarchyStep(emps, rank, bound, x, subs, i);
      SeqAssoc(prefix, Forest(emps, rank, bound, x, subs[..i]), PreOrder(emps, rank, bound, subs[i]));
      h := BuildHierarchy(emps, rank, bound, subs[i], h);
    }
    assert subs[..|subs|] == subs;
    SeqAssoc(hierarchy, [x], Forest(emps, rank, bound, x, subs));
  }

  /**
   * The listing under an employee starts with it and holds, once each,
   * exactly the employees whose chain of managers reaches it.
   */
  lemma HierarchyListsSubtree(emps: map<int, Employee>, rank: map<int, nat>, bound: nat, root: int)
    requires Ranked(emps, rank) && Bounded(emps, rank, bound) && root in emps
    ensures var h := PreOrder(emps, rank, bound, root);
            h[0] == root && Distinct(h)
            && forall y :: y in h <==> y in emps && Reaches(emps, rank, y, root)
  {
    PreOrderMembers(emps, rank, bound, root);
    PreOrderDistinct(emps, rank, bound, root);
  }
}
