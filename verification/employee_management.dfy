/**
 * The HR employee manager (src/app/hr/components/EmployeeManagement.tsx).
 *
 * A dialog collects an employee's fields. Opened with "add" it clears the
 * current employee, so saving appends a new employee whose id is the current
 * time in milliseconds as a decimal string; opened with "edit" it remembers
 * the employee, so saving replaces every employee with that id by the form's
 * fields under the remembered id. The id is chosen with `||`, so an edited
 * employee whose id is the empty string receives the time as its new id.
 * Saving closes the dialog. Deleting removes the employees with a given id.
 *
 * The clock reading is a parameter; the submitted form is given as its five
 * text fields.
 */
module EmployeeManagement {
  import opened Common

  datatype Employee = Employee(id: string, name: string, position: string, department: string, email: string,
                               phone: string)

  /** The fields read from the submitted form. */
  datatype Fields = Fields(name: string, position: string, department: string, email: string, phone: string)

  /** `currentEmployee?.id || Date.now().toString()`. */
  function SaveId(current: Option<Employee>, now: nat): (id: string)
    ensures id != ""
    ensures current.Some? && current.value.id != "" ==> id == current.value.id
  {
    if current.Some? && current.value.id != "" then current.value.id else NatToString(now)
  }

  function WithFields(id: string, f: Fields): Employee {
    Employee(id, f.name, f.position, f.department, f.email, f.phone)
  }

  /** `employees.map(emp => emp.id === id ? e : emp)`. */
  function Replace(emps: seq<Employee>, id: string, e: Employee): (r: seq<Employee>)
    ensures |r| == |emps|
    ensures forall i :: 0 <= i < |emps| ==> r[i] == if emps[i].id == id then e else emps[i]
  {
    if emps == [] then [] else [if emps[0].id == id then e else emps[0]] + Replace(emps[1..], id, e)
  }

  /** The list after `handleSave`. */
  function SaveEmployees(emps: seq<Employee>, current: Option<Employee>, f: Fields, now: nat): seq<Employee> {
    var e := WithFields(SaveId(current, now), f);
    if current.Some? then Replace(emps, current.value.id, e) else emps + [e]
  }

  /** `handleDelete`. */
  function DeleteEmployee(emps: seq<Employee>, id: string): (r: seq<Employee>)
    ensures forall e :: e in r <==> e in emps && e.id != id
    ensures forall e :: multiset(r)[e] == if e.id != id then multiset(emps)[e] else 0
    ensures IsSubsequence(r, emps)
  {
    Filter(emps, (e: Employee) => e.id != id)
  }

  /** The manager's state. */
  class EmployeeManagementState {
    var employees: seq<Employee>
    var open: bool
    var current: Option<Employee>

    constructor ()
      ensures employees == [] && !open && current == None
    {
      employees, open, current := [], false, None;
    }

    /** `handleClickOpen`: the next save adds. */
    method HandleClickOpen()
      modifies this`open, this`current
      ensures open && current == None
    {
      current := None;
      open := true;
    }

    /** `handleEdit`: the next save edits `e`. */
    method HandleEdit(e: Employee)
      modifies this`open, this`current
      ensures open && current == Some(e)
    {
      current := Some(e);
      open := true;
    }

    /** `handleClose`: the remembered employee stays. */
    method HandleClose()
      modifies this`open
      ensures !open
    {
      open := false;
    }

    /** `handleSave` of the submitted fields at time `now`. */
    method HandleSave(f: Fields, now: nat)
      requires open
      modifies this`employees, this`open
      ensures !open && current == old(current)
      ensures employees == SaveEmployees(old(employees), current, f, now)
    {
      var e := WithFields(SaveId(current, now), f);
      if current.Some? {
        employees := Replace(employees, current.value.id, e);
      } else {
        employees := employees + [e];
      }
      HandleClose();
    }

    /** `handleDelete`. */
    method HandleDelete(id: string)
      modifies this`employees
      ensures employees == DeleteEmployee(old(employees), id)
    {
      employees := DeleteEmployee(employees, id);
    }
  }

  // ---------------------------------------------------------------------------
  // Properties

  /**
   * Editing an employee with a non-empty id replaces every employee with that
   * id wholesale by the form's fields under the same id, and leaves the
   * length and every other employee as they were.
   */
  lemma EditKeepsIdAndOthers(emps: seq<Employee>, cur: Employee, f: Fields, now: nat)
    requires cur.id != ""
    ensures var r := SaveEmployees(emps, Some(cur), f, now);
            |r| == |emps| &&
            forall i :: 0 <= i < |emps| ==>
              r[i] == if emps[i].id == cur.id then Employee(cur.id, f.name, f.position, f.department, f.email, f.phone)
                      else emps[i]
  {
  }

  /** Adding appends one employee whose id is the time as a decimal string. */
  lemma AddAppendsTimestamped(emps: seq<Employee>, f: Fields, now: nat)
    ensures var r := SaveEmployees(emps, None, f, now);
            |r| == |emps| + 1 && r[..|emps|] == emps && r[|emps|] == WithFields(NatToString(now), f)
            && DigitsValue(r[|emps|].id) == now
  {
    NatToStringRoundTrip(now);
  }

  /** Editing an employee whose id is empty gives every employee with the empty id the time as its id. */
  lemma EditEmptyIdGetsTimestamp(emps: seq<Employee>, cur: Employee, f: Fields, now: nat)
    requires cur.id == ""
    ensures var r := SaveEmployees(emps, Some(cur), f, now);
            forall i :: 0 <= i < |emps| && emps[i].id == "" ==> r[i].id == NatToString(now) && r[i].id != ""
  {
  }
}
