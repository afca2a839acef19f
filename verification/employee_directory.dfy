/**
 * The HR employee directory (src/app/hr/components/EmployeeDirectory.tsx).
 *
 * The directory starts with two employees (ids 1 and 2). A dialog edits a
 * partial employee record (the form): opened on an employee it loads that
 * employee, opened without one it loads blank text fields. Submitting either
 * overlays the form on every employee whose id is the selected one's, or
 * appends a new employee built from the form with id "number of employees
 * plus one", and then closes the dialog, clearing the selection and the form.
 * Deleting removes the employees with a given id.
 */
module EmployeeDirectory {
  import opened Common

  datatype Employee = Employee(id: int, name: string, email: string, position: string, department: string,
                               joinDate: string)

  /** `Partial<Employee>`: a field that is `None` is absent from the object. */
  datatype Form = Form(id: Option<int>, name: Option<string>, email: Option<string>, position: Option<string>,
                       department: Option<string>, joinDate: Option<string>)

  /** The text fields the dialog's inputs are named after. */
  datatype Field = Name | Email | Position | Department | JoinDate

  /** The blank form loaded for a new employee. */
  const BlankForm: Form := Form(None, Some(""), Some(""), Some(""), Some(""), Some(""))

  /** The empty object the form is cleared to. */
  const EmptyForm: Form := Form(None, None, None, None, None, None)

  function InitialEmployees(): seq<Employee> {
    [ Employee(1, "John Doe", "john.doe@company.com", "Software Engineer", "Engineering", "2023-01-15"),
      Employee(2, "Jane Smith", "jane.smith@company.com", "HR Manager", "Human Resources", "2022-08-01") ]
  }

  /** The form holding every field of an employee. */
  function FormOf(e: Employee): Form {
    Form(Some(e.id), Some(e.name), Some(e.email), Some(e.position), Some(e.department), Some(e.joinDate))
  }

  /** All five text fields are present. */
  predicate HasTextFields(f: Form) {
    f.name.Some? && f.email.Some? && f.position.Some? && f.department.Some? && f.joinDate.Some?
  }

  function Pick<T>(o: Option<T>, otherwise: T): T {
    if o.Some? then o.value else otherwise
  }

  /** `{ ...e, ...f }`: the fields present in the form replace the employee's. */
  function Overlay(e: Employee, f: Form): Employee {
    Employee(Pick(f.id, e.id), Pick(f.name, e.name), Pick(f.email, e.email), Pick(f.position, e.position),
             Pick(f.department, e.department), Pick(f.joinDate, e.joinDate))
  }

  /** `{ ...f as Employee, id }`. */
  function FromForm(f: Form, id: int): Employee
    requires HasTextFields(f)
  {
    Employee(id, f.name.value, f.email.value, f.position.value, f.department.value, f.joinDate.value)
  }

  /** `handleInputChange`: one named field takes the typed value. */
  function SetField(f: Form, field: Field, value: string): (r: Form)
    ensures HasTextFields(f) ==> HasTextFields(r)
    ensures r.id == f.id
  {
    match field
    case Name => f.(name := Some(value))
    case Email => f.(email := Some(value))
    case Position => f.(position := Some(value))
    case Department => f.(department := Some(value))
    case JoinDate => f.(joinDate := Some(value))
  }

  /** The update branch of `handleSubmit`. */
  function UpdateEmployees(emps: seq<Employee>, selectedId: int, f: Form): (r: seq<Employee>)
    ensures |r| == |emps|
    ensures forall i :: 0 <= i < |emps| ==> r[i] == if emps[i].id == selectedId then Overlay(emps[i], f) else emps[i]
  {
    if emps == [] then []
    else [if emps[0].id == selectedId then Overlay(emps[0], f) else emps[0]] + UpdateEmployees(emps[1..], selectedId, f)
  }

  /** The add branch of `handleSubmit`. */
  function AddEmployee(emps: seq<Employee>, f: Form): seq<Employee>
    requires HasTextFields(f)
  {
    emps + [FromForm(f, |emps| + 1)]
  }

  /** `handleDelete`. */
  function DeleteEmployee(emps: seq<Employee>, id: int): (r: seq<Employee>)
    ensures forall e :: e in r <==> e in emps && e.id != id
    ensures forall e :: multiset(r)[e] == if e.id != id then multiset(emps)[e] else 0
    ensures IsSubsequence(r, emps)
  {
    Filter(emps, (e: Employee) => e.id != id)
  }

  function Ids(emps: seq<Employee>): (ids: seq<int>)
    ensures |ids| == |emps|
    ensures forall i :: 0 <= i < |emps| ==> ids[i] == emps[i].id
  {
    Project(emps, (e: Employee) => e.id)
  }

  /** The directory's state. */
  class EmployeeDirectoryState {
    var employees: seq<Employee>
    var openDialog: bool
    var selected: Option<Employee>
    var form: Form

    /** While the dialog is open the form has every text field, and an edited employee's id is in the form. */
    ghost predicate Valid()
      reads this
    {
      openDialog ==> HasTextFields(form) && (selected.Some? ==> form.id == Some(selected.value.id))
    }

    constructor ()
      ensures Valid() && employees == InitialEmployees() && !openDialog && selected == None && form == BlankForm
    {
      employees := InitialEmployees();
      openDialog, selected, form := false, None, BlankForm;
    }

    /** `handleOpenDialog`: loads the employee, or blank fields and no selection. */
    method HandleOpenDialog(employee: Option<Employee>)
      modifies this`openDialog, this`selected, this`form
      ensures Valid() && openDialog && selected == employee
      ensures form == if employee.Some? then FormOf(employee.value) else BlankForm
    {
      if employee.Some? {
        selected := employee;
        form := FormOf(employee.value);
      } else {
        selected := None;
        form := BlankForm;
      }
      openDialog := true;
    }

    /** `handleCloseDialog`. */
    method HandleCloseDialog()
      modifies this`openDialog, this`selected, this`form
      ensures Valid() && !openDialog && selected == None && form == EmptyForm
    {
      openDialog, selected, form := false, None, EmptyForm;
    }

    /** `handleInputChange` on one of the dialog's text fields. */
    method HandleInputChange(field: Field, value: string)
      requires Valid()
      modifies this`form
      ensures Valid() && form == SetField(old(form), field, value)
    {
      form := SetField(form, field, value);
    }

    /** `handleSubmit`, from the open dialog. */
    method HandleSubmit()
      requires Valid() && openDialog
      modifies this
      ensures Valid() && !openDialog && selected == None && form == EmptyForm
      ensures employees == if old(selected).Some? then UpdateEmployees(old(employees), old(selected).value.id, old(form))
                           else AddEmployee(old(employees), old(form))
    {
      if selected.Some? {
        employees := UpdateEmployees(employees, selected.value.id, form);
      } else {
        employees := employees + [FromForm(form, |employees| + 1)];
      }
      HandleCloseDialog();
    }

    /** `handleDelete`. */
    method HandleDelete(id: int)
      modifies this`employees
      ensures employees == DeleteEmployee(old(employees), id)
    {
      employees := DeleteEmployee(employees, id);
    }
  }

  // ---------------------------------------------------------------------------
  // Properties

  /**
   * An update from a form that carries the selected id (as the dialog's
   * always does) keeps every id, the length and the order; the employees
   * with the selected id take the form's text fields and every other
   * employee is unchanged.
   */
  lemma UpdateChangesOnlySelected(emps: seq<Employee>, selectedId: int, f: Form)
    requires f.id == Some(selectedId) && HasTextFields(f)
    ensures var r := UpdateEmployees(emps, selectedId, f);
            && Ids(r) == Ids(emps)
            && (forall i :: 0 <= i < |emps| && emps[i].id == selectedId ==> r[i] == FromForm(f, selectedId))
            && (forall i :: 0 <= i < |emps| && emps[i].id != selectedId ==> r[i] == emps[i])
  {
  }

  /** Adding appends exactly one employee, built from the form, whose id is the old length plus one. */
  lemma AddAppendsOne(emps: seq<Employee>, f: Form)
    requires HasTextFields(f)
    ensures var r := AddEmployee(emps, f);
            |r| == |emps| + 1 && r[..|emps|] == emps && r[|emps|].id == |emps| + 1 &&
            r[|emps|].name == f.name.value && r[|emps|].email == f.email.value &&
            r[|emps|].position == f.position.value && r[|emps|].department == f.department.value &&
            r[|emps|].joinDate == f.joinDate.value
  {
  }

  /** Deleting leaves no employee with that id. */
  lemma DeleteRemovesId(emps: seq<Employee>, id: int)
    ensures id !in Ids(DeleteEmployee(emps, id))
  {
    var r := DeleteEmployee(emps, id);
    forall i | 0 <= i < |r| ensures Ids(r)[i] != id {
      assert r[i] in r;
    }
  }

  /**
   * Ids are not kept unique: deleting employee 1 from the initial directory
   * and adding one from the blank form leaves two employees with id 2.
   */
  lemma DeleteThenAddDuplicatesId()
    ensures Ids(AddEmployee(DeleteEmployee(InitialEmployees(), 1), BlankForm)) == [2, 2]
  {
    var init := InitialEmployees();
    var keep := (e: Employee) => e.id != 1;
    assert init == [init[0]] + [init[1]];
    FilterAppend([init[0]], [init[1]], keep);
    assert [init[0]][1..] == [] && [init[1]][1..] == [];
    assert DeleteEmployee(init, 1) == [init[1]];
  }
}
