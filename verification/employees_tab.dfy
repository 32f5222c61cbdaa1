/** The employees tab (components/dashboard/tabs/employees-tab.tsx): the employee list with its
    add, edit and delete dialogs. Employees are JSON objects; the form holds the eight properties
    the dialogs edit, each possibly undefined after it was loaded from an employee without it. The
    clock reading behind the new id and the hire date is a parameter. */
module EmployeesTab {
  import opened Wrappers
  import opened JsText
  import opened Json
  import opened Seqs
  import opened TabList

  /** The form's properties, in the order of the form object. */
  datatype Form = Form(
    firstName: Option<Json>,
    lastName: Option<Json>,
    role: Option<Json>,
    siteId: Option<Json>,
    email: Option<Json>,
    phone: Option<Json>,
    salary: Option<Json>,
    status: Option<Json>)

  const Keys: seq<string> := ["firstName", "lastName", "role", "siteId", "email", "phone", "salary", "status"]

  /** The form object as key/value pairs, keyed by `Keys`. */
  function Pairs(form: Form): (r: seq<(string, Option<Json>)>)
    ensures KeysOf(r) == Keys
  {
    [("firstName", form.firstName), ("lastName", form.lastName), ("role", form.role), ("siteId", form.siteId),
     ("email", form.email), ("phone", form.phone), ("salary", form.salary), ("status", form.status)]
  }

  /** The form the tab starts with and returns to after an add. */
  const Blank: Form := Form(Some(Str("")), Some(Str("")), Some(Str("Guide")), Some(Str("")), Some(Str("")),
                            Some(Str("")), Some(Num(0.0)), Some(Str("active")))

  /** The tab's state: the list, the form and the employee the edit or delete dialog is about. */
  datatype Tab = Tab(employees: seq<Row>, form: Form, selected: Option<Row>)

  /** The form's keys are distinct, and neither `id` nor `hireDate` is one of them. */
  lemma KeysDistinct()
    ensures forall i, j | 0 <= i < j < |Keys| :: Keys[i] != Keys[j]
    ensures forall j | 0 <= j < |Keys| :: Keys[j] != "id" && Keys[j] != "hireDate"
  {
  }

  /** `!formData.firstName || !formData.lastName || !formData.siteId` refuses the add. */
  predicate Complete(form: Form) {
    Truthy(form.firstName) && Truthy(form.lastName) && Truthy(form.siteId)
  }

  /** `{ id: `emp-${Date.now()}`, ...formData, hireDate }`. */
  function Hire(form: Form, now: nat, today: string): Row {
    Overlay([("id", Str("emp-" + NatText(now)))], Pairs(form) + [("hireDate", Some(Str(today)))])
  }

  /** The new employee has the generated id, the form's values and the hire date, and nothing else. */
  lemma HireFields(form: Form, now: nat, today: string)
    ensures Id(Hire(form, now, today)) == Some(Str("emp-" + NatText(now)))
    ensures Get(Hire(form, now, today), "hireDate") == Some(Str(today))
    ensures Carries(Hire(form, now, today), Pairs(form))
    ensures forall k | k !in Keys && k != "id" && k != "hireDate" :: Get(Hire(form, now, today), k) == None
  {
    var pairs := Pairs(form) + [("hireDate", Some(Str(today)))];
    var base: Row := [("id", Str("emp-" + NatText(now)))];
    forall k ensures Get(base, k) == if k == "id" then Some(Str("emp-" + NatText(now))) else None {
      GetOfOne("id", Str("emp-" + NatText(now)), k);
    }
    KeysDistinct();
    assert KeysOf(pairs) == Keys + ["hireDate"];
    OverlayDistinct(base, pairs);
    assert pairs[|Keys|] == ("hireDate", Some(Str(today)));
    assert forall j | 0 <= j < |Keys| :: pairs[j] == Pairs(form)[j];
  }

  /** `handleAddEmployee`: an incomplete form changes nothing; otherwise one employee is appended
      and the form is reset. */
  function AddEmployee(tab: Tab, now: nat, today: string): (r: Tab)
    ensures !Complete(tab.form) ==> r == tab
    ensures Complete(tab.form) ==> |r.employees| == |tab.employees| + 1
    ensures Complete(tab.form) ==> r.employees[..|tab.employees|] == tab.employees
    ensures Complete(tab.form) ==> Carries(r.employees[|tab.employees|], Pairs(tab.form))
    ensures Complete(tab.form) ==> Id(r.employees[|tab.employees|]) == Some(Str("emp-" + NatText(now)))
    ensures Complete(tab.form) ==> Get(r.employees[|tab.employees|], "hireDate") == Some(Str(today))
    ensures Complete(tab.form) ==> r.form == Blank && r.selected == tab.selected
  {
    if !Complete(tab.form) then tab
    else
      HireFields(tab.form, now, today);
      var hired := Hire(tab.form, now, today);
      assert (tab.employees + [hired])[..|tab.employees|] == tab.employees;
      tab.(employees := tab.employees + [hired], form := Blank)
  }

  /** `openEditDialog`: select the employee and load its eight properties into the form. */
  function OpenEdit(tab: Tab, employee: Row): (r: Tab)
    ensures r.employees == tab.employees && r.selected == Some(employee)
    ensures Carries(employee, Pairs(r.form))
  {
    var form := Form(Get(employee, "firstName"), Get(employee, "lastName"), Get(employee, "role"),
                     Get(employee, "siteId"), Get(employee, "email"), Get(employee, "phone"),
                     Get(employee, "salary"), Get(employee, "status"));
    tab.(selected := Some(employee), form := form)
  }

  /** The delete button: select the employee the confirmation is about. */
  function AskDelete(tab: Tab, employee: Row): (r: Tab)
    ensures r.employees == tab.employees && r.form == tab.form && r.selected == Some(employee)
  {
    tab.(selected := Some(employee))
  }

  /** `handleEditEmployee`: with no selection nothing changes; otherwise every employee with the
      selected id takes the form's values and keeps its other properties (its id and hire date
      among them), every other employee is untouched, and the selection is cleared. */
  function EditEmployee(tab: Tab): (r: Tab)
    ensures tab.selected.None? ==> r == tab
    ensures tab.selected.Some? ==> r.selected.None? && r.form == tab.form
    ensures |r.employees| == |tab.employees|
    ensures forall i | 0 <= i < |tab.employees| && (tab.selected.None? || Id(tab.employees[i]) != Id(tab.selected.value))
              :: r.employees[i] == tab.employees[i]
    ensures tab.selected.Some? ==>
              forall i | 0 <= i < |tab.employees| && Id(tab.employees[i]) == Id(tab.selected.value) ::
                Carries(r.employees[i], Pairs(tab.form)) &&
                (forall k | k !in Keys :: Get(r.employees[i], k) == Get(tab.employees[i], k))
  {
    match tab.selected
    case None => tab
    case Some(chosen) =>
      var edited := UpdateWhere(tab.employees, Id(chosen), (e: Row) => Overlay(e, Pairs(tab.form)));
      KeysDistinct();
      forall i | 0 <= i < |tab.employees| && Id(tab.employees[i]) == Id(chosen)
        ensures Carries(edited[i], Pairs(tab.form))
        ensures forall k | k !in Keys :: Get(edited[i], k) == Get(tab.employees[i], k)
      {
        OverlayDistinct(tab.employees[i], Pairs(tab.form));
      }
      Tab(edited, tab.form, None)
  }

  /** `handleDeleteEmployee`: with no selection nothing changes; otherwise exactly the employees
      with the selected id go, the rest stay in order, and the selection is cleared. */
  function DeleteEmployee(tab: Tab): (r: Tab)
    ensures tab.selected.None? ==> r == tab
    ensures tab.selected.Some? ==> r.selected.None? && r.form == tab.form
    ensures tab.selected.Some? ==> r.employees == RemoveWhere(tab.employees, Id(tab.selected.value))
    ensures tab.selected.Some? ==>
              forall i | 0 <= i < |tab.employees| ::
                tab.employees[i] in r.employees <==> Id(tab.employees[i]) != Id(tab.selected.value)
  {
    match tab.selected
    case None => tab
    case Some(chosen) =>
      RemoveWhereExact(tab.employees, Id(chosen));
      Tab(RemoveWhere(tab.employees, Id(chosen)), tab.form, None)
  }

  /** Opening the edit dialog and saving without touching the form leaves the list exactly as it
      was, when every employee sharing the id is the opened one. */
  lemma SaveUnchanged(tab: Tab, employee: Row)
    requires forall i | 0 <= i < |tab.employees| && Id(tab.employees[i]) == Id(employee) :: tab.employees[i] == employee
    ensures EditEmployee(OpenEdit(tab, employee)).employees == tab.employees
  {
    var loaded := OpenEdit(tab, employee);
    OverlayKeeps(employee, Pairs(loaded.form));
    var r := EditEmployee(loaded);
    assert forall i | 0 <= i < |tab.employees| :: r.employees[i] == tab.employees[i];
  }

  /** Deleting an employee just added, when its generated id was new, gives back the list from
      before the add. */
  lemma DeleteUndoesAdd(tab: Tab, now: nat, today: string)
    requires Complete(tab.form)
    requires forall i | 0 <= i < |tab.employees| :: Id(tab.employees[i]) != Some(Str("emp-" + NatText(now)))
    ensures var added := AddEmployee(tab, now, today);
            DeleteEmployee(AskDelete(added, added.employees[|tab.employees|])).employees == tab.employees
  {
    var hired := Hire(tab.form, now, today);
    HireFields(tab.form, now, today);
    RemoveAppended(tab.employees, hired);
  }
}
