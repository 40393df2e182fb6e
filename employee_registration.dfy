/**
 * `src/pages/EmployeeRegistration.tsx`: the registration form and its submit sequence
 * (blank check, duplicate lookup, insert, reset) against the employees table, which is
 * modelled as a map from employee id to name.
 */
module EmployeeRegistration {
  import opened Text

  datatype FormData = FormData(employeeId: string, name: string)

  const EmptyForm := FormData("", "")

  datatype FormField = EmployeeIdField | NameField

  /** `{ ...prev, [field]: value }`. */
  function With(form: FormData, field: FormField, value: string): (r: FormData)
    ensures field == EmployeeIdField ==> r.employeeId == value && r.name == form.name
    ensures field == NameField ==> r.name == value && r.employeeId == form.employeeId
  {
    match field
    case EmployeeIdField => form.(employeeId := value)
    case NameField => form.(name := value)
  }

  /**
   * How the backend answers one submit. `Answered` tells whether the lookup came back with an
   * error (its data is then null) and whether the insert reports an error; `Unreachable` is a
   * call that throws.
   */
  datatype Remote = Answered(lookupFails: bool, insertFails: bool) | Unreachable

  /** How a submit ends (the toast it shows). */
  datatype Outcome = MissingFields | AlreadyExists | InsertFailed | Unexpected | Registered

  /** Nothing but white space (or nothing at all). */
  predicate AllSpace(s: string) {
    forall i :: 0 <= i < |s| ==> IsSpace(s[i])
  }

  /** `!employee_id.trim() || !name.trim()`: a field with nothing but white space. */
  predicate Blank(form: FormData) {
    AllSpace(form.employeeId) || AllSpace(form.name)
  }

  /** The blank check is the page's trim test: a field is blank iff trimming leaves "". */
  lemma BlankIsTrimEmpty(form: FormData)
    ensures Blank(form) <==> Trim(form.employeeId) == [] || Trim(form.name) == []
  {
  }

  /**
   * The outcome of a submit. The lookup uses the untrimmed id; a failed lookup reads as "not
   * found". The backend refuses to insert an id the table already has.
   */
  function SubmitOutcome(form: FormData, table: map<string, string>, remote: Remote): Outcome {
    if Blank(form) then MissingFields
    else match remote
      case Unreachable => Unexpected
      case Answered(lookupFails, insertFails) =>
        if !lookupFails && form.employeeId in table then AlreadyExists
        else if insertFails || form.employeeId in table then InsertFailed
        else Registered
  }

  /** The table after a submit: one new row on success, unchanged otherwise. */
  function TableAfter(form: FormData, table: map<string, string>, remote: Remote): map<string, string> {
    if SubmitOutcome(form, table, remote) == Registered then table[form.employeeId := form.name] else table
  }

  /** A blank id or name is refused before the backend is asked, whatever it would answer. */
  lemma BlankRejected(form: FormData, table: map<string, string>, remote: Remote)
    requires Blank(form)
    ensures SubmitOutcome(form, table, remote) == MissingFields
    ensures TableAfter(form, table, remote) == table
  {
  }

  /** An id already in the table is refused when the lookup answers, and nothing is inserted. */
  lemma ExistingRejected(form: FormData, table: map<string, string>, insertFails: bool)
    requires !Blank(form) && form.employeeId in table
    ensures SubmitOutcome(form, table, Answered(false, insertFails)) == AlreadyExists
    ensures TableAfter(form, table, Answered(false, insertFails)) == table
  {
  }

  /** A submit registers iff the fields are filled, the backend answers, the id is new and the insert succeeds. */
  lemma RegisteredIff(form: FormData, table: map<string, string>, remote: Remote)
    ensures SubmitOutcome(form, table, remote) == Registered <==>
      !Blank(form) && remote.Answered? && !remote.insertFails && form.employeeId !in table
  {
  }

  /**
   * A registration inserts exactly one row, keyed by the untrimmed id and holding the
   * untrimmed name; every other row is as it was.
   */
  lemma RegistrationAddsOneRow(form: FormData, table: map<string, string>, remote: Remote)
    requires SubmitOutcome(form, table, remote) == Registered
    ensures form.employeeId !in table
    ensures TableAfter(form, table, remote).Keys == table.Keys + {form.employeeId}
    ensures |TableAfter(form, table, remote).Keys| == |table.Keys| + 1
    ensures TableAfter(form, table, remote)[form.employeeId] == form.name
  {
  }

  /** No submit removes a row or changes an existing one. */
  lemma ExistingRowsKept(form: FormData, table: map<string, string>, remote: Remote, id: string)
    requires id in table
    ensures id in TableAfter(form, table, remote) && TableAfter(form, table, remote)[id] == table[id]
  {
  }

  /**
   * The duplicate lookup compares the id as typed: with `id` registered, the same id typed
   * with a leading space passes the blank check and the lookup, and becomes a second row.
   */
  lemma LookupIsUntrimmed(id: string, name: string, table: map<string, string>)
    requires !Blank(FormData(id, name)) && id in table && " " + id !in table
    ensures SubmitOutcome(FormData(" " + id, name), table, Answered(false, false)) == Registered
    ensures TableAfter(FormData(" " + id, name), table, Answered(false, false)).Keys == table.Keys + {" " + id}
  {
    var i :| 0 <= i < |id| && !IsSpace(id[i]);
    assert (" " + id)[i + 1] == id[i];
  }

  class EmployeeRegistrationPage {
    /** The employees table: employee id to name. */
    var employees: map<string, string>
    var formData: FormData
    var loading: bool

    constructor (table: map<string, string>)
      ensures employees == table && formData == EmptyForm && !loading
    {
      employees := table;
      formData := EmptyForm;
      loading := false;
    }

    method HandleInputChange(field: FormField, value: string)
      modifies this
      ensures formData == With(old(formData), field, value)
      ensures employees == old(employees) && loading == old(loading)
    {
      formData := With(formData, field, value);
    }

    /** The Clear button: both fields back to "". */
    method Clear()
      modifies this
      ensures formData == EmptyForm
      ensures employees == old(employees) && loading == old(loading)
    {
      formData := EmptyForm;
    }

    /**
     * The submit sequence. The form is reset only after a registration; `loading` is
     * false at the end of every path that got past the blank check.
     */
    method HandleSubmit(remote: Remote) returns (outcome: Outcome)
      modifies this
      ensures outcome == SubmitOutcome(old(formData), old(employees), remote)
      ensures employees == TableAfter(old(formData), old(employees), remote)
      ensures formData == (if outcome == Registered then EmptyForm else old(formData))
      ensures loading == (if outcome == MissingFields then old(loading) else false)
    {
      var form := formData;
      if Blank(form) {
        return MissingFields;
      }
      loading := true;
      match remote {
        case Unreachable =>
          outcome := Unexpected;
        case Answered(lookupFails, insertFails) =>
          var existing := !lookupFails && form.employeeId in employees;
          if existing {
            loading := false;
            outcome := AlreadyExists;
          } else if insertFails || form.employeeId in employees {
            outcome := InsertFailed;
          } else {
            employees := employees[form.employeeId := form.name];
            formData := EmptyForm;
            outcome := Registered;
          }
      }
      loading := false;
    }
  }
}
