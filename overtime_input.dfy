/**
 * `src/pages/OvertimeInput.tsx`: the overtime entry form. Its state is one record that the
 * input handler updates field by field and the submit handler either keeps (when a required
 * field is empty) or resets; dates are stored as `DD.MM.YYYY` and shown to the browser's
 * date inputs as `YYYY-MM-DD`.
 */
module OvertimeInput {
  import opened Common
  import opened Text
  import opened Dates
  import Validation

  // ---------------------------------------------------------------- date conversion

  /**
   * `formatDateForInput`: "" stays "", a string with exactly two dots has its three parts
   * reversed around `-`, anything else is returned as it is.
   */
  function FormatDateForInput(s: string): string {
    if s == "" then ""
    else
      var parts := Split(s, '.');
      if |parts| == 3 then parts[2] + "-" + parts[1] + "-" + parts[0] else s
  }

  /** A date printed the way `formatDateFromInput` prints it: day and month padded, then the year. */
  function Dotted(d: Date): string
    requires ValidDate(d)
  {
    Pad2(d.day) + "." + Pad2(d.month) + "." + IntToString(d.year)
  }

  /**
   * `formatDateFromInput`, corrected: "" stays "", a `YYYY-MM-DD` date is printed as
   * `DD.MM.YYYY` from its own fields, and an unreadable string gives what an invalid
   * `Date` prints, `NaN.NaN.NaN`.
   */
  function FormatDateFromInput(s: string): string {
    if s == "" then ""
    else
      match ParseIsoDate(s)
      case None => "NaN.NaN.NaN"
      case Some(d) => Dotted(d)
  }

  /**
   * `formatDateFromInput` as written: `new Date(s)` is midnight UTC of the date, and
   * `getDate`, `getMonth` and `getFullYear` read it in local time. With the local zone
   * `utcOffsetMinutes` ahead of UTC (negative west of Greenwich), midnight UTC falls on the
   * previous local day exactly when the offset is negative.
   */
  function FormatDateFromInputAt(s: string, utcOffsetMinutes: int): string
    requires -1440 < utcOffsetMinutes < 1440
  {
    if s == "" then ""
    else
      match ParseIsoDate(s)
      case None => "NaN.NaN.NaN"
      case Some(d) => Dotted(if utcOffsetMinutes < 0 then PrevDay(d) else d)
  }

  /** At UTC and east of it, the code as written prints the date that was picked. */
  lemma AsWrittenAgreesEastOfGreenwich(s: string, utcOffsetMinutes: int)
    requires 0 <= utcOffsetMinutes < 1440
    ensures FormatDateFromInputAt(s, utcOffsetMinutes) == FormatDateFromInput(s)
  {
  }

  /** A picked date with a four-digit year prints as `DD.MM.YYYY` with the picked digits. */
  lemma FromInputDigits(s: string)
    requires ParseIsoDate(s).Some? && s[0] != '0'
    ensures FormatDateFromInput(s) == s[8..10] + "." + s[5..7] + "." + s[0..4]
  {
    var d := ParseIsoDate(s).value;
    assert d == IsoFields(s);
    Pad2OfDigits(s, 8);
    Pad2OfDigits(s, 5);
    FourDigits(s, 0);
  }

  /**
   * Round trip: a date picked in a date input with a four-digit year from 1000 on, stored
   * with `formatDateFromInput` and shown again with `formatDateForInput`, is the date picked.
   */
  lemma {:induction false} PickedDateRoundTrip(s: string)
    requires ParseIsoDate(s).Some? && s[0] != '0'
    ensures FormatDateForInput(FormatDateFromInput(s)) == s
  {
    FromInputDigits(s);
    var parts := [s[8..10], s[5..7], s[0..4]];
    assert Clean(parts, '.') by {
      assert forall i :: 0 <= i < 10 && i != 4 && i != 7 ==> IsDigit(s[i]);
    }
    assert Join(parts, '.') == FormatDateFromInput(s) by {
      assert Join(parts[2..], '.') == s[0..4];
      assert Join(parts[1..], '.') == s[5..7] + "." + s[0..4];
    }
    SplitJoin(parts, '.');
    assert s == s[0..4] + [s[4]] + s[5..7] + [s[7]] + s[8..10];
  }

  /**
   * The other way round: a stored `DD.MM.YYYY` date whose reordering is a real date with a
   * four-digit year from 1000 on is shown as `YYYY-MM-DD` and stored back unchanged.
   */
  lemma {:induction false} StoredDateRoundTrip(t: string)
    requires Validation.OvertimeDateValid(t) && |t| == 10
    requires ParseIsoDate(t[6..10] + "-" + t[3..5] + "-" + t[0..2]).Some? && t[6] != '0'
    ensures FormatDateFromInput(FormatDateForInput(t)) == t
  {
    Validation.OvertimeDateRule(t);
    var parts := [t[0..2], t[3..5], t[6..10]];
    assert Clean(parts, '.') by {
      assert forall i :: 0 <= i < 10 && i != 2 && i != 5 ==> '0' <= t[i] <= '9';
    }
    assert t == Join(parts, '.') by {
      assert Join(parts[2..], '.') == t[6..10];
      assert Join(parts[1..], '.') == t[3..5] + "." + t[6..10];
      assert t == t[0..2] + [t[2]] + t[3..5] + [t[5]] + t[6..10];
    }
    SplitJoin(parts, '.');
    var iso := t[6..10] + "-" + t[3..5] + "-" + t[0..2];
    assert FormatDateForInput(t) == iso;
    FromInputDigits(iso);
    assert iso[8..10] == t[0..2] && iso[5..7] == t[3..5] && iso[0..4] == t[6..10];
  }

  /** `formatDateForInput` reorders a `DD.MM.YYYY` date into `YYYY-MM-DD`, and keeps "" as "". */
  lemma {:induction false} ForInputReorders(t: string)
    requires Validation.OvertimeDateValid(t) && |t| == 10
    ensures FormatDateForInput(t) == t[6..10] + "-" + t[3..5] + "-" + t[0..2]
    ensures FormatDateForInput("") == ""
  {
    Validation.OvertimeDateRule(t);
    var parts := [t[0..2], t[3..5], t[6..10]];
    assert Clean(parts, '.') by {
      assert forall i :: 0 <= i < 10 && i != 2 && i != 5 ==> '0' <= t[i] <= '9';
    }
    assert t == Join(parts, '.') by {
      assert Join(parts[2..], '.') == t[6..10];
      assert Join(parts[1..], '.') == t[3..5] + "." + t[6..10];
      assert t == t[0..2] + [t[2]] + t[3..5] + [t[5]] + t[6..10];
    }
    SplitJoin(parts, '.');
  }

  /** Three dot-free parts joined by dots are shown reversed and joined by dashes. */
  lemma {:induction false} ForInputOfParts(a: string, b: string, c: string)
    requires '.' !in a && '.' !in b && '.' !in c
    ensures FormatDateForInput(a + "." + b + "." + c) == c + "-" + b + "-" + a
  {
    var parts := [a, b, c];
    assert Join(parts, '.') == a + "." + b + "." + c by {
      assert Join(parts[2..], '.') == c;
      assert Join(parts[1..], '.') == b + "." + c;
    }
    SplitJoin(parts, '.');
  }

  /** A string that does not split into exactly three dot-separated parts is shown unchanged. */
  lemma ForInputKeepsOtherShapes(s: string)
    requires |Split(s, '.')| != 3
    ensures FormatDateForInput(s) == s
  {
  }

  /** `2025-08-19` reads as 19 August 2025. */
  lemma ParseExample()
    ensures ParseIsoDate("2025-08-19") == Some(Date(2025, 8, 19))
  {
    var s := "2025-08-19";
    assert IsoShaped(s);
    assert IsoFields(s) == Date(2025, 8, 19);
  }

  /** The year 2025 prints as `2025`. */
  lemma PrintYearExample()
    ensures IntToString(2025) == "2025"
  {
    assert NatToString(2) == "2";
    assert NatToString(20) == "20";
    assert NatToString(202) == "202";
  }

  /** `18.08.2025` is shown as `2025-08-18`. */
  lemma ShownExample()
    ensures FormatDateForInput("18.08.2025") == "2025-08-18"
  {
    assert "18.08.2025" == "18" + "." + "08" + "." + "2025";
    ForInputOfParts("18", "08", "2025");
    assert "2025" + "-" + "08" + "-" + "18" == "2025-08-18";
  }

  /**
   * As written, in a zone behind UTC (here UTC-05:00), picking 19 August 2025 stores
   * `18.08.2025` and the date input then shows `2025-08-18`; the corrected conversion shows
   * the date picked.
   */
  lemma LocalTimeShiftsPickedDate()
    ensures FormatDateFromInputAt("2025-08-19", -300) == "18.08.2025"
    ensures FormatDateForInput(FormatDateFromInputAt("2025-08-19", -300)) == "2025-08-18"
    ensures FormatDateForInput(FormatDateFromInput("2025-08-19")) == "2025-08-19"
  {
    var stored := "18.08.2025";
    assert FormatDateFromInputAt("2025-08-19", -300) == stored by {
      ParseExample();
      PrintYearExample();
      assert PrevDay(Date(2025, 8, 19)) == Date(2025, 8, 18);
      assert Pad2(18) == "18" && Pad2(8) == "08";
    }
    ShownExample();
    PickedDateRoundTrip("2025-08-19");
  }

  // ---------------------------------------------------------------- the form

  datatype OvertimeEntry = OvertimeEntry(
    employeeId: string,
    overtimeDate: string,
    calculationBasedOnTime: string,
    planOvertimeHour: real,
    dateIn: string,
    fromTime: string,
    dateOut: string,
    toTime: string,
    breakFromTime: string,
    breakToTime: string,
    reason: string)

  /** The record the form starts from and resets to. */
  const Initial := OvertimeEntry("", "", "N", 0.0, "", "", "", "", "", "", "")

  datatype Field =
    | EmployeeId | OvertimeDate | CalculationBasedOnTime | PlanOvertimeHour | DateIn | FromTime
    | DateOut | ToTime | BreakFromTime | BreakToTime | Reason

  datatype Value = Text(s: string) | Number(x: real)

  /** The number field takes numbers, every other field strings, as the inputs pass them. */
  predicate Fits(field: Field, value: Value) {
    (field == PlanOvertimeHour) == value.Number?
  }

  predicate IsDateField(field: Field) {
    field == OvertimeDate || field == DateIn || field == DateOut
  }

  function Get(e: OvertimeEntry, field: Field): (v: Value)
    ensures Fits(field, v)
  {
    match field
    case EmployeeId => Text(e.employeeId)
    case OvertimeDate => Text(e.overtimeDate)
    case CalculationBasedOnTime => Text(e.calculationBasedOnTime)
    case PlanOvertimeHour => Number(e.planOvertimeHour)
    case DateIn => Text(e.dateIn)
    case FromTime => Text(e.fromTime)
    case DateOut => Text(e.dateOut)
    case ToTime => Text(e.toTime)
    case BreakFromTime => Text(e.breakFromTime)
    case BreakToTime => Text(e.breakToTime)
    case Reason => Text(e.reason)
  }

  /** `{ ...prev, [field]: value }` */
  function With(e: OvertimeEntry, field: Field, value: Value): OvertimeEntry
    requires Fits(field, value)
  {
    match field
    case EmployeeId => e.(employeeId := value.s)
    case OvertimeDate => e.(overtimeDate := value.s)
    case CalculationBasedOnTime => e.(calculationBasedOnTime := value.s)
    case PlanOvertimeHour => e.(planOvertimeHour := value.x)
    case DateIn => e.(dateIn := value.s)
    case FromTime => e.(fromTime := value.s)
    case DateOut => e.(dateOut := value.s)
    case ToTime => e.(toTime := value.s)
    case BreakFromTime => e.(breakFromTime := value.s)
    case BreakToTime => e.(breakToTime := value.s)
    case Reason => e.(reason := value.s)
  }

  /** An update sets the named field to the value and leaves every other field as it was. */
  lemma WithChangesOnlyThatField(e: OvertimeEntry, field: Field, value: Value, other: Field)
    requires Fits(field, value)
    ensures Get(With(e, field, value), field) == value
    ensures other != field ==> Get(With(e, field, value), other) == Get(e, other)
  {
  }

  /** The submit gate: employee id, overtime date and reason must be non-empty. */
  predicate RequiredFilled(e: OvertimeEntry) {
    e.employeeId != "" && e.overtimeDate != "" && e.reason != ""
  }

  /** Every entry the overtime schema accepts passes the page's own, weaker gate. */
  lemma SchemaValidPassesGate(e: OvertimeEntry)
    requires Validation.OvertimeEntryValid(e.employeeId, e.overtimeDate, e.planOvertimeHour, e.fromTime, e.reason)
    ensures RequiredFilled(e)
  {
    Validation.OvertimeSchemaRule(e.employeeId, e.overtimeDate, e.planOvertimeHour, e.fromTime, e.reason);
    Validation.EmployeeIdRule("employeeId", e.employeeId);
    Validation.OvertimeDateRule(e.overtimeDate);
  }

  /** The gate lets through entries the schema rejects: a one-letter reason and zero hours. */
  lemma GateWeakerThanSchema()
    ensures RequiredFilled(Initial.(employeeId := "x", overtimeDate := "x", reason := "x"))
    ensures !Validation.OvertimeEntryValid("x", "x", 0.0, "", "x")
  {
  }

  /** The initial record does not pass the gate: submitting a freshly reset form is refused. */
  lemma InitialFailsGate()
    ensures !RequiredFilled(Initial)
  {
  }

  /**
   * How a submit ends: refused with a required field empty, or the entry written to the
   * console with a success message. The page stores nothing.
   */
  datatype SubmitOutcome = MissingRequired | Logged(entry: OvertimeEntry)

  class OvertimeInputForm {
    var formData: OvertimeEntry

    constructor ()
      ensures formData == Initial
    {
      formData := Initial;
    }

    /** `handleInputChange`: one field replaced, the rest kept. */
    method HandleInputChange(field: Field, value: Value)
      requires Fits(field, value)
      modifies this
      ensures formData == With(old(formData), field, value)
    {
      formData := With(formData, field, value);
    }

    /** What a date input shows for a stored date field. */
    function Displayed(field: Field): string
      reads this
      requires IsDateField(field)
    {
      FormatDateForInput(Get(formData, field).s)
    }

    /**
     * A date input's `onChange`: the picked `YYYY-MM-DD` value is stored as `DD.MM.YYYY`,
     * and a real date with a four-digit year from 1000 on is then shown as picked.
     */
    method PickDate(field: Field, picked: string)
      requires IsDateField(field)
      modifies this
      ensures formData == With(old(formData), field, Text(FormatDateFromInput(picked)))
      ensures ParseIsoDate(picked).Some? && picked[0] != '0' ==> Displayed(field) == picked
    {
      HandleInputChange(field, Text(FormatDateFromInput(picked)));
      if ParseIsoDate(picked).Some? && picked[0] != '0' {
        PickedDateRoundTrip(picked);
      }
    }

    /**
     * `handleSubmit`: with a required field empty the form is left as it is; otherwise the
     * entry is logged, success is reported and the form goes back to the initial record.
     */
    method HandleSubmit() returns (outcome: SubmitOutcome)
      modifies this
      ensures outcome == (if RequiredFilled(old(formData)) then Logged(old(formData)) else MissingRequired)
      ensures formData == (if RequiredFilled(old(formData)) then Initial else old(formData))
    {
      if !RequiredFilled(formData) {
        return MissingRequired;
      }
      outcome := Logged(formData);
      formData := Initial;
    }
  }
}
