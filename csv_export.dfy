/**
 * `src/pages/Export.tsx`: the CSV text built from a header and rows (fields joined by `;`,
 * lines joined by `\n`, no quoting), and the email form with its one validation gate.
 */
module CsvExport {
  import opened Text

  /** The 11 column names, in their order. */
  const Header: seq<string> := [
    "EmployeeID", "OvertimeDate(dd.MM.yyyy)", "CalculationBasedOnTime", "PlanOvertimeHour",
    "DateIn(dd.MM.yyyy)", "FromTime", "DateOut(dd.MM.yyyy)", "ToTime", "BreakFromTime",
    "BreakToTime", "Reason"
  ]

  /** A row of the fixed table: in, out and overtime dates coincide, from 15:00, no break. */
  function FixedRow(id: string, date: string, hours: string, to: string, reason: string): seq<string> {
    [id, date, "N", hours, date, "15:00", date, to, "", "", reason]
  }

  const FirstReason := "Pemotongan sisa kabel " + "proyek di pyrite server"
  const SecondReason := "Preventive Maintenance Network " + "Device Panel Pyrite Plant"
  const ThirdReason := "Perbaikan CCTV di jembatan " + "penyebrangan Acid Ke Choloride"

  /** The three fixed rows the page exports. */
  const SampleRows: seq<seq<string>> := [
    FixedRow("MTI240264", "19.08.2025", "3", "18:00", FirstReason),
    FixedRow("MTI240264", "20.08.2025", "2", "17:00", SecondReason),
    FixedRow("MTI240265", "19.08.2025", "2", "17:00", ThirdReason)
  ]

  /** Each row as one line: its fields joined with `;`. */
  function RowLines(rows: seq<seq<string>>): (lines: seq<string>)
    ensures |lines| == |rows|
  {
    seq(|rows|, i requires 0 <= i < |rows| => Join(rows[i], ';'))
  }

  /** `csvContent`: the header line, then one line per row, joined with `\n` (no trailing newline). */
  function CsvContent(header: seq<string>, rows: seq<seq<string>>): string {
    Join([Join(header, ';')] + RowLines(rows), '\n')
  }

  /** Reading the text back: split into lines on `\n`, then each line into fields on `;`. */
  function ParseCsv(csv: string): (table: seq<seq<string>>)
    ensures |table| == |Split(csv, '\n')|
  {
    var lines := Split(csv, '\n');
    seq(|lines|, i requires 0 <= i < |lines| => Split(lines[i], ';'))
  }

  /** A field that can travel through the format: it holds neither delimiter. */
  predicate SafeField(f: string) {
    ';' !in f && '\n' !in f
  }

  /** A row that comes back as itself: at least one field, none holding a delimiter. */
  predicate SafeRow(row: seq<string>) {
    |row| >= 1 && forall j :: 0 <= j < |row| ==> SafeField(row[j])
  }

  /** No field of the row holds `c`. */
  predicate FieldsAvoid(row: seq<string>, c: char) {
    forall j :: 0 <= j < |row| ==> c !in row[j]
  }

  /** A character that is neither the separator nor in any part is not in the join. */
  lemma {:induction false} JoinAvoids(parts: seq<string>, sep: char, c: char)
    requires c != sep && FieldsAvoid(parts, c)
    ensures c !in Join(parts, sep)
    decreases |parts|
  {
    if |parts| > 1 {
      JoinAvoids(parts[1..], sep, c);
    }
  }

  /** No line of the output holds a newline when no field does. */
  lemma LinesHaveNoNewline(header: seq<string>, rows: seq<seq<string>>)
    requires FieldsAvoid(header, '\n') && forall i :: 0 <= i < |rows| ==> FieldsAvoid(rows[i], '\n')
    ensures Clean([Join(header, ';')] + RowLines(rows), '\n')
  {
    var lines := [Join(header, ';')] + RowLines(rows);
    forall i | 0 <= i < |lines|
      ensures '\n' !in lines[i]
    {
      if i == 0 {
        JoinAvoids(header, ';', '\n');
      } else {
        assert lines[i] == Join(rows[i - 1], ';');
        JoinAvoids(rows[i - 1], ';', '\n');
      }
    }
  }

  /** Without a newline in any field, the text has exactly 1 + |rows| lines. */
  lemma LineCount(header: seq<string>, rows: seq<seq<string>>)
    requires FieldsAvoid(header, '\n') && forall i :: 0 <= i < |rows| ==> FieldsAvoid(rows[i], '\n')
    ensures |Split(CsvContent(header, rows), '\n')| == 1 + |rows|
  {
    LinesHaveNoNewline(header, rows);
    SplitJoin([Join(header, ';')] + RowLines(rows), '\n');
  }

  /** Text whose lines hold no newline reads back line by line. */
  lemma ParseJoined(lines: seq<string>)
    requires |lines| >= 1 && Clean(lines, '\n')
    ensures ParseCsv(Join(lines, '\n')) == seq(|lines|, i requires 0 <= i < |lines| => Split(lines[i], ';'))
  {
    SplitJoin(lines, '\n');
  }

  /** Round trip: when no field holds `;` or `\n`, reading the text back gives header and rows. */
  lemma CsvRoundTrip(header: seq<string>, rows: seq<seq<string>>)
    requires SafeRow(header) && forall i :: 0 <= i < |rows| ==> SafeRow(rows[i])
    ensures ParseCsv(CsvContent(header, rows)) == [header] + rows
  {
    var lines := [Join(header, ';')] + RowLines(rows);
    var table := [header] + rows;
    LinesHaveNoNewline(header, rows);
    ParseJoined(lines);
    forall i | 0 <= i < |lines|
      ensures Split(lines[i], ';') == table[i]
    {
      if i == 0 {
        SplitJoin(header, ';');
      } else {
        assert lines[i] == Join(rows[i - 1], ';');
        SplitJoin(rows[i - 1], ';');
      }
    }
  }

  /** The header has 11 columns, none holding a delimiter. */
  lemma HeaderIsSafe()
    ensures |Header| == 11 && SafeRow(Header)
  {
    forall j | 0 <= j < |Header|
      ensures SafeField(Header[j])
    {
      if j == 0 { assert SafeField("EmployeeID"); }
      else if j == 1 { assert SafeField("OvertimeDate(dd.MM.yyyy)"); }
      else if j == 2 { assert SafeField("CalculationBasedOnTime"); }
      else if j == 3 { assert SafeField("PlanOvertimeHour"); }
      else if j == 4 { assert SafeField("DateIn(dd.MM.yyyy)"); }
      else if j == 5 { assert SafeField("FromTime"); }
      else if j == 6 { assert SafeField("DateOut(dd.MM.yyyy)"); }
      else if j == 7 { assert SafeField("ToTime"); }
      else if j == 8 { assert SafeField("BreakFromTime"); }
      else if j == 9 { assert SafeField("BreakToTime"); }
      else { assert SafeField("Reason"); }
    }
  }

  /** A row of the fixed rows' shape is safe when its varying fields are. */
  lemma FixedShapeIsSafe(id: string, date: string, hours: string, to: string, reason: string)
    requires SafeField(id) && SafeField(date) && SafeField(hours) && SafeField(to) && SafeField(reason)
    ensures |FixedRow(id, date, hours, to, reason)| == 11 && SafeRow(FixedRow(id, date, hours, to, reason))
  {
    var row := FixedRow(id, date, hours, to, reason);
    assert SafeField("N") && SafeField("15:00") && SafeField("");
    forall j | 0 <= j < |row|
      ensures SafeField(row[j])
    {
    }
  }

  /** The reasons hold no delimiter. */
  lemma FirstReasonIsSafe()
    ensures SafeField(FirstReason)
  {
    assert SafeField("Pemotongan sisa kabel ") && SafeField("proyek di pyrite server");
  }

  lemma SecondReasonIsSafe()
    ensures SafeField(SecondReason)
  {
    assert SafeField("Preventive Maintenance Network ") && SafeField("Device Panel Pyrite Plant");
  }

  lemma ThirdReasonIsSafe()
    ensures SafeField(ThirdReason)
  {
    assert SafeField("Perbaikan CCTV di jembatan ") && SafeField("penyebrangan Acid Ke Choloride");
  }

  /** Every fixed row has 11 fields, none holding a delimiter. */
  lemma SampleRowIsSafe(k: nat)
    requires k < |SampleRows|
    ensures |SampleRows[k]| == 11 && SafeRow(SampleRows[k])
  {
    FirstReasonIsSafe();
    SecondReasonIsSafe();
    ThirdReasonIsSafe();
    assert SafeField("MTI240264") && SafeField("MTI240265");
    assert SafeField("19.08.2025") && SafeField("20.08.2025");
    assert SafeField("3") && SafeField("2") && SafeField("18:00") && SafeField("17:00");
    if k == 0 {
      FixedShapeIsSafe("MTI240264", "19.08.2025", "3", "18:00", FirstReason);
    } else if k == 1 {
      FixedShapeIsSafe("MTI240264", "20.08.2025", "2", "17:00", SecondReason);
    } else {
      FixedShapeIsSafe("MTI240265", "19.08.2025", "2", "17:00", ThirdReason);
    }
  }

  /** The exported text: a header line and three data lines that read back as the fixed table. */
  lemma SampleCsv()
    ensures |Split(CsvContent(Header, SampleRows), '\n')| == 4
    ensures ParseCsv(CsvContent(Header, SampleRows)) == [Header] + SampleRows
  {
    HeaderIsSafe();
    forall k | 0 <= k < |SampleRows|
      ensures SafeRow(SampleRows[k])
    {
      SampleRowIsSafe(k);
    }
    CsvRoundTrip(Header, SampleRows);
  }

  // ---------------------------------------------------------------- the email form

  datatype EmailData = EmailData(toEmail: string, subject: string, message: string, startDate: string, endDate: string)

  const EmptyEmail := EmailData("", "", "", "", "")

  datatype EmailField = ToEmail | Subject | Message | StartDate | EndDate

  function Get(e: EmailData, field: EmailField): string {
    match field
    case ToEmail => e.toEmail
    case Subject => e.subject
    case Message => e.message
    case StartDate => e.startDate
    case EndDate => e.endDate
  }

  /** `{ ...prev, [field]: value }`. */
  function With(e: EmailData, field: EmailField, value: string): (r: EmailData)
    ensures Get(r, field) == value
  {
    match field
    case ToEmail => e.(toEmail := value)
    case Subject => e.(subject := value)
    case Message => e.(message := value)
    case StartDate => e.(startDate := value)
    case EndDate => e.(endDate := value)
  }

  /** An input change sets the one field and leaves the other four as they were. */
  lemma WithChangesOnlyThatField(e: EmailData, field: EmailField, value: string, other: EmailField)
    requires other != field
    ensures Get(With(e, field, value), other) == Get(e, other)
  {
  }

  /** What Send Email ends in: no path sends anything. */
  datatype SendOutcome = ValidationError | IntegrationRequired

  class ExportPage {
    var emailData: EmailData

    constructor ()
      ensures emailData == EmptyEmail
    {
      emailData := EmptyEmail;
    }

    method HandleInputChange(field: EmailField, value: string)
      modifies this
      ensures emailData == With(old(emailData), field, value)
    {
      emailData := With(emailData, field, value);
    }

    /** The gate: a missing recipient or subject is a validation error; otherwise it never sends. */
    method HandleSendEmail() returns (outcome: SendOutcome)
      ensures outcome == ValidationError <==> emailData.toEmail == "" || emailData.subject == ""
      ensures outcome == IntegrationRequired <==> emailData.toEmail != "" && emailData.subject != ""
    {
      if emailData.toEmail == "" || emailData.subject == "" {
        return ValidationError;
      }
      return IntegrationRequired;
    }

    /**
     * The downloaded text: the fixed table, whatever the form holds (the two date inputs
     * are not read).
     */
    method GenerateCsv() returns (csv: string)
      ensures |Split(csv, '\n')| == 4 && ParseCsv(csv) == [Header] + SampleRows
      ensures csv == CsvContent(Header, SampleRows)
    {
      csv := CsvContent(Header, SampleRows);
      SampleCsv();
    }
  }
}
