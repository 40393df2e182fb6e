/**
 * The zod schemas of `src/lib/validation.ts`. Every chained check runs (zod collects all
 * issues instead of stopping at the first), so a schema is modelled as the list of issues
 * it reports, in check order, and an input is valid when that list is empty. `.trim()`
 * replaces the value by its trimmed form before the checks that follow it.
 */
module Validation {
  import opened Text
  import opened Patterns
  import opened Dates

  /** One reported problem: the field it is attached to and its message. */
  datatype Issue = Issue(path: string, message: string)

  /** `[a-zA-Z0-9_-]` */
  const IdChars: CharClass := Either(Either(LowerAscii, UpperAscii), Either(Digit, Either(Lit('_'), Lit('-'))))
  /** `[\p{L}\s'-]` */
  const NameChars: CharClass := Either(Either(Letter, Space), Either(Lit('\''), Lit('-')))
  /** `[a-zA-Z0-9-]` */
  const GraphIdChars: CharClass := Either(Either(LowerAscii, UpperAscii), Either(Digit, Lit('-')))
  /** `\d{2}\.\d{2}\.\d{4}` */
  const DatePattern: seq<CharClass> := Repeat(Digit, 2) + [Lit('.')] + Repeat(Digit, 2) + [Lit('.')] + Repeat(Digit, 4)
  /** `\d{2}:\d{2}` */
  const TimePattern: seq<CharClass> := Repeat(Digit, 2) + [Lit(':')] + Repeat(Digit, 2)

  function When(failed: bool, path: string, message: string): seq<Issue> {
    if failed then [Issue(path, message)] else []
  }

  predicate IsIdChar(c: char) {
    ('a' <= c <= 'z') || ('A' <= c <= 'Z') || IsDigit(c) || c == '_' || c == '-'
  }

  predicate IsNameChar(c: char) {
    IsLetter(c) || IsSpace(c) || c == '\'' || c == '-'
  }

  predicate IsGraphIdChar(c: char) {
    ('a' <= c <= 'z') || ('A' <= c <= 'Z') || IsDigit(c) || c == '-'
  }

  // ---------------------------------------------------------------- field checks

  /** `employee_id` / `employeeId`: trim, min 3, max 20, `^[a-zA-Z0-9_-]+$`. */
  function EmployeeIdIssues(path: string, raw: string): seq<Issue> {
    var s := Trim(raw);
    When(|s| < 3, path, "Employee ID must be at least 3 characters")
    + When(|s| > 20, path, "Employee ID must be less than 20 characters")
    + When(!MatchesPlus(s, IdChars), path,
           "Employee ID can only contain letters, numbers, hyphens and underscores")
  }

  /** `name`: trim, min 2, max 100, `^[\p{L}\s'-]+$` with the `u` flag. */
  function NameIssues(raw: string): seq<Issue> {
    var s := Trim(raw);
    When(|s| < 2, "name", "Name must be at least 2 characters")
    + When(|s| > 100, "name", "Name must be less than 100 characters")
    + When(!MatchesPlus(s, NameChars), "name",
           "Name can only contain letters, spaces, hyphens and apostrophes")
  }

  /** `overtimeDate`: not trimmed, min 1, `^\d{2}\.\d{2}\.\d{4}$`. */
  function OvertimeDateIssues(s: string): seq<Issue> {
    When(|s| < 1, "overtimeDate", "Overtime date is required")
    + When(!MatchesSeq(s, DatePattern), "overtimeDate", "Date must be in format DD.MM.YYYY")
  }

  /** `planOvertimeHour`: a number with min 0.5 and max 24, both inclusive. */
  function HoursIssues(x: real): seq<Issue> {
    When(x < 0.5, "planOvertimeHour", "Minimum overtime is 0.5 hours")
    + When(x > 24.0, "planOvertimeHour", "Maximum overtime is 24 hours")
  }

  /** `fromTime`: not trimmed, min 1, `^\d{2}:\d{2}$`. */
  function FromTimeIssues(s: string): seq<Issue> {
    When(|s| < 1, "fromTime", "Start time is required")
    + When(!MatchesSeq(s, TimePattern), "fromTime", "Time must be in format HH:MM")
  }

  /** `reason`: trim, min 10, max 1000. */
  function ReasonIssues(raw: string): seq<Issue> {
    var s := Trim(raw);
    When(|s| < 10, "reason", "Reason must be at least 10 characters")
    + When(|s| > 1000, "reason", "Reason must be less than 1000 characters")
  }

  /** `newPassword`: not trimmed, min 8, max 100, and unanchored `[A-Z]`, `[a-z]`, `[0-9]`. */
  function NewPasswordIssues(s: string): seq<Issue> {
    When(|s| < 8, "newPassword", "Password must be at least 8 characters")
    + When(|s| > 100, "newPassword", "Password must be less than 100 characters")
    + When(!Finds(s, UpperAscii), "newPassword", "Password must contain at least one uppercase letter")
    + When(!Finds(s, LowerAscii), "newPassword", "Password must contain at least one lowercase letter")
    + When(!Finds(s, Digit), "newPassword", "Password must contain at least one number")
  }

  /** `ms_graph_tenant_id` / `ms_graph_client_id`: trim, min 1, max 100, `^[a-zA-Z0-9-]+$`. */
  function GraphIdIssues(path: string, what: string, raw: string): seq<Issue> {
    var s := Trim(raw);
    When(|s| < 1, path, what + " is required")
    + When(|s| > 100, path, what + " too long")
    + When(!MatchesPlus(s, GraphIdChars), path, "Invalid " + what + " format")
  }

  // ---------------------------------------------------------------- schemas

  function EmployeeSchemaIssues(employeeId: string, name: string): seq<Issue> {
    EmployeeIdIssues("employee_id", employeeId) + NameIssues(name)
  }

  function OvertimeSchemaIssues(employeeId: string, overtimeDate: string, planOvertimeHour: real,
                                fromTime: string, reason: string): seq<Issue> {
    EmployeeIdIssues("employeeId", employeeId) + OvertimeDateIssues(overtimeDate)
    + HoursIssues(planOvertimeHour) + FromTimeIssues(fromTime) + ReasonIssues(reason)
  }

  /** The object-level refinement adds its issue, on `confirmPassword`, after the field issues. */
  function PasswordSchemaIssues(newPassword: string, confirmPassword: string): seq<Issue> {
    NewPasswordIssues(newPassword)
    + When(newPassword != confirmPassword, "confirmPassword", "Passwords do not match")
  }

  function MsGraphSchemaIssues(tenantId: string, clientId: string): seq<Issue> {
    GraphIdIssues("ms_graph_tenant_id", "Tenant ID", tenantId)
    + GraphIdIssues("ms_graph_client_id", "Client ID", clientId)
  }

  predicate EmployeeIdValid(raw: string) { EmployeeIdIssues("employeeId", raw) == [] }
  predicate NameValid(raw: string) { NameIssues(raw) == [] }
  predicate OvertimeDateValid(s: string) { OvertimeDateIssues(s) == [] }
  predicate HoursValid(x: real) { HoursIssues(x) == [] }
  predicate FromTimeValid(s: string) { FromTimeIssues(s) == [] }
  predicate ReasonValid(raw: string) { ReasonIssues(raw) == [] }
  predicate PasswordFormValid(newPassword: string, confirmPassword: string) {
    PasswordSchemaIssues(newPassword, confirmPassword) == []
  }
  predicate GraphIdValid(raw: string) { GraphIdIssues("ms_graph_tenant_id", "Tenant ID", raw) == [] }

  predicate OvertimeEntryValid(employeeId: string, overtimeDate: string, planOvertimeHour: real,
                               fromTime: string, reason: string) {
    OvertimeSchemaIssues(employeeId, overtimeDate, planOvertimeHour, fromTime, reason) == []
  }

  // ---------------------------------------------------------------- what the rules accept

  /** The bracket classes, read as plain character predicates. */
  lemma ClassMeaning(c: char)
    ensures In(c, IdChars) == IsIdChar(c)
    ensures In(c, NameChars) == IsNameChar(c)
    ensures In(c, GraphIdChars) == IsGraphIdChar(c)
  {
    assert In(c, NameChars) == (In(c, Letter) || In(c, Space) || In(c, Lit('\'')) || In(c, Lit('-')));
  }

  /**
   * An employee id is valid iff, once trimmed, it has 3 to 20 characters, all of them
   * ASCII letters, digits, `_` or `-`. Exactly 20 is accepted although the message says
   * "less than 20". The path the issue is attached to does not matter.
   */
  lemma EmployeeIdRule(path: string, raw: string)
    ensures EmployeeIdIssues(path, raw) == [] <==>
      var s := Trim(raw);
      3 <= |s| <= 20 && forall i :: 0 <= i < |s| ==> IsIdChar(s[i])
  {
    var s := Trim(raw);
    MatchesPlusIff(s, IdChars);
    forall i | 0 <= i < |s| ensures In(s[i], IdChars) == IsIdChar(s[i]) {
      ClassMeaning(s[i]);
    }
  }

  /** A name is valid iff, once trimmed, it has 2 to 100 letters, white space, `'` or `-`. */
  lemma NameRule(raw: string)
    ensures NameValid(raw) <==>
      var s := Trim(raw);
      2 <= |s| <= 100 && forall i :: 0 <= i < |s| ==> IsNameChar(s[i])
  {
    var s := Trim(raw);
    MatchesPlusIff(s, NameChars);
    forall i | 0 <= i < |s| ensures In(s[i], NameChars) == IsNameChar(s[i]) {
      ClassMeaning(s[i]);
    }
  }

  /**
   * An overtime date is valid iff it is exactly two digits, `.`, two digits, `.`, four
   * digits. It is not trimmed, and day and month are not range-checked.
   */
  lemma OvertimeDateRule(s: string)
    ensures OvertimeDateValid(s) <==>
      && |s| == 10 && s[2] == '.' && s[5] == '.'
      && forall i :: 0 <= i < 10 && i != 2 && i != 5 ==> IsDigit(s[i])
  {
    MatchesSeqIff(s, DatePattern);
    if |s| == 10 {
      assert forall i :: 0 <= i < 10 ==>
        DatePattern[i] == (if i == 2 || i == 5 then Lit('.') else Digit);
    }
  }

  /** `99.99.0000` passes: there is no calendar check on the date. */
  lemma OvertimeDateHasNoRangeCheck()
    ensures OvertimeDateValid("99.99.0000")
    ensures !OvertimeDateValid(" 19.08.2025")
  {
    OvertimeDateRule("99.99.0000");
    OvertimeDateRule(" 19.08.2025");
  }

  /** The planned hours are valid iff 0.5 <= x <= 24; there is no step check. */
  lemma HoursRule(x: real)
    ensures HoursValid(x) <==> 0.5 <= x <= 24.0
  {
  }

  /** A start time is valid iff it is exactly two digits, `:`, two digits, with no range check. */
  lemma FromTimeRule(s: string)
    ensures FromTimeValid(s) <==>
      |s| == 5 && s[2] == ':' && IsDigit(s[0]) && IsDigit(s[1]) && IsDigit(s[3]) && IsDigit(s[4])
  {
    MatchesSeqIff(s, TimePattern);
    if |s| == 5 {
      assert TimePattern == [Digit, Digit, Lit(':'), Digit, Digit];
    }
  }

  /** A reason is valid iff its trimmed length is between 10 and 1000, both included. */
  lemma ReasonRule(raw: string)
    ensures ReasonValid(raw) <==> 10 <= |Trim(raw)| <= 1000
  {
  }

  /**
   * The password form is valid iff the new password (untrimmed) has 8 to 100 characters,
   * among them an ASCII upper-case letter, a lower-case letter and a digit, and the
   * confirmation equals it.
   */
  lemma PasswordRule(newPassword: string, confirmPassword: string)
    ensures PasswordFormValid(newPassword, confirmPassword) <==>
      && 8 <= |newPassword| <= 100
      && (exists i :: 0 <= i < |newPassword| && 'A' <= newPassword[i] <= 'Z')
      && (exists i :: 0 <= i < |newPassword| && 'a' <= newPassword[i] <= 'z')
      && (exists i :: 0 <= i < |newPassword| && IsDigit(newPassword[i]))
      && confirmPassword == newPassword
  {
    FindsIff(newPassword, UpperAscii);
    FindsIff(newPassword, LowerAscii);
    FindsIff(newPassword, Digit);
  }

  /** A tenant or client id is valid iff, trimmed, it has 1 to 100 ASCII letters, digits or `-`. */
  lemma GraphIdRule(path: string, what: string, raw: string)
    ensures GraphIdIssues(path, what, raw) == [] <==>
      var s := Trim(raw);
      1 <= |s| <= 100 && forall i :: 0 <= i < |s| ==> IsGraphIdChar(s[i])
  {
    var s := Trim(raw);
    MatchesPlusIff(s, GraphIdChars);
    forall i | 0 <= i < |s| ensures In(s[i], GraphIdChars) == IsGraphIdChar(s[i]) {
      ClassMeaning(s[i]);
    }
  }

  /** An untrimmed id of 3 to 20 id characters is a valid employee id. */
  lemma IdOfIdChars(s: string)
    requires 3 <= |s| <= 20
    requires forall i :: 0 <= i < |s| ==> IsIdChar(s[i])
    ensures EmployeeIdValid(s)
  {
    IdCharNotSpace(s[0]);
    IdCharNotSpace(s[|s| - 1]);
    TrimKeeps(s);
    EmployeeIdRule("employeeId", s);
  }

  lemma IdCharNotSpace(c: char)
    requires IsIdChar(c)
    ensures !IsSpace(c)
  {
  }

  /** `EMP-001` is a valid employee id. */
  lemma EmployeeIdAcceptsExample()
    ensures EmployeeIdValid("EMP-001")
  {
    var s := "EMP-001";
    assert IsIdChar(s[0]) && IsIdChar(s[1]) && IsIdChar(s[2]) && IsIdChar(s[3]);
    assert IsIdChar(s[4]) && IsIdChar(s[5]) && IsIdChar(s[6]);
    IdOfIdChars(s);
  }

  /** An id shorter than 3 after trimming is rejected, whatever its characters. */
  lemma ShortIdRejected(raw: string)
    requires |Trim(raw)| < 3
    ensures !EmployeeIdValid(raw)
  {
    assert EmployeeIdIssues("employeeId", raw)[0].message == "Employee ID must be at least 3 characters";
  }

  /** `ab` is rejected as too short. */
  lemma EmployeeIdRejectsShort()
    ensures !EmployeeIdValid("ab")
  {
    TrimKeeps("ab");
    ShortIdRejected("ab");
  }

  /** Underscore is an employee-id character... */
  lemma EmployeeIdAcceptsUnderscore()
    ensures EmployeeIdValid("EMP_001")
  {
    var s := "EMP_001";
    assert IsIdChar(s[0]) && IsIdChar(s[1]) && IsIdChar(s[2]) && IsIdChar(s[3]);
    assert IsIdChar(s[4]) && IsIdChar(s[5]) && IsIdChar(s[6]);
    IdOfIdChars(s);
  }

  /** ...but not a tenant/client-id character. */
  lemma GraphIdRejectsUnderscore()
    ensures !GraphIdValid("EMP_001")
  {
    var s := "EMP_001";
    assert Trim(s) == s by {
      TrimKeeps(s);
    }
    assert !IsGraphIdChar(s[3]);
    GraphIdRule("ms_graph_tenant_id", "Tenant ID", s);
  }

  /** The whole overtime schema accepts an entry iff each of its five fields passes its rule. */
  lemma OvertimeSchemaRule(employeeId: string, overtimeDate: string, planOvertimeHour: real,
                           fromTime: string, reason: string)
    ensures OvertimeEntryValid(employeeId, overtimeDate, planOvertimeHour, fromTime, reason) <==>
      && EmployeeIdValid(employeeId) && OvertimeDateValid(overtimeDate)
      && 0.5 <= planOvertimeHour <= 24.0 && FromTimeValid(fromTime) && 10 <= |Trim(reason)| <= 1000
  {
  }

  /**
   * The employee schema accepts a pair iff the id passes the employee-id rule and the name
   * the name rule; the path the id's issues are attached to does not matter.
   */
  lemma EmployeeSchemaRule(employeeId: string, name: string)
    ensures EmployeeSchemaIssues(employeeId, name) == [] <==> EmployeeIdValid(employeeId) && NameValid(name)
  {
    EmployeeIdRule("employee_id", employeeId);
    EmployeeIdRule("employeeId", employeeId);
  }

  /** The Microsoft Graph schema accepts a pair iff both the tenant id and the client id pass the Graph-id rule. */
  lemma MsGraphSchemaRule(tenantId: string, clientId: string)
    ensures MsGraphSchemaIssues(tenantId, clientId) == [] <==> GraphIdValid(tenantId) && GraphIdValid(clientId)
  {
    GraphIdRule("ms_graph_client_id", "Client ID", clientId);
    GraphIdRule("ms_graph_tenant_id", "Tenant ID", clientId);
  }
}
