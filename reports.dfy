/**
 * `src/pages/Reports.tsx`: the overtime records filtered by a search term and an inclusive
 * date range, with two aggregates over the filtered list (total hours, distinct employees).
 */
module Reports {
  import opened Common
  import opened Text
  import opened Dates

  datatype OvertimeRecord = OvertimeRecord(
    employeeId: string,
    overtimeDate: string,
    calculationBasedOnTime: string,
    planOvertimeHour: real,
    dateIn: string,
    fromTime: string,
    dateOut: string,
    toTime: string,
    breakFromTime: string,
    breakToTime: string,
    reason: string)

  /** The page's three filter strings; the two dates come from date inputs (`YYYY-MM-DD` or ""). */
  datatype Filters = Filters(searchTerm: string, startDate: string, endDate: string)

  /** What Clear Filters sets: all three strings empty. */
  const Cleared := Filters("", "", "")

  /** The search matches the employee id or the reason, both lower-cased; the name is not searched. */
  predicate MatchesSearch(r: OvertimeRecord, term: string) {
    Includes(Lower(r.employeeId), Lower(term)) || Includes(Lower(r.reason), Lower(term))
  }

  function Reverse<T>(xs: seq<T>): (ys: seq<T>)
    ensures |ys| == |xs| && forall i :: 0 <= i < |xs| ==> ys[i] == xs[|xs| - 1 - i]
  {
    if xs == [] then [] else Reverse(xs[1..]) + [xs[0]]
  }

  /** `d.split('.').reverse().join('-')`: `DD.MM.YYYY` becomes `YYYY-MM-DD`. */
  function IsoOf(d: string): string {
    Join(Reverse(Split(d, '.')), '-')
  }

  /** The record's date as `new Date` reads it; None is an invalid date. */
  function RecordDate(r: OvertimeRecord): Option<Date> {
    ParseIsoDate(IsoOf(r.overtimeDate))
  }

  /** `a <= b` on two `Date`s: false when either is invalid (a NaN comparison). */
  predicate NotAfter(a: Option<Date>, b: Option<Date>) {
    a.Some? && b.Some? && OnOrBefore(a.value, b.value)
  }

  /** The date predicate: true with no bound set; each bound that is set is inclusive. */
  predicate MatchesDateRange(r: OvertimeRecord, f: Filters) {
    if f.startDate == "" && f.endDate == "" then true
    else
      var item := RecordDate(r);
      && (f.startDate == "" || NotAfter(ParseIsoDate(f.startDate), item))
      && (f.endDate == "" || NotAfter(item, ParseIsoDate(f.endDate)))
  }

  predicate Keep(r: OvertimeRecord, f: Filters) {
    MatchesSearch(r, f.searchTerm) && MatchesDateRange(r, f)
  }

  /** `xs` is `ys` with some elements left out, the rest in their order. */
  predicate SubsequenceOf<T(==)>(xs: seq<T>, ys: seq<T>)
    decreases |ys|
  {
    if xs == [] then true
    else if ys == [] then false
    else (xs[0] == ys[0] && SubsequenceOf(xs[1..], ys[1..])) || SubsequenceOf(xs, ys[1..])
  }

  /**
   * `filteredData`: the records that pass both predicates, in their order. No record is
   * added, so the list is never longer than the input.
   */
  function Filtered(rs: seq<OvertimeRecord>, f: Filters): (out: seq<OvertimeRecord>)
    ensures |out| <= |rs|
    ensures forall r :: r in out <==> r in rs && Keep(r, f)
    ensures SubsequenceOf(out, rs)
  {
    if rs == [] then []
    else
      var rest := Filtered(rs[1..], f);
      if Keep(rs[0], f) then
        assert ([rs[0]] + rest)[1..] == rest;
        [rs[0]] + rest
      else
        assert rest != [] ==> SubsequenceOf(rest, rs[1..]);
        rest
  }

  /** `totalHours`: the sum of the planned hours. */
  function TotalHours(rs: seq<OvertimeRecord>): real {
    if rs == [] then 0.0 else rs[0].planOvertimeHour + TotalHours(rs[1..])
  }

  /** The employee ids occurring in the records. */
  function EmployeeIds(rs: seq<OvertimeRecord>): (ids: set<string>)
    ensures |ids| <= |rs|
  {
    if rs == [] then {} else {rs[0].employeeId} + EmployeeIds(rs[1..])
  }

  /** The ids counted are exactly those of the records. */
  lemma {:induction false} EmployeeIdsMembers(rs: seq<OvertimeRecord>, id: string)
    ensures id in EmployeeIds(rs) <==> exists r :: r in rs && r.employeeId == id
  {
    if rs != [] {
      EmployeeIdsMembers(rs[1..], id);
      if id in EmployeeIds(rs[1..]) {
        var r :| r in rs[1..] && r.employeeId == id;
        assert r in rs;
      }
      if exists r :: r in rs && r.employeeId == id {
        var r :| r in rs && r.employeeId == id;
        assert r == rs[0] || r in rs[1..];
      }
    }
  }

  /** `uniqueEmployees`: the number of distinct employee ids. */
  function UniqueEmployees(rs: seq<OvertimeRecord>): nat {
    |EmployeeIds(rs)|
  }

  // ---------------------------------------------------------------- the filter's properties

  /** An empty search matches every record. */
  lemma EmptySearchMatchesAll(r: OvertimeRecord)
    ensures MatchesSearch(r, "")
  {
    assert Lower("") == "";
  }

  /** `toLowerCase` is idempotent, so searching for a term or its lower-case form is the same. */
  lemma SearchIgnoresCase(r: OvertimeRecord, term: string)
    ensures MatchesSearch(r, term) == MatchesSearch(r, Lower(term))
  {
    assert Lower(Lower(term)) == Lower(term);
  }

  /** With neither date set, the date predicate holds. */
  lemma NoBoundsMatchAll(r: OvertimeRecord, term: string)
    ensures MatchesDateRange(r, Filters(term, "", ""))
  {
  }

  /**
   * Start and end on the same valid date keep exactly the records on that date: both
   * bounds are inclusive.
   */
  lemma SameDayRange(r: OvertimeRecord, term: string, day: string)
    requires ParseIsoDate(day).Some?
    ensures MatchesDateRange(r, Filters(term, day, day)) <==> RecordDate(r) == ParseIsoDate(day)
  {
  }

  /** A stored `DD.MM.YYYY` date is reordered into `YYYY-MM-DD`: year, month, day. */
  lemma {:induction false} IsoOfReorders(t: string)
    requires |t| == 10 && t[2] == '.' && t[5] == '.'
    requires forall i :: 0 <= i < 10 && i != 2 && i != 5 ==> IsDigit(t[i])
    ensures IsoOf(t) == t[6..10] + "-" + t[3..5] + "-" + t[0..2]
  {
    var parts := [t[0..2], t[3..5], t[6..10]];
    assert Clean(parts, '.');
    assert t == Join(parts, '.') by {
      assert Join(parts[2..], '.') == t[6..10];
      assert Join(parts[1..], '.') == t[3..5] + "." + t[6..10];
      assert t == t[0..2] + [t[2]] + t[3..5] + [t[5]] + t[6..10];
    }
    SplitJoin(parts, '.');
    var rev := [t[6..10], t[3..5], t[0..2]];
    assert Reverse(parts) == rev;
    assert Join(rev[2..], '-') == t[0..2];
    assert Join(rev[1..], '-') == t[3..5] + "-" + t[0..2];
  }

  /**
   * A record stored on `DD.MM.YYYY` is kept by the range that starts and ends on the same
   * day written `YYYY-MM-DD`, when that is a real date.
   */
  lemma StoredDayInItsOwnRange(r: OvertimeRecord, term: string)
    requires var t := r.overtimeDate;
      && |t| == 10 && t[2] == '.' && t[5] == '.'
      && forall i :: 0 <= i < 10 && i != 2 && i != 5 ==> IsDigit(t[i])
    requires var t := r.overtimeDate; ParseIsoDate(t[6..10] + "-" + t[3..5] + "-" + t[0..2]).Some?
    ensures var t := r.overtimeDate; var day := t[6..10] + "-" + t[3..5] + "-" + t[0..2];
      MatchesDateRange(r, Filters(term, day, day))
  {
    var t := r.overtimeDate;
    var day := t[6..10] + "-" + t[3..5] + "-" + t[0..2];
    IsoOfReorders(t);
    SameDayRange(r, term, day);
  }

  /** A record is kept iff it matches the search and lies between the bounds that are set. */
  lemma KeepIff(r: OvertimeRecord, f: Filters)
    requires f.startDate != "" || f.endDate != ""
    ensures Keep(r, f) <==>
      && MatchesSearch(r, f.searchTerm)
      && RecordDate(r).Some?
      && (f.startDate != "" ==> ParseIsoDate(f.startDate).Some? && OnOrBefore(ParseIsoDate(f.startDate).value, RecordDate(r).value))
      && (f.endDate != "" ==> ParseIsoDate(f.endDate).Some? && OnOrBefore(RecordDate(r).value, ParseIsoDate(f.endDate).value))
  {
  }

  /** After Clear Filters the list shows every record. */
  lemma {:induction false} ClearedShowsAll(rs: seq<OvertimeRecord>)
    ensures Filtered(rs, Cleared) == rs
  {
    if rs != [] {
      EmptySearchMatchesAll(rs[0]);
      ClearedShowsAll(rs[1..]);
    }
  }

  /** Filtering a concatenation filters each part: the filter keeps the input's order. */
  lemma {:induction false} FilteredConcat(a: seq<OvertimeRecord>, b: seq<OvertimeRecord>, f: Filters)
    ensures Filtered(a + b, f) == Filtered(a, f) + Filtered(b, f)
  {
    if a == [] {
      assert a + b == b;
    } else {
      assert (a + b)[0] == a[0] && (a + b)[1..] == a[1..] + b;
      FilteredConcat(a[1..], b, f);
    }
  }

  /** The total of a concatenation is the sum of the totals. */
  lemma {:induction false} TotalHoursConcat(a: seq<OvertimeRecord>, b: seq<OvertimeRecord>)
    ensures TotalHours(a + b) == TotalHours(a) + TotalHours(b)
  {
    if a == [] {
      assert a + b == b;
    } else {
      assert (a + b)[0] == a[0] && (a + b)[1..] == a[1..] + b;
      TotalHoursConcat(a[1..], b);
    }
  }

  /** With no negative hours, the filtered total never exceeds the total of all records. */
  lemma {:induction false} FilteredHoursBounded(rs: seq<OvertimeRecord>, f: Filters)
    requires forall r :: r in rs ==> r.planOvertimeHour >= 0.0
    ensures 0.0 <= TotalHours(Filtered(rs, f)) <= TotalHours(rs)
  {
    if rs != [] {
      FilteredHoursBounded(rs[1..], f);
    }
  }

  /**
   * The employees counted are those with a record that passes the filter, and there are
   * never more of them than filtered records.
   */
  lemma UniqueEmployeesOfFiltered(rs: seq<OvertimeRecord>, f: Filters, id: string)
    ensures id in EmployeeIds(Filtered(rs, f)) <==> exists r :: r in rs && Keep(r, f) && r.employeeId == id
    ensures UniqueEmployees(Filtered(rs, f)) <= |Filtered(rs, f)| <= |rs|
  {
    EmployeeIdsMembers(Filtered(rs, f), id);
  }

  // ---------------------------------------------------------------- the page's records

  function Sample(id: string, date: string, hours: real, from: string, to: string, reason: string): OvertimeRecord {
    OvertimeRecord(id, date, "N", hours, date, from, date, to, "", "", reason)
  }

  /** The constant list the page filters. */
  const SampleRecords: seq<OvertimeRecord> := [
    Sample("MTI240264", "19.08.2025", 3.0, "15:00", "18:00", "Pemotongan sisa kabel proyek di pyrite server"),
    Sample("MTI240264", "20.08.2025", 2.0, "15:00", "17:00", "Preventive Maintenance Network Device Panel Pyrite Plant"),
    Sample("MTI240265", "19.08.2025", 2.0, "15:00", "17:00", "Perbaikan CCTV di jembatan penyebrangan Acid Ke Choloride"),
    Sample("MTI240266", "19.08.2025", 2.0, "15:00", "17:00", "Setup PC for FAP Acid"),
    Sample("MTI250130", "21.08.2025", 4.0, "15:00", "17:00", "Perbaikan Siaran TV Di Area Gold Makarti")
  ]

  /** Unfiltered, the page shows all 5 records and 13 hours. */
  lemma SampleTotalHours()
    ensures Filtered(SampleRecords, Cleared) == SampleRecords && |SampleRecords| == 5
    ensures TotalHours(Filtered(SampleRecords, Cleared)) == 13.0
  {
    ClearedShowsAll(SampleRecords);
    var s := SampleRecords;
    assert TotalHours(s[4..]) == 4.0;
    assert TotalHours(s[3..]) == 6.0;
    assert TotalHours(s[2..]) == 8.0;
    assert TotalHours(s[1..]) == 10.0;
  }

  /** Unfiltered, the page counts 4 employees: `MTI240264` has two records. */
  lemma SampleUniqueEmployees()
    ensures UniqueEmployees(SampleRecords) == 4
  {
    IdsOfFive(SampleRecords, "MTI240264", "MTI240265", "MTI240266", "MTI250130");
    FourDistinct("MTI240264", "MTI240265", "MTI240266", "MTI250130");
  }

  lemma FourDistinct(a: string, b: string, c: string, d: string)
    requires a != b && a != c && a != d && b != c && b != d && c != d
    ensures |{a, b, c, d}| == 4
  {
  }

  /** The ids of five records where the first two share an id and the rest differ. */
  lemma IdsOfFive(s: seq<OvertimeRecord>, a: string, b: string, c: string, d: string)
    requires |s| == 5 && s[0].employeeId == a && s[1].employeeId == a
    requires s[2].employeeId == b && s[3].employeeId == c && s[4].employeeId == d
    ensures EmployeeIds(s) == {a, b, c, d}
  {
    assert s[4..][1..] == [] && s[3..][1..] == s[4..] && s[2..][1..] == s[3..] && s[1..][1..] == s[2..];
    assert s[4..][0] == s[4] && s[3..][0] == s[3] && s[2..][0] == s[2] && s[1..][0] == s[1];
    assert EmployeeIds(s[4..]) == {d};
    assert EmployeeIds(s[3..]) == {c} + EmployeeIds(s[4..]);
    assert EmployeeIds(s[2..]) == {b} + EmployeeIds(s[3..]);
    assert EmployeeIds(s[1..]) == {a} + EmployeeIds(s[2..]);
    assert EmployeeIds(s) == {a} + EmployeeIds(s[1..]);
  }

  /** Searching `a1` finds employee `A1` and not employee `B2`: the search ignores case. */
  lemma SearchExample()
    ensures var a := Sample("A1", "19.08.2025", 1.0, "15:00", "16:00", "-");
            var b := Sample("B2", "19.08.2025", 1.0, "15:00", "16:00", "-");
            Filtered([a, b], Filters("a1", "", "")) == [a]
  {
    var a := Sample("A1", "19.08.2025", 1.0, "15:00", "16:00", "-");
    var b := Sample("B2", "19.08.2025", 1.0, "15:00", "16:00", "-");
    assert Lower("a1") == "a1" && Lower("A1") == "a1" && Lower("B2") == "b2" && Lower("-") == "-";
    assert Includes("a1", "a1");
    assert !Includes("2", "a1");
    assert "b2"[1..] == "2" && "b2"[0] != "a1"[0] && !("a1" <= "b2");
    assert !Includes("b2", "a1");
    assert !Includes("-", "a1");
    assert Keep(a, Filters("a1", "", "")) && !Keep(b, Filters("a1", "", ""));
    assert [a, b][1..] == [b];
  }

  /** The record date of a record stored on a given `DD.MM.YYYY` literal. */
  lemma StoredDate(r: OvertimeRecord, dd: string, mm: string, yyyy: string)
    requires |dd| == 2 && |mm| == 2 && |yyyy| == 4
    requires forall i :: 0 <= i < |dd| ==> IsDigit(dd[i])
    requires forall i :: 0 <= i < |mm| ==> IsDigit(mm[i])
    requires forall i :: 0 <= i < |yyyy| ==> IsDigit(yyyy[i])
    requires r.overtimeDate == dd + "." + mm + "." + yyyy
    ensures RecordDate(r) == ParseIsoDate(yyyy + "-" + mm + "-" + dd)
  {
    var t := r.overtimeDate;
    assert t[0..2] == dd && t[3..5] == mm && t[6..10] == yyyy;
    forall i | 0 <= i < 10 && i != 2 && i != 5
      ensures IsDigit(t[i])
    {
      if i < 2 { assert t[i] == dd[i]; }
      else if i < 5 { assert t[i] == mm[i - 3]; }
      else { assert t[i] == yyyy[i - 6]; }
    }
    IsoOfReorders(t);
  }

  /**
   * Filtering on 19 August 2025 alone keeps a record stored as `19.08.2025` and drops one
   * stored as `20.08.2025`, whatever the search term.
   */
  lemma SameDayExample(r: OvertimeRecord, s: OvertimeRecord, term: string)
    requires r.overtimeDate == "19.08.2025" && s.overtimeDate == "20.08.2025"
    ensures MatchesDateRange(r, Filters(term, "2025-08-19", "2025-08-19"))
    ensures !MatchesDateRange(s, Filters(term, "2025-08-19", "2025-08-19"))
  {
    assert "19.08.2025" == "19" + "." + "08" + "." + "2025";
    assert "20.08.2025" == "20" + "." + "08" + "." + "2025";
    StoredDate(r, "19", "08", "2025");
    StoredDate(s, "20", "08", "2025");
    assert "2025" + "-" + "08" + "-" + "19" == "2025-08-19";
    assert "2025" + "-" + "08" + "-" + "20" == "2025-08-20";
    assert IsoShaped("2025-08-19") && IsoFields("2025-08-19") == Date(2025, 8, 19);
    assert IsoShaped("2025-08-20") && IsoFields("2025-08-20") == Date(2025, 8, 20);
    SameDayRange(r, term, "2025-08-19");
    SameDayRange(s, term, "2025-08-19");
  }
}
