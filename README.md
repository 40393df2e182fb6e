# overtime-buddy-lite in Dafny

A model of the rule-bearing core of overtime-buddy-lite, a React front end for recording
overtime, registering employees, reporting and exporting overtime, and managing admin
settings. Persistence and authentication live in a hosted backend. The model keeps the
decisions the browser code makes itself:

- **Validation** (`src/lib/validation.ts`): the four zod schemas, as ordered lists of issues
  (path and message). An input is valid when its list is empty. Each field rule is proved
  equivalent to a plain character-and-length statement.
- **Access** (`src/components/AuthGuard.tsx`, `src/hooks/useAuth.tsx`, `src/App.tsx`): the
  guard's loading → allowGuests → no user → requireAdmin chain, the `isAdmin`/`isUser`
  role predicates, and the route table. Together they decide what a visitor sees on a path.
- **Reports** (`src/pages/Reports.tsx`): the search-and-date filter over the record list,
  the hour total and the distinct-employee count, and Clear Filters.
- **Export** (`src/pages/Export.tsx`): the `;`/`\n` CSV text with its split/join round trip,
  the email form and its one gate.
- **Overtime entry** (`src/pages/OvertimeInput.tsx`): the two date conversions between
  `DD.MM.YYYY` and `YYYY-MM-DD`, and a class holding the form record with its field
  updates, date picking and the submit gate with its reset.
- **Employee registration** (`src/pages/EmployeeRegistration.tsx`): a class holding the
  employees table (a map from id to name), the form and the busy flag. `HandleSubmit`
  runs the blank check, the duplicate lookup, the insert and the reset.
- **Settings** (`src/pages/Settings.tsx`): a class holding the password form, the
  Microsoft Graph settings record and the busy flag. It covers the password gate, the
  settings load with nulls becoming `""`, the save, the redirect and the disabled button.

Support modules model the JavaScript built-ins these files rely on:

- `Text`: `trim`, `toLowerCase`, `includes`, `split` and `join`.
- `Patterns`: the regular-expression shapes used by the schemas.
- `Dates`: calendar dates, `YYYY-MM-DD` parsing, and number printing with `padStart`.

Remote answers are parameters of the methods that wait for them:

- the profile query;
- the settings query and upsert;
- the password update;
- the employee lookup and insert.

A few facts about the source that the model keeps:

- The report search covers only the employee id and the reason (`src/pages/Reports.tsx:85-87`).
- Date-out and to-time are plain inputs; nothing derives them from the date and the hours (`src/pages/OvertimeInput.tsx:203-223`).
- The client secret is upserted with the other three settings (`src/pages/Settings.tsx:107-113`); `Settings.SaveThenLoad` states its round trip.
- The guard checks the loading state before anything else (`src/components/AuthGuard.tsx:15-21`).

## Model

| member | source | states |
|---|---|---|
| Text.Lower | src/pages/Reports.tsx:86-87 | defines `toLowerCase`, code point by code point |
| Text.Includes | src/pages/Reports.tsx:86-87 | defines `includes`: the needle is a prefix of the string or of one of its suffixes |
| Text.Join | src/pages/Export.tsx:50-53 | defines `join` with a one-character separator; the empty list joins into "" |
| Text.TrimStart | src/lib/validation.ts:6 | the result is a suffix of the input, does not start with white space, and everything dropped is white space |
| Text.TrimEnd | src/lib/validation.ts:6 | the result is a prefix of the input, does not end with white space, and everything dropped is white space |
| Text.Trim | src/lib/validation.ts:6 | the result is no longer than the input, has no white space at either end, and is empty iff the input is all white space |
| Text.TrimKeeps | src/lib/validation.ts:6 | a string with no white space at either end is its own trim |
| Text.IncludesAt | src/pages/Reports.tsx:85-87 | `includes` holds iff the needle occurs at some offset of the string |
| Text.Split | src/pages/Export.tsx:50-53 | a split has at least one part, and no part holds the separator |
| Text.SplitPrefix | src/pages/Export.tsx:50-53 | splitting a separator-free part, a separator and a rest gives the part followed by the rest's split |
| Text.SplitNoSeparator | src/pages/OvertimeInput.tsx:87-91 | a string without the separator splits into itself alone |
| Text.SplitJoin | src/pages/Export.tsx:50-53 | splitting a join gives back the parts when none of them holds the separator |
| Patterns.Repeat | src/lib/validation.ts:26 | `k{n}` is n copies of the class |
| Patterns.MatchesPlusIff | src/lib/validation.ts:9 | an anchored `[k]+` accepts exactly the non-empty strings made only of class characters |
| Patterns.MatchesSeqIff | src/lib/validation.ts:26 | an anchored fixed pattern accepts exactly the strings of its length that match position by position |
| Patterns.FindsIff | src/lib/validation.ts:44-46 | an unanchored `[k]` holds iff some character is in the class |
| Validation.EmployeeIdIssues | src/lib/validation.ts:5-9 | defines the employee-id checks in order: trim, min 3, max 20, the character class |
| Validation.NameIssues | src/lib/validation.ts:10-14 | defines the name checks in order: trim, min 2, max 100, the character class |
| Validation.OvertimeDateIssues | src/lib/validation.ts:24-26 | defines the overtime-date checks: non-empty, then the `DD.MM.YYYY` shape |
| Validation.HoursIssues | src/lib/validation.ts:27-29 | defines the hours checks: min 0.5, max 24 |
| Validation.FromTimeIssues | src/lib/validation.ts:30-32 | defines the start-time checks: non-empty, then the `HH:MM` shape |
| Validation.ReasonIssues | src/lib/validation.ts:33-36 | defines the reason checks: trim, min 10, max 1000 |
| Validation.NewPasswordIssues | src/lib/validation.ts:41-46 | defines the new-password checks: min 8, max 100, then upper-case, lower-case and digit |
| Validation.GraphIdIssues | src/lib/validation.ts:55-64 | defines the tenant/client-id checks: trim, min 1, max 100, the character class |
| Validation.EmployeeSchemaIssues | src/lib/validation.ts:4-15 | defines the employee schema: the id issues, then the name issues |
| Validation.OvertimeSchemaIssues | src/lib/validation.ts:18-37 | defines the overtime schema: the issues of the five fields in order |
| Validation.PasswordSchemaIssues | src/lib/validation.ts:40-51 | defines the password schema: the new-password issues, then the mismatch issue on `confirmPassword` |
| Validation.MsGraphSchemaIssues | src/lib/validation.ts:54-65 | defines the Graph schema: the tenant-id issues, then the client-id issues |
| Validation.ClassMeaning | src/lib/validation.ts:9 | the bracket classes of the schemas are the id, name and Graph-id character sets |
| Validation.EmployeeIdRule | src/lib/validation.ts:5-9 | an employee id is valid iff its trim has 3 to 20 characters, all ASCII letters, digits, `_` or `-` (20 is accepted) |
| Validation.NameRule | src/lib/validation.ts:10-14 | a name is valid iff its trim has 2 to 100 letters, white space, `'` or `-` |
| Validation.OvertimeDateRule | src/lib/validation.ts:24-26 | an overtime date is valid iff it is two digits, `.`, two digits, `.`, four digits, untrimmed |
| Validation.OvertimeDateHasNoRangeCheck | src/lib/validation.ts:24-26 | `99.99.0000` is accepted and a leading space is rejected |
| Validation.HoursRule | src/lib/validation.ts:27-29 | hours are valid iff 0.5 <= x <= 24 |
| Validation.FromTimeRule | src/lib/validation.ts:30-32 | a start time is valid iff it is two digits, `:`, two digits |
| Validation.ReasonRule | src/lib/validation.ts:33-36 | a reason is valid iff its trimmed length is 10 to 1000 |
| Validation.PasswordRule | src/lib/validation.ts:40-51 | a password form is valid iff the new password has 8 to 100 characters with an upper-case letter, a lower-case letter and a digit, and the confirmation equals it |
| Validation.GraphIdRule | src/lib/validation.ts:54-65 | a tenant or client id is valid iff its trim has 1 to 100 ASCII letters, digits or `-` |
| Validation.EmployeeIdAcceptsExample | src/lib/validation.ts:5-9 | `EMP-001` is a valid employee id |
| Validation.ShortIdRejected | src/lib/validation.ts:7 | an id whose trim is shorter than 3 is rejected, whatever its characters |
| Validation.EmployeeIdRejectsShort | src/lib/validation.ts:7 | `ab` is rejected |
| Validation.EmployeeIdAcceptsUnderscore | src/lib/validation.ts:9 | `_` is allowed in an employee id |
| Validation.GraphIdRejectsUnderscore | src/lib/validation.ts:59 | `_` is not allowed in a tenant id |
| Validation.OvertimeSchemaRule | src/lib/validation.ts:18-37 | the overtime schema accepts an entry iff each of its five fields passes its own rule |
| Validation.EmployeeSchemaRule | src/lib/validation.ts:4-15 | the employee schema accepts a pair iff the id passes the employee-id rule and the name the name rule |
| Validation.MsGraphSchemaRule | src/lib/validation.ts:54-65 | the Graph schema accepts a pair iff both the tenant id and the client id pass the Graph-id rule |
| Auth.FetchProfile | src/hooks/useAuth.tsx:45-56 | defines `fetchProfile`: the row found, or no profile on an error |
| Auth.IsAdmin | src/hooks/useAuth.tsx:200-202 | defines `isAdmin`: a profile is loaded and its role is admin |
| Auth.IsUser | src/hooks/useAuth.tsx:204-206 | defines `isUser`: a profile is loaded and its role is user |
| Auth.NoProfileNoRole | src/hooks/useAuth.tsx:200-206 | with no profile, neither role predicate holds |
| Auth.RolesExclusive | src/hooks/useAuth.tsx:11 | at most one role predicate holds, a guest profile satisfies neither, and each needs a non-guest profile |
| Auth.FailedFetchIsNotAdmin | src/hooks/useAuth.tsx:52-54 | a failed profile query gives no profile, hence neither admin nor user |
| Auth.FetchedAdmin | src/hooks/useAuth.tsx:45-56 | the fetched profile is admin iff the query found a row with role admin |
| Guard.Decide | src/components/AuthGuard.tsx:12-38 | defines the guard: spinner while loading, then allowGuests, then no user, then requireAdmin |
| Guard.LoadingShowsSpinner | src/components/AuthGuard.tsx:15-21 | while loading, the spinner shows whatever the flags |
| Guard.GuestsAlwaysRender | src/components/AuthGuard.tsx:24-26 | once loaded, a guest-open page renders for anyone, even with requireAdmin set |
| Guard.SignedOutGoesToAuth | src/components/AuthGuard.tsx:29-31 | a signed-out visitor on a closed page goes to `/auth`, never to `/` |
| Guard.NonAdminGoesHome | src/components/AuthGuard.tsx:34-36 | a signed-in non-admin on an admin page goes to `/` |
| Guard.UnflaggedRendersForAnyUser | src/components/AuthGuard.tsx:29-38 | a page without flags renders for any signed-in user, with any profile or none |
| Guard.AdminPageRendersOnlyForAdmins | src/components/AuthGuard.tsx:29-38 | an admin page that is not guest-open renders iff loading ended and a signed-in admin visits |
| Guard.Outcomes | src/components/AuthGuard.tsx:12-38 | the spinner shows iff loading, and the only redirects are to `/auth` and `/` |
| Routes.RouteFor | src/App.tsx:27-63 | defines the route table: each path with its guard flags, and NotFound for the rest |
| Routes.Visit | src/App.tsx:27-63 | defines what a visitor sees on a path: the route, run through the guard when it has one |
| Routes.AuthRouteUnguarded | src/App.tsx:27 | `/auth` shows the sign-in page in every state |
| Routes.GuestPathsOpen | src/App.tsx:28-41 | `/` and `/employee-registration` show their page to anyone once loading ends |
| Routes.UserRoleSentHomeFromAdminPaths | src/App.tsx:42-62 | a signed-in `user`-role identity is sent to `/` from the three admin paths |
| Routes.AdminPagesOnlyForAdmins | src/App.tsx:42-62 | Reports, Export and Settings are shown only on their path, to a signed-in admin |
| Routes.OtherPathsNotFound | src/App.tsx:63 | every other path shows NotFound without a guard |
| Routes.FlagsNeverBoth | src/App.tsx:28-62 | no route sets both flags; the admin-only routes are exactly the three admin paths and the guest-open ones exactly the two guest paths |
| Dates.PrevDay | src/pages/OvertimeInput.tsx:96-99 | the day before a valid date is a valid date, earlier than it, with no valid date strictly between the two |
| Dates.DigitChar | src/pages/OvertimeInput.tsx:97-99 | a digit printed is a digit character of that value |
| Dates.NatToString | src/pages/OvertimeInput.tsx:97-99 | `toString` prints decimal digits with no leading zero, one digit below 10 and at most two below 100 |
| Dates.Pad2 | src/pages/OvertimeInput.tsx:97-99 | `padStart(2, "0")` of a number below 100 has two characters |
| Dates.Pad2OfDigits | src/pages/OvertimeInput.tsx:97-99 | two digits read as a number and padded print back as themselves |
| Dates.FourDigits | src/pages/OvertimeInput.tsx:99 | a four-digit year from 1000 on prints as its own four digits |
| Dates.ParseIsoDate | src/pages/Reports.tsx:91-98 | a parsed `YYYY-MM-DD` string is a valid calendar date with a year from 0 to 9999 |
| OvertimeInput.FormatDateForInput | src/pages/OvertimeInput.tsx:85-92 | defines `formatDateForInput`: "" stays "", three dot-separated parts are reversed around `-`, anything else is kept |
| OvertimeInput.FormatDateFromInput | src/pages/OvertimeInput.tsx:94-100 | defines the corrected `formatDateFromInput`: "" stays "", a date prints as padded day, padded month and year |
| OvertimeInput.FormatDateFromInputAt | src/pages/OvertimeInput.tsx:94-100 | defines `formatDateFromInput` as written, reading the date in a local zone at the given UTC offset |
| OvertimeInput.RequiredFilled | src/pages/OvertimeInput.tsx:52 | defines the submit gate: employee id, overtime date and reason are non-empty |
| OvertimeInput.AsWrittenAgreesEastOfGreenwich | src/pages/OvertimeInput.tsx:94-100 | at UTC and east of it, the conversion as written prints the date picked |
| OvertimeInput.FromInputDigits | src/pages/OvertimeInput.tsx:94-100 | a picked date with a four-digit year is stored as its own digits reordered to `DD.MM.YYYY` |
| OvertimeInput.PickedDateRoundTrip | src/pages/OvertimeInput.tsx:85-100 | a picked date shown again after storing is the date picked |
| OvertimeInput.StoredDateRoundTrip | src/pages/OvertimeInput.tsx:85-100 | a stored `DD.MM.YYYY` date that is a real date is shown and stored back unchanged |
| OvertimeInput.ForInputReorders | src/pages/OvertimeInput.tsx:85-92 | a `DD.MM.YYYY` date is shown as `YYYY-MM-DD`, and "" stays "" |
| OvertimeInput.ForInputOfParts | src/pages/OvertimeInput.tsx:87-90 | three dot-free parts joined by dots are shown reversed and joined by dashes |
| OvertimeInput.ForInputKeepsOtherShapes | src/pages/OvertimeInput.tsx:91 | a string that does not split into three parts is shown unchanged |
| OvertimeInput.ParseExample | src/pages/OvertimeInput.tsx:96 | `2025-08-19` reads as 19 August 2025 |
| OvertimeInput.PrintYearExample | src/pages/OvertimeInput.tsx:99 | the year 2025 prints as `2025` |
| OvertimeInput.ShownExample | src/pages/OvertimeInput.tsx:85-92 | `18.08.2025` is shown as `2025-08-18` |
| OvertimeInput.LocalTimeShiftsPickedDate | src/pages/OvertimeInput.tsx:94-100 | at UTC-05:00 the conversion as written stores 19 August 2025 as `18.08.2025`, while the corrected one round-trips |
| OvertimeInput.Get | src/pages/OvertimeInput.tsx:11-23 | every field reads back a value of its own kind |
| OvertimeInput.WithChangesOnlyThatField | src/pages/OvertimeInput.tsx:41-46 | an update sets the named field and leaves every other field as it was |
| OvertimeInput.SchemaValidPassesGate | src/pages/OvertimeInput.tsx:52 | every entry the overtime schema accepts passes the page's gate |
| OvertimeInput.GateWeakerThanSchema | src/pages/OvertimeInput.tsx:52 | the gate lets through an entry the schema rejects |
| OvertimeInput.InitialFailsGate | src/pages/OvertimeInput.tsx:27-39 | the initial record does not pass the gate |
| OvertimeInput.OvertimeInputForm.constructor | src/pages/OvertimeInput.tsx:27-39 | the form starts from the initial record |
| OvertimeInput.OvertimeInputForm.HandleInputChange | src/pages/OvertimeInput.tsx:41-46 | exactly the named field is replaced |
| OvertimeInput.OvertimeInputForm.PickDate | src/pages/OvertimeInput.tsx:145-146 | the picked date is stored as `DD.MM.YYYY`, and a real date is then shown as picked |
| OvertimeInput.OvertimeInputForm.HandleSubmit | src/pages/OvertimeInput.tsx:48-83 | with a required field empty the form is kept and the submit is refused; otherwise the entry is logged, success is reported and the form resets to the initial record; nothing is stored |
| Reports.MatchesSearch | src/pages/Reports.tsx:85-87 | defines the search: the lower-cased term is in the lower-cased id or reason |
| Reports.IsoOf | src/pages/Reports.tsx:91 | defines the reordering `split(".").reverse().join("-")` |
| Reports.RecordDate | src/pages/Reports.tsx:91 | defines the record date: the reordered string read by `new Date` |
| Reports.MatchesDateRange | src/pages/Reports.tsx:89-99 | defines the date test: true with no bound, otherwise each bound that is set is inclusive |
| Reports.Keep | src/pages/Reports.tsx:101 | defines the filter predicate: the search and the date test |
| Reports.TotalHours | src/pages/Reports.tsx:105 | defines `totalHours`: the sum of the planned hours |
| Reports.UniqueEmployees | src/pages/Reports.tsx:106 | defines `uniqueEmployees`: the size of the set of employee ids |
| Reports.IsoOfReorders | src/pages/Reports.tsx:91 | a stored `DD.MM.YYYY` date is reordered into `YYYY-MM-DD` |
| Reports.StoredDayInItsOwnRange | src/pages/Reports.tsx:89-99 | a record is kept by the range that starts and ends on its own stored day, when that day is a real date |
| Reports.StoredDate | src/pages/Reports.tsx:91 | a record stored as `DD.MM.YYYY` has the date that `YYYY-MM-DD` reads as |
| Reports.SameDayExample | src/pages/Reports.tsx:89-99 | the range 2025-08-19..2025-08-19 keeps a record stored as `19.08.2025` and drops one stored as `20.08.2025` |
| Reports.Reverse | src/pages/Reports.tsx:91 | the reversed list has the same length, with element i taken from the mirrored position |
| Reports.Filtered | src/pages/Reports.tsx:84-103 | the kept records are exactly those passing both predicates, in their order, never more than the input |
| Reports.EmployeeIds | src/pages/Reports.tsx:106 | there are no more distinct ids than records |
| Reports.EmployeeIdsMembers | src/pages/Reports.tsx:106 | an id is counted iff some record carries it |
| Reports.EmptySearchMatchesAll | src/pages/Reports.tsx:85-87 | an empty search matches every record |
| Reports.SearchIgnoresCase | src/pages/Reports.tsx:85-87 | searching for a term or for its lower-case form is the same |
| Reports.NoBoundsMatchAll | src/pages/Reports.tsx:89-90 | with neither date set, the date predicate holds |
| Reports.SameDayRange | src/pages/Reports.tsx:91-99 | start and end on the same day keep exactly the records on that day |
| Reports.KeepIff | src/pages/Reports.tsx:84-103 | with a bound set, a record is kept iff it matches the search and lies on or between the bounds that are set |
| Reports.ClearedShowsAll | src/pages/Reports.tsx:202-206 | after Clear Filters the list shows every record |
| Reports.FilteredConcat | src/pages/Reports.tsx:84-103 | filtering a concatenation filters each part, so order is kept |
| Reports.TotalHoursConcat | src/pages/Reports.tsx:105 | the total of a concatenation is the sum of the totals |
| Reports.FilteredHoursBounded | src/pages/Reports.tsx:105 | with no negative hours, the filtered total lies between 0 and the total of all records |
| Reports.UniqueEmployeesOfFiltered | src/pages/Reports.tsx:106 | the ids counted are those of kept records, and there are no more of them than kept records |
| Reports.SampleTotalHours | src/pages/Reports.tsx:11-77 | unfiltered, the page shows 5 records and 13 hours |
| Reports.SampleUniqueEmployees | src/pages/Reports.tsx:11-77 | unfiltered, the page counts 4 employees |
| Reports.SearchExample | src/pages/Reports.tsx:85-87 | searching `a1` keeps employee `A1` and drops employee `B2` |
| CsvExport.CsvContent | src/pages/Export.tsx:50-53 | defines the CSV text: the header line and one line per row, `;` between fields and `\n` between lines |
| CsvExport.RowLines | src/pages/Export.tsx:52 | one line per row |
| CsvExport.ParseCsv | src/pages/Export.tsx:50-53 | one parsed row per line |
| CsvExport.JoinAvoids | src/pages/Export.tsx:51-52 | a character in no field, other than `;`, is not in the joined line |
| CsvExport.LinesHaveNoNewline | src/pages/Export.tsx:50-53 | without a newline in any field, no line holds a newline |
| CsvExport.LineCount | src/pages/Export.tsx:50-53 | without a newline in any field, the text has 1 + rows lines |
| CsvExport.ParseJoined | src/pages/Export.tsx:50-53 | newline-free lines joined by `\n` read back line by line |
| CsvExport.CsvRoundTrip | src/pages/Export.tsx:50-53 | when no field holds `;` or `\n`, reading the text back gives the header and the rows |
| CsvExport.HeaderIsSafe | src/pages/Export.tsx:29-41 | the header has 11 columns, none holding a delimiter |
| CsvExport.FixedShapeIsSafe | src/pages/Export.tsx:44-48 | a row of the fixed shape has 11 fields and is safe when its varying fields are |
| CsvExport.FirstReasonIsSafe | src/pages/Export.tsx:45 | the first reason holds no delimiter |
| CsvExport.SecondReasonIsSafe | src/pages/Export.tsx:46 | the second reason holds no delimiter |
| CsvExport.ThirdReasonIsSafe | src/pages/Export.tsx:47 | the third reason holds no delimiter |
| CsvExport.SampleRowIsSafe | src/pages/Export.tsx:44-48 | every data row has 11 fields, none holding a delimiter |
| CsvExport.SampleCsv | src/pages/Export.tsx:29-53 | the exported text has 4 lines and reads back as the header and the three rows |
| CsvExport.With | src/pages/Export.tsx:20-25 | the named field takes the value |
| CsvExport.WithChangesOnlyThatField | src/pages/Export.tsx:20-25 | an input change leaves the other four fields as they were |
| CsvExport.ExportPage.constructor | src/pages/Export.tsx:12-18 | the email form starts with five empty fields |
| CsvExport.ExportPage.HandleInputChange | src/pages/Export.tsx:20-25 | exactly the named field of the email form is replaced |
| CsvExport.ExportPage.HandleSendEmail | src/pages/Export.tsx:71-88 | a validation error iff the recipient or subject is empty, and otherwise always "integration required": nothing is sent |
| CsvExport.ExportPage.GenerateCsv | src/pages/Export.tsx:27-53 | the text is the fixed table whatever the form holds, has 4 lines and reads back as header and rows |
| EmployeeRegistration.Blank | src/pages/EmployeeRegistration.tsx:28 | defines the blank check: the id or the name is nothing but white space |
| EmployeeRegistration.SubmitOutcome | src/pages/EmployeeRegistration.tsx:25-96 | defines how a submit ends: blank check, then an unreachable backend, then the lookup, then the insert |
| EmployeeRegistration.TableAfter | src/pages/EmployeeRegistration.tsx:58-63 | defines the table after a submit: one new row on a registration, unchanged otherwise |
| EmployeeRegistration.With | src/pages/EmployeeRegistration.tsx:18-23 | the named field takes the value and the other keeps its value |
| EmployeeRegistration.BlankIsTrimEmpty | src/pages/EmployeeRegistration.tsx:28 | a form is blank iff trimming the id or the name leaves "" |
| EmployeeRegistration.BlankRejected | src/pages/EmployeeRegistration.tsx:28-35 | a blank id or name is refused before the backend is asked, and the table is unchanged |
| EmployeeRegistration.ExistingRejected | src/pages/EmployeeRegistration.tsx:41-55 | an id already in the table is refused as existing, and nothing is inserted |
| EmployeeRegistration.RegisteredIff | src/pages/EmployeeRegistration.tsx:25-96 | a submit registers iff the fields are filled, the backend answers, the id is new and the insert succeeds |
| EmployeeRegistration.RegistrationAddsOneRow | src/pages/EmployeeRegistration.tsx:58-63 | a registration adds exactly one row, keyed by the untrimmed id and holding the untrimmed name |
| EmployeeRegistration.ExistingRowsKept | src/pages/EmployeeRegistration.tsx:25-96 | no submit removes or changes an existing row |
| EmployeeRegistration.LookupIsUntrimmed | src/pages/EmployeeRegistration.tsx:41-45 | the same id with a leading space passes the lookup and becomes a second row |
| EmployeeRegistration.EmployeeRegistrationPage.constructor | src/pages/EmployeeRegistration.tsx:12-16 | the page starts with an empty form, not loading |
| EmployeeRegistration.EmployeeRegistrationPage.HandleInputChange | src/pages/EmployeeRegistration.tsx:18-23 | exactly the named field is replaced |
| EmployeeRegistration.EmployeeRegistrationPage.Clear | src/pages/EmployeeRegistration.tsx:149 | both fields become "" and the table is untouched |
| EmployeeRegistration.EmployeeRegistrationPage.HandleSubmit | src/pages/EmployeeRegistration.tsx:25-96 | the outcome and new table follow the check, lookup and insert; the form resets only after a registration; loading is false after every path past the blank check |
| Settings.FromRow | src/pages/Settings.tsx:60-67 | defines the load mapping: the flag copied, null text columns as "" |
| Settings.ToRow | src/pages/Settings.tsx:107-113 | defines the upserted row: all four settings, the secret included |
| Settings.SettingsAfterFetch | src/pages/Settings.tsx:46-68 | defines the settings after a load: unchanged without a user, on an error other than "no rows", or without data; otherwise the loaded row |
| Settings.PasswordOutcomeOf | src/pages/Settings.tsx:70-91 | defines how a password change ends: mismatch, then too short, then the update answer |
| Settings.SubmitDisabled | src/pages/Settings.tsx:196 | defines the disabled button: busy, or the two passwords differ |
| Settings.Redirects | src/pages/Settings.tsx:36-38 | defines the page redirect: not loading, and no user or not an admin |
| Settings.WithSetting | src/pages/Settings.tsx:93-98 | the named setting takes the value |
| Settings.WithSettingChangesOnlyThatField | src/pages/Settings.tsx:93-98 | a settings change leaves the other three fields as they were |
| Settings.NullsLoadAsEmpty | src/pages/Settings.tsx:60-67 | null text columns load as "", and the flag is copied |
| Settings.SaveThenLoad | src/pages/Settings.tsx:60-67 | loading the row that was saved gives back the saved settings, the client secret included |
| Settings.FailedLoadKeepsSettings | src/pages/Settings.tsx:55-58 | a load that finds no row, or fails with another code, leaves the settings as they were |
| Settings.MismatchReportedFirst | src/pages/Settings.tsx:73-76 | a mismatch is reported whatever the length |
| Settings.UpdateAttemptedIff | src/pages/Settings.tsx:73-84 | the update is attempted iff the passwords match and have at least 6 characters |
| Settings.SchemaValidPassesPage | src/pages/Settings.tsx:73-81 | every password the shared schema accepts passes the page's check |
| Settings.PageWeakerThanSchema | src/pages/Settings.tsx:78-81 | a matching 6- or 7-character password passes the page but not the schema |
| Settings.EnabledSubmitNeverMismatches | src/pages/Settings.tsx:196 | a submit through the enabled button is never a mismatch, and is too short iff under 6 characters |
| Settings.RedirectMatchesGuard | src/pages/Settings.tsx:36-38 | the page redirects iff the admin guard around it redirects |
| Settings.SettingsPage.constructor | src/pages/Settings.tsx:23-33 | the page starts not loading, with empty passwords and default settings |
| Settings.SettingsPage.SetNewPassword | src/pages/Settings.tsx:169-172 | only the new password changes |
| Settings.SettingsPage.SetConfirmPassword | src/pages/Settings.tsx:185-188 | only the confirmation changes |
| Settings.SettingsPage.HandlePasswordChange | src/pages/Settings.tsx:70-91 | the outcome follows mismatch, then length, then the update; the fields clear only after a successful update; the busy flag ends false once an update was attempted |
| Settings.SettingsPage.HandleAdminSettingsChange | src/pages/Settings.tsx:93-98 | exactly the named setting is replaced |
| Settings.SettingsPage.FetchAdminSettings | src/pages/Settings.tsx:46-68 | the settings become the loaded row, or stay as they were without a user, on an error other than "no rows", or without data |
| Settings.SettingsPage.SaveAdminSettings | src/pages/Settings.tsx:100-123 | without a user nothing happens; otherwise the row upserted holds all four fields and the busy flag ends false |

## Left out

- Every backend call is out: the Supabase queries, inserts, upserts, the password update and sign-in. Their answers are method parameters (`Remote`, `FetchReply`, `updateSucceeds`, `saveSucceeds`) or a profile reply.
- The auth session wiring, the inactivity timer and its DOM listeners in `src/hooks/useAuth.tsx` are timers and event plumbing. Only the role predicates and the failed-fetch rule are modelled.
- `src/pages/UserManagement.tsx` is not part of this model. Its logic is a sequence of remote writes.
- `src/components/EditOvertimeDialog.tsx` is not part of this model. It copies a record and forwards it to the backend.
- `src/components/Layout.tsx` is not part of this model. It is presentation.
- `src/integrations/supabase/types.ts` is not part of this model. Its `app_role` enum has two values; the role type used by the logic has three (`admin`, `guest`, `user`), and that is what `Auth.Role` models.
- The Blob, object URL and anchor click of the CSV download, and the file name built from the current date, are DOM side effects.
- The "Export CSV" button of the reports page has no handler, so there is nothing to model.
- Text lengths are counted in code points. JavaScript counts UTF-16 units, so characters outside the Basic Multilingual Plane count once here and twice in the source.
- Text.Lower: lower-cases only the upper-case letters of ASCII and Latin-1. Full Unicode case mapping is not modelled.
- Validation.NameRule: `\p{L}` is approximated by the letters of ASCII, Latin-1 and Latin Extended-A and B.
- Hours are `real`. Floating-point rounding of the sum is not modelled.
- Dates.ParseIsoDate: reads only strict `YYYY-MM-DD` strings naming a real calendar date. Every other string is an invalid date, whose comparisons are false. The other formats JavaScript's `Date` accepts are not modelled.
- OvertimeInput.FormatDateFromInput: the local time zone is a parameter of the as-written member, and the form uses the corrected, zone-free conversion.
- OvertimeInput.PickedDateRoundTrip: stated for years from 1000 to 9999. Shorter years are not padded by the source, so they do not round-trip.
- CsvExport.ExportPage.HandleInputChange: the field is one of the five form fields. The source accepts any string as the key and would add a sixth property for an unknown one.
- OvertimeInput.OvertimeInputForm.HandleInputChange: the value must be of the field's own kind (a number for the hours, a string otherwise). The source's `string | number` type does not enforce this.
- EmployeeRegistration.SubmitOutcome: assumes the backend refuses an insert whose id is already in the table. The schema supports this: `overtime_records_employee_id_fkey` references `employees.employee_id` (`src/integrations/supabase/types.ts:131-135`), and a referenced column must be unique. `Unreachable` stands for a thrown call before any insert happened.
- Router matching is on exact path strings. Trailing slashes and case-insensitive matching are not modelled.
- Toast messages and console logging are represented only by the outcome values they report.
- OvertimeInput.OvertimeInputForm.HandleSubmit: the source stores nothing on submit; it logs the entry, reports success and resets the form (`src/pages/OvertimeInput.tsx:61-82`). `Logged` carries the logged entry.

## Findings

| source | as written | input that shows it | evidently intended | confidence | as-written member | corrected member |
|---|---|---|---|---|---|---|
| src/pages/OvertimeInput.tsx:94-100 | `new Date("YYYY-MM-DD")` is midnight UTC, but the day, month and year are read with the local-time getters | picking `2025-08-19` in a zone at UTC-05:00 stores `18.08.2025`, and the date input then shows `2025-08-18` | the stored date is the date picked, so that showing it again gives the same date | not executed | OvertimeInput.FormatDateFromInputAt (shown by OvertimeInput.LocalTimeShiftsPickedDate) | OvertimeInput.FormatDateFromInput (round trip OvertimeInput.PickedDateRoundTrip) |
