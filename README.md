# A verified model of the youth-group administration tool

The system is the administration tool of a church youth group (청년부):
a small FastAPI backend that keeps members and pastoral visits (심방) in
two in-memory lists, and a React front end that lists, filters, exports
and edits members, attendance, visits, forum posts and season updates.
Each Dafny module below models one source file, in the form that file
takes:

- **Backend** (`backend.dfy`): the `Store` class holds the member and
  visit lists and creates, updates and deletes by id with `max + 1` ids and
  protected fields; the status, filtered, visit and attendance-rate
  aggregators are counting loops proved against tally functions.
- **String utilities** (`phone_utils.dfy`, `sanitization.dfy`,
  `validation.dfy`, `cell_validation.dfy`, `excel_cell_validation.dfy`):
  character-class filters and rule checks, with their ranges, idempotence
  and if-and-only-if acceptance conditions.
- **Season-update Excel pipeline** (`excel_field_mapping.dfy`,
  `data_mapping.dfy`, `excel_utils.dfy`, `season_update.dfy`): the
  column/field maps and their inverse, the cell parsers, empty-field
  filling, the three-stage matching of sheet rows against server users
  with its error rows, and the sheet page's sync and apply steps.
- **Attendance** (`attendance_data.dfy`, `attendance_data_2025.dfy`,
  `dashboard.dfy`, `main_dashboard.dfy`, `quick_stats.dfy`,
  `attendance_chart.dfy`, `worship_status.dfy`): streak counting with
  exclusive buckets, the 2025 week calendar and monthly summaries, the
  dashboards' classifications, option lists, trends and chart series.
- **CSV exports** (`export_attendance_data.dfy`, `forum.dfy`,
  `visitation_management.dfy`): the files are built line by line and
  proved to split back into their cells.
- **Pages with state** (`members_main.dfy`, `members_legacy.dfy`,
  `member_detail.dfy`, `visitation_management.dfy`, `visitation_main.dfy`,
  `visitation_detail.dfy`, `visitation_detail_main.dfy`,
  `visitation_statistics.dfy`, `forum.dfy`, `combo_box.dfy`,
  `editable_data_table.dfy`, `file_upload.dfy`): each page's React state
  is a class whose methods are the handlers, each stating the whole new
  state; the pure selections, filters and sorts beside them are functions
  with lemmas.
- **Small stateful helpers** (`use_retry.dfy`, `member_service.dfy`,
  `logger.dfy`, `auth_utils.dfy`, `build.dfy`): the retry loop and its
  count map, the organisation cache, the logger's level filter and key
  masking, cookie parsing and the build script's mode handling.

`common.dfy` holds the shared vocabulary: options, filters, distinct
lists, insertion sort by a comparator, string order, split and join,
trimming, lower-casing, integer parsing and printing, and counting.
The keyword extraction of `src/components/main/VisitationManagement.tsx`
is the same code as that of `src/components/VisitationManagement.js` and
is modelled once, by `VisitationManagement.ExtractKeywords`; likewise
`src/components/main/WorshipStatus.tsx` shares the model of
`src/components/WorshipStatus.js`.

Clock readings, random draws, server replies and browser storage are
parameters of the members that need them. Strings are sequences of
characters; JavaScript numbers that are counts are integers.

## Model

| member | source | states |
|---|---|---|
| Backend.MemberIndex | backend/main.py:574-577 | the index found is the first member with that id; `None` exactly when no member has it |
| Backend.VisitationIndex | backend/main.py:766-769 | the index found is the first visitation with that id; `None` exactly when none has it |
| Backend.MaxMemberIdIsMax | backend/main.py:583 | `max` over the member ids is at least every id and is one of them |
| Backend.MaxVisitationIdIsMax | backend/main.py:775 | the same for the visitation ids |
| Backend.LargestMemberId | backend/main.py:583 | the one-pass scan returns the maximum id of a non-empty list |
| Backend.LargestVisitationId | backend/main.py:775 | the one-pass scan returns the maximum visitation id |
| Backend.Store.GetMember | backend/main.py:573-578 | the first member with the id, else 404 "Member not found"; the store is unchanged |
| Backend.Store.CreateMember | backend/main.py:581-586 | the payload is appended last with id = max id + 1, the earlier members and the visitations are unchanged |
| Backend.Store.UpdateMember | backend/main.py:589-597 | the first match is replaced in place by the payload with the path id, the length and every other entry stay; an unknown id gives 404 and no change |
| Backend.Store.DeleteMember | backend/main.py:600-606 | the first match is removed and its name reported; an unknown id gives 404 and no change |
| Backend.Store.GetVisitation | backend/main.py:765-770 | the first visitation with the id, else 404 |
| Backend.Store.CreateVisitation | backend/main.py:773-779 | the payload is appended with id = max + 1 (1 for an empty list) and 작성일시 overwritten with the current time |
| Backend.Store.UpdateVisitation | backend/main.py:782-791 | the first match is replaced in place with the path id and a fresh 작성일시; unknown id gives 404 and no change |
| Backend.Store.DeleteVisitation | backend/main.py:794-800 | the first match is removed and the subject's name reported; unknown id gives 404 and no change |
| Backend.CreatedMemberIdFresh | backend/main.py:583 | the id handed out by `create_member` belongs to no stored member, so unique ids stay unique |
| Backend.CreatedMemberFound | backend/main.py:573-586 | after `create_member`, `get_member` of the new id finds the appended record |
| Backend.UpdatedMemberKeepsIds | backend/main.py:589-597 | an update keeps the length and every id in place, so unique ids stay unique and the id is still found at the same index |
| Backend.DeletedMemberGone | backend/main.py:600-606 | with unique ids a delete shortens the list by one and the id is no longer found |
| Backend.CreatedVisitationIdFresh | backend/main.py:775-779 | the new visitation id is used by no stored visitation, so unique ids stay unique |
| Backend.DeletedVisitationGone | backend/main.py:794-800 | a visitation delete removes exactly one record and keeps the others in order |
| Backend.AttendanceStatusStats | backend/main.py:658-702 | five entries, one per fixed status, each with its member count and share; an empty member list fails with 500 (division by zero) |
| Backend.StatusReport | backend/main.py:678-693 | the report has one entry per fixed status, in the fixed order |
| Backend.StatusReportCounts | backend/main.py:662-693 | the count reported for each status is the number of members with that status |
| Backend.StatusCountsBounded | backend/main.py:662-693 | the five counts add up to at most the member count, and exactly to it when every status is one of the five |
| Backend.MembersByStatus | backend/main.py:705-712 | exactly the members with that status, and their number equals that status's count in the tally |
| Backend.StatusCountIsMultiplicity | backend/main.py:705-712 | the filter's length equals the multiplicity of the status among all statuses |
| Backend.FilteredStats | backend/main.py:715-723 | department 전체 gives the global snapshot, group 전체 the department's, otherwise the `department-group` entry; an unknown key falls back to the global snapshot |
| Backend.FilteredStatsSource | backend/main.py:715-723 | every answer is the global snapshot or the one stored under the requested key |
| Backend.GetVisitationStats | backend/main.py:803-835 | fails exactly when some date does not parse; otherwise the total, the per-method and per-department tallies, and the count of visits at most 30 days old |
| Backend.VisitationCountsAddUp | backend/main.py:810-820 | the per-method counts and the per-department counts each add up to the number of visitations |
| Backend.ActiveAttendanceRate | backend/main.py:846-871 | total, 제적 대상자 count, active = total − expelled, attendees, and rate = attendees/active (0 when nobody is active) |
| Backend.ActiveRateZeroIffAllExpelled | backend/main.py:846-871 | the active count is zero exactly when every member is 제적 대상자 |
| Backend.ActiveRateCanExceedWhole | backend/main.py:846-871 | attending 제적 대상자 still count as attendees, so the rate can exceed 100% |
| PhoneUtils.ExtractNumbersDigits | src/utils/phoneUtils.ts:8-10 | the result holds exactly the ASCII digits of the input, in order; a digit string is its own result, and extracting twice changes nothing |
| PhoneUtils.FormattedDigits | src/utils/phoneUtils.ts:17-40 | the digits of the formatted number are the first eleven digits of the input (all of them when there are fewer) |
| PhoneUtils.FormatLayout | src/utils/phoneUtils.ts:21-39 | where the hyphens go by digit count: 3-4-4 for 11 or more, 3-3-4 for 10, 3-3-rest for 7 to 9, 3-rest for 4 to 6, the bare digits for 3 or fewer |
| PhoneUtils.FormatIdempotent | src/utils/phoneUtils.ts:17-40 | formatting a formatted number returns it unchanged |
| PhoneUtils.ValidatePhoneNumber | src/utils/phoneUtils.ts:45-61 | no digits gives the enter-a-number error; valid exactly when there are 10 or 11 digits starting 01 and a digit; a wrong length gives the length error before the prefix is looked at |
| PhoneUtils.ValidateFormatted | src/utils/phoneUtils.ts:17-61 | for at most eleven digits, validating the formatted number gives the same verdict as validating the input |
| Sanitization.SanitizeInput | src/utils/sanitization.ts:9-18 | the result contains none of `<`, `>`, `"`, `'`, `/` |
| Sanitization.SanitizeInputPlain | src/utils/sanitization.ts:9-18 | text without those five characters comes back unchanged (the empty string included) |
| Sanitization.SanitizeInputIdempotent | src/utils/sanitization.ts:9-18 | escaping twice equals escaping once |
| Sanitization.StripTags | src/utils/sanitization.ts:27 | tag removal never lengthens the text and adds no character |
| Sanitization.StripTagsPlain | src/utils/sanitization.ts:27 | text without `<` has nothing removed |
| Sanitization.CollapseSpaces | src/utils/sanitization.ts:33 | every run of white space becomes one space; empty iff the input is empty; no other character is introduced |
| Sanitization.CollapseSpacesFixed | src/utils/sanitization.ts:33 | single-spaced text is unchanged by the collapse |
| Sanitization.SearchTermShape | src/utils/sanitization.ts:23-36 | the search term holds only Hangul syllables, ASCII letters and digits and single spaces, with no space at either end |
| Sanitization.SearchTermIdempotent | src/utils/sanitization.ts:23-36 | sanitising a sanitised search term changes nothing |
| Sanitization.SearchTermFixed | src/utils/sanitization.ts:23-36 | text already of that shape is its own search term |
| Sanitization.SanitizeNameShape | src/utils/sanitization.ts:41-46 | the name holds only Hangul syllables, ASCII letters and white space, with no white space at either end, and sanitising it again changes nothing |
| Sanitization.SanitizeNameFixed | src/utils/sanitization.ts:41-46 | an allowed name with no white space at the ends is kept as it is, inner runs of white space included |
| Sanitization.SanitizeNameSuffixShape | src/utils/sanitization.ts:51-56 | the suffix is the ASCII letters and digits of the input, in order; applying it twice changes nothing |
| Sanitization.SanitizePhoneNumberShape | src/utils/sanitization.ts:61-66 | only digits and `-` remain, applying it twice changes nothing, and text of those characters is kept whole |
| Validation.RequiredIff | src/utils/validation.ts:10-15 | an error exactly when the value is empty or only white space, and then it is `{fieldName}을(를) 입력해주세요.` |
| Validation.EmailIff | src/utils/validation.ts:20-27 | no error exactly when the value is empty or has the `local@domain.tld` shape of the regular expression |
| Validation.Password | src/utils/validation.ts:32-52 | no error exactly when the value is non-empty (the strength checks are commented out) |
| Validation.ConfirmPassword | src/utils/validation.ts:57-63 | no error exactly when the value is non-empty and equal to the original |
| Validation.PhoneNumberAgrees | src/utils/validation.ts:68-83 | for non-empty input the form rule and `validatePhoneNumber` accept the same values with the same messages; only the helper rejects a value with no digit as missing |
| Validation.LengthBounds | src/utils/validation.ts:88-105 | `minLength(n)` fails exactly for non-empty values shorter than n, `maxLength(n)` exactly for longer ones; passing both means length n |
| Validation.NumbersOnly | src/utils/validation.ts:110-116 | no error exactly when every character is a digit (the empty value included) |
| Validation.KoreanOnly | src/utils/validation.ts:121-127 | no error exactly when every character is a Hangul jamo, syllable or white space |
| Validation.NameIff | src/utils/validation.ts:132-152 | no error exactly when the value is empty or its trimmed form has 2 to 20 characters, all Hangul, ASCII letters or white space; too short and too long give their own messages |
| Validation.SanitizedNameAccepted | src/utils/validation.ts:132-152 | a name produced by `sanitizeName` with 2 to 20 characters passes the name rule |
| Validation.NameSuffixIff | src/utils/validation.ts:157-172 | no error exactly when the value is empty or its trimmed form has 1 to 10 ASCII letters and digits; a blank value gets the bad-character message |
| Validation.SanitizedSuffixAccepted | src/utils/validation.ts:157-172 | a suffix produced by `sanitizeNameSuffix` with 1 to 10 characters passes the suffix rule |
| Validation.DaysInMonth | src/utils/validation.ts:193-196 | every month has 28 to 31 days |
| Validation.BirthDateIff | src/utils/validation.ts:177-212 | no error exactly when the value is empty, or `YYYY-MM-DD` naming a real calendar date not after today and not before 1900 |
| Validation.BirthDateRejectsImpossibleDates | src/utils/validation.ts:192-196 | `2024-13-01` and `2024-02-30` are rejected as invalid dates |
| Validation.FirstError | src/utils/validation.ts:218-226 | the combined validator returns '' exactly when every validator does, and otherwise the message of the first one that fails |
| Validation.RequiredComesFirst | src/utils/validation.ts:231-255 | each `required*` combination reports the required message for an empty or blank value |
| Validation.FieldRuleAfterRequired | src/utils/validation.ts:231-255 | for a non-blank value each combination gives its field rule's verdict |
| Validation.RequiredThenRule | src/utils/validation.ts:218-226 | required followed by a rule reports the required message for blank values and the rule's otherwise |
| CellValidation.MonthDayRanges | src/utils/cellValidation.ts:17 | the month alternatives of the date pattern are exactly the two-digit numbers 01 to 12, the day alternatives exactly 01 to 31 |
| CellValidation.FormDateIsCellDate | src/utils/cellValidation.ts:15-19 | a birth date the form rule accepts is a valid spreadsheet date (the spreadsheet rule makes no calendar check) |
| CellValidation.ValidateEmailIff | src/utils/cellValidation.ts:24-28 | valid exactly when empty or of the `local@domain.tld` shape, the same verdict as the form's email rule |
| CellValidation.PhoneTailDigits | src/utils/cellValidation.ts:35 | a value of the `-?\d{3,4}-?\d{4}` tail shape has as digits everything but its hyphens, 7 or 8 of them |
| CellValidation.CellPhoneIsMobile | src/utils/cellValidation.ts:33-37 | every value the spreadsheet phone pattern accepts also passes `validatePhoneNumber`: 10 or 11 digits starting 01 and a digit |
| CellValidation.FormattedMobileAccepted | src/utils/cellValidation.ts:33-37 | a valid mobile number formatted by `formatPhoneNumber` passes the spreadsheet phone rule |
| CellValidation.FormattedMobileShape | src/utils/phoneUtils.ts:21-27 | a valid mobile number is formatted as three hyphen-joined digit groups, the last of four digits |
| CellValidation.YesNoIff | src/utils/cellValidation.ts:42-46 | valid exactly for '', Y, y, N and n |
| CellValidation.GenderIff | src/utils/cellValidation.ts:51-55 | valid exactly for '', M, m, F, f, 남 and 여 |
| CellValidation.CellDefaults | src/utils/cellValidation.ts:61-86 | a column without a rule and an empty cell are always valid |
| ExcelCellValidation.ValidatePhoneIff | src/utils/excel/cellValidation.ts:21-38 | valid exactly when the row has no 직분 or the trimmed number is `ddd-dddd-dddd`; with a 직분 a blank number is invalid |
| ExcelCellValidation.FormattedPhoneAccepted | src/utils/excel/cellValidation.ts:21-38 | a number with at least eleven digits, once formatted by `formatPhoneNumber`, passes whatever the role |
| ExcelCellValidation.ValidateBirthdateIff | src/utils/excel/cellValidation.ts:46-57 | valid exactly when the trimmed value is two digits; trimming first changes nothing |
| ExcelCellValidation.ValidateCellDefaults | src/utils/excel/cellValidation.ts:63-84 | columns other than 번호 and 기수 are always valid, 번호 is valid in a row without 직분, a blank 기수 is invalid |
| ExcelUtils.GetExcelDataStats | src/utils/excel/excelUtils.ts:74-79 | the sheet count is the number of sheets; no sheets gives zero sheets and zero rows |
| ExcelUtils.TotalRowsAppend | src/utils/excel/excelUtils.ts:77 | the row count of two workbooks laid end to end is the sum of their row counts |
| ExcelUtils.StatsAppendSheet | src/utils/excel/excelUtils.ts:74-79 | adding a sheet adds one to the sheet count and its rows to the row count |
| ExcelUtils.TotalRowsSorted | src/utils/excel/excelUtils.ts:77 | the row count does not depend on the order of the sheets |
| ExcelFieldMapping.ExcelToApiLookup | src/utils/excel/excelFieldMapping.ts:5-14 | the entry list and the column lookup agree on every column |
| ExcelFieldMapping.InvertInverts | src/utils/excel/excelFieldMapping.ts:19-25 | with distinct values the reduced reverse table sends each value back to its key, and its keys are the values in order |
| ExcelFieldMapping.ApiToExcelInverts | src/utils/excel/excelFieldMapping.ts:19-25 | the reverse table undoes the forward one and lists gook, group, soon, name, name_suffix, phone, role, birth_date |
| ExcelFieldMapping.ExcelToApiDistinct | src/utils/excel/excelFieldMapping.ts:5-14 | no two columns map to the same field |
| ExcelFieldMapping.SyncIdentifiersMapped | src/utils/excel/excelFieldMapping.ts:31-34 | both identifier columns, 이름 and 번호, are mapped, to name and phone |
| DataMapping.ParseBirthDateShape | src/utils/excel/dataMappingUtils.ts:69-96 | by the number of digits in the cell: none gives '', one is padded with a 0, four keep the last two, any other count is kept as is; the result is all digits |
| DataMapping.ParsedBirthDateValid | src/utils/excel/dataMappingUtils.ts:69-96 | the parsed 기수 passes the two-digit 기수 rule exactly when the cell had one, two or four digits |
| DataMapping.ParseBirthDateIdempotent | src/utils/excel/dataMappingUtils.ts:69-96 | parsing a parsed 기수 changes nothing |
| DataMapping.ParsePhoneNumberShape | src/utils/excel/dataMappingUtils.ts:104-112 | the result is the input without hyphens and white space, in order; parsing twice changes nothing |
| DataMapping.ParseFormattedPhone | src/utils/excel/dataMappingUtils.ts:104-112 | a number formatted by `formatPhoneNumber` (at most eleven digits) parses back to its digits |
| DataMapping.FormattedChars | src/utils/phoneUtils.ts:17-40 | `formatPhoneNumber` writes only digits and hyphens |
| DataMapping.ExtractYearSuffix | src/utils/excel/dataMappingUtils.ts:54-57 | the suffix has at most two characters |
| DataMapping.YearSuffixOfDate | src/utils/excel/dataMappingUtils.ts:54-57 | for `YYYY-...` the suffix is the last two digits of the year |
| DataMapping.MapExcelRowToApiData | src/utils/excel/dataMappingUtils.ts:23-47 | the loop over the row's entries builds the record `MapRow` describes |
| DataMapping.MapRowGet | src/utils/excel/dataMappingUtils.ts:26-44 | the last column written under a key decides its value: the converted cell (기수 parsed, 번호 stripped, others as they are) |
| DataMapping.MapRowKeys | src/utils/excel/dataMappingUtils.ts:26-44 | the result has exactly the keys that the row's columns map to (the API field, or the column's own name when unmapped) |
| DataMapping.TargetInjective | src/utils/excel/dataMappingUtils.ts:29-43 | distinct columns that are not themselves API field names land under distinct keys |
| DataMapping.MapRowRenames | src/utils/excel/dataMappingUtils.ts:23-47 | in a row with distinct column names, none an API field name, every cell ends up under its target, converted |
| DataMapping.FillEmptyFieldsSpec | src/utils/excel/dataMappingUtils.ts:207-226 | only an empty 구분, 번호 or 기수 is filled (from name_suffix, phone_number and the year suffix of birth_date, when those are set); every other key keeps its value |
| DataMapping.FillEmptyFieldsKeys | src/utils/excel/dataMappingUtils.ts:207-226 | filling keeps the columns and their order, adds missing filled columns at the end, and keeps column names distinct |
| DataMapping.FillEmptyFieldsIdempotent | src/utils/excel/dataMappingUtils.ts:207-226 | filling again from the same user changes nothing |
| DataMapping.SyncRowOutcome | src/utils/excel/dataMappingUtils.ts:127-190 | a row is kept or filled from a user with its name, and is reported exactly when its name is shared by two or more users, none matches its 기수 and its 구분 is empty |
| DataMapping.SyncRowByName | src/utils/excel/dataMappingUtils.ts:128-145 | an empty name or a name no user has leaves the row alone; a name held by exactly one user fills from that user, without error |
| DataMapping.ErrorKeyInjective | src/utils/excel/dataMappingUtils.ts:176 | two different cells never share a `sheet-row` error key |
| DataMapping.SyncRowsSpec | src/utils/excel/dataMappingUtils.ts:127-190 | every row of a sheet is matched on its own, in place |
| DataMapping.SyncSheetRows | src/utils/excel/dataMappingUtils.ts:127-190 | the row loop returns the matched rows and the error keys of the rows that raised the error |
| DataMapping.SyncSheetsSpec | src/utils/excel/dataMappingUtils.ts:126-196 | every sheet keeps its name and has its rows matched |
| DataMapping.SyncSheetsWith | src/utils/excel/dataMappingUtils.ts:126-196 | the sheet loop returns the matched sheets and every error key |
| DataMapping.SyncExcelDataWithUserData | src/utils/excel/dataMappingUtils.ts:120-199 | the updated workbook and error set are those of matching every row against the users |
| DataMapping.SyncKeepsShape | src/utils/excel/dataMappingUtils.ts:126-196 | matching keeps the number of sheets and of rows |
| DataMapping.ErrorRowsExact | src/utils/excel/dataMappingUtils.ts:120-199 | a cell's key is in the error set exactly when its row raised the error |
| DataMapping.MapSheetRows | src/utils/excel/dataMappingUtils.ts:244-247 | the row loop maps every row of one sheet, in order |
| DataMapping.MapRowsAppend | src/utils/excel/dataMappingUtils.ts:243-248 | mapping two runs of rows gives the two mapped runs one after the other |
| DataMapping.ConvertToSeasonUpdateData | src/utils/excel/dataMappingUtils.ts:234-251 | the result is every row mapped, the sheets taken in sorted name order and each sheet's rows in order |
| DataMapping.SeasonUpdateDataShape | src/utils/excel/dataMappingUtils.ts:234-251 | one record per row of the workbook, and the sheets are visited in ascending name order |
| Logger.SensitiveCoversAsWritten | src/utils/logger.ts:75-78 | every key the written test masks is masked by the corrected test too |
| Logger.BirthDateAsWritten | src/utils/logger.ts:27-43 | no listed word occurs in the lower-cased key `birthdate`, so the written test does not mask `birthDate` |
| Logger.PersonalInfoAsWritten | src/utils/logger.ts:27-43 | no listed word occurs in `personalinfo`, so the written test does not mask `personalInfo` |
| Logger.BirthDateCorrected | src/utils/logger.ts:27-43 | comparing against the lower-cased list, `birthDate` is masked |
| Logger.PersonalInfoCorrected | src/utils/logger.ts:27-43 | comparing against the lower-cased list, `personalInfo` is masked |
| Logger.CapitalisedKeysNotSensitiveAsWritten | src/utils/logger.ts:75-78 | `birthDate` and `personalInfo` pass the written test and are caught by the corrected one |
| Logger.SanitizeData | src/utils/logger.ts:64-89 | the loop over entries and items computes the recursive masking `Sanitize` |
| Logger.SanitizeShape | src/utils/logger.ts:64-89 | sanitising keeps scalars as they are, array lengths, and object keys in order; a sensitive key's value becomes `***MASKED***` |
| Logger.SanitizeClean | src/utils/logger.ts:64-89 | every sensitive key at any depth of the result carries the mask |
| Logger.SanitizeCleanFixed | src/utils/logger.ts:64-89 | a value that is already clean is left exactly as it is |
| Logger.SanitizeIdempotent | src/utils/logger.ts:64-89 | sanitising twice equals sanitising once |
| Logger.BirthDateLoggedAsWritten | src/utils/logger.ts:64-89 | with the written test `{birthDate: "1990-01-01"}` comes through in clear; with the corrected test it is masked |
| Logger.SanitizeSingle | src/utils/logger.ts:74-87 | an object with one plain entry is masked when its key is sensitive and unchanged otherwise |
| Logger.CreateLogEntry | src/utils/logger.ts:94-107 | the entry keeps level, message, context and time; metadata is present exactly when truthy, and then sanitised with the key test given |
| Logger.BirthDateEntryAsWritten | src/utils/logger.ts:94-107 | an entry made with the written test keeps a birth date in clear; with the corrected test it carries the mask |
| Logger.FormatMessageCases | src/utils/logger.ts:117-127 | the line is `[time] [LEVEL]`, then `[context]` and the message, each only when non-empty, joined by single spaces |
| Logger.FilterParts | src/utils/logger.ts:120-126 | `filter(Boolean)` keeps the two bracketed heads and whichever of context and message is present |
| Logger.RoutingRules | src/utils/logger.ts:112-151 | below the level nothing happens; production never prints and stores only WARN and ERROR under `log_<time>`; development prints one line and never stores |
| Logger.EmittedMetadataClean | src/utils/logger.ts:94-163 | whatever is stored or printed for an entry from `createLogEntry` has its sensitive values masked by the key test used |
| Logger.ExceptionMetadataKeys | src/utils/logger.ts:210-216 | the spread metadata gets the error's stack and name, which override the caller's; other keys pass through |
| Logger.Logger.constructor | src/utils/logger.ts:23-45 | a new logger is at INFO with nothing printed or stored |
| Logger.Logger.SetLogLevel | src/utils/logger.ts:57-59 | only the level changes |
| Logger.Logger.Log | src/utils/logger.ts:112-151 | the console gains the entry's line in development, storage gains it in production for WARN and above, nothing below the level |
| Logger.Logger.LogAt | src/utils/logger.ts:168-191 | `debug`/`info`/`warn`/`error` log an entry made with the written key test |
| Logger.Logger.UserAction | src/utils/logger.ts:196-198 | an INFO entry `User Action: <action>`; storage is never touched |
| Logger.Logger.ApiCall | src/utils/logger.ts:203-205 | an INFO entry `API Call: <method> <url>`; storage is never touched |
| Logger.Logger.Exception | src/utils/logger.ts:210-216 | an ERROR entry `Exception: <message>` whose metadata carries the stack and name |
| AuthUtils.StripLeadingSpacesSpec | src/utils/authUtils.ts:30 | only leading blanks are removed, all of them, and the rest is kept whole |
| AuthUtils.StripSpaces | src/utils/authUtils.ts:30 | the `while` loop computes the blank-stripped entry |
| AuthUtils.GetCookie | src/utils/authUtils.ts:25-34 | the scan over the `;`-separated entries returns the value of the first entry that starts `name=` after its blanks, else null |
| AuthUtils.FindCookieNone | src/utils/authUtils.ts:28-33 | the lookup finds nothing exactly when no entry matches |
| AuthUtils.ShiftMatches | src/utils/authUtils.ts:28-33 | past a first entry that does not match, no entry matches exactly when none of the rest does |
| AuthUtils.FindCookieFirst | src/utils/authUtils.ts:28-33 | a found value is the rest of the first matching entry, and no earlier entry matches |
| AuthUtils.CookieRoundTrip | src/utils/authUtils.ts:19-34 | a cookie written alone as `name=value`, after any blanks, reads back as `value` |
| AuthUtils.CookieFirst | src/utils/authUtils.ts:28-31 | a matching first entry gives its value whatever follows |
| AuthUtils.CookieSkip | src/utils/authUtils.ts:28-33 | an entry that does not match is skipped and the lookup goes on after its `;` |
| AuthUtils.LongerNameNotMatched | src/utils/authUtils.ts:26-31 | a cookie whose name only begins with the wanted name (such as `accessTokenX`) is not taken for it |
| AuthUtils.GetAuthHeader | src/utils/authUtils.ts:117-124 | an empty object when there is no access token; otherwise the one entry `Authorization: Bearer <token>` |
| AuthUtils.TokensGiveHeader | src/utils/authUtils.ts:96-124 | whoever holds both tokens sends a bearer header |
| AuthUtils.SavedTokensFound | src/utils/authUtils.ts:46-100 | two freshly saved tokens, listed access first, are both found, so `hasTokens` holds |
| AuthUtils.RefreshNotFirst | src/utils/authUtils.ts:4-5 | an entry starting with `a` is never taken for the refresh token |
| AuthUtils.GetUserData | src/utils/authUtils.ts:80-91 | no or empty stored text gives null and no change; text that does not parse gives null and removes the key; a parsed value is what the stored text parses to |
| AuthUtils.SaveUserData | src/utils/authUtils.ts:58-61 | the serialised text is stored under `userData`; other keys keep their values |
| AuthUtils.UserDataRoundTrip | src/utils/authUtils.ts:58-91 | saved data that parses is read back and the storage is left as it is |
| AuthUtils.BadUserDataDroppedOnce | src/utils/authUtils.ts:80-91 | unreadable data is dropped once; a second read finds nothing and changes nothing |
| UseRetry.RunFromBounds | src/hooks/useRetry.ts:21-50 | from a given attempt the callee is called at most once per remaining attempt, and the retries announced are the following attempt numbers, one fewer than the calls |
| UseRetry.RunBounds | src/hooks/useRetry.ts:17-53 | at most maxRetries + 1 calls (3 by default), at least one; retries 1, 2, ... are announced; a negative bound makes no call and gives up |
| UseRetry.RunFromLast | src/hooks/useRetry.ts:21-50 | the run returns the outcome of its last call, and every earlier call was a network error |
| UseRetry.RunFromStops | src/hooks/useRetry.ts:31-39 | the run stops at the first success or non-network error, or at the last attempt |
| UseRetry.FirstSuccessReturned | src/hooks/useRetry.ts:22-26 | a first call that resolves is returned at once, with no retry |
| UseRetry.RetryStepsCalls | src/hooks/useRetry.ts:41-48 | retries 1..n call the callee at attempts 0..n−1 |
| UseRetry.RunEffectsCalls | src/hooks/useRetry.ts:21-53 | the effects call the callee at attempts 0, 1, ... once per call of the run, and end by resetting the count to 0 |
| UseRetry.Retrier.constructor | src/hooks/useRetry.ts:13 | the retry counts start empty |
| UseRetry.Retrier.ExecuteWithRetry | src/hooks/useRetry.ts:15-56 | returns the run's result, performs its effects in order (calls, `onRetry`, waits of delay × attempt, count updates), and leaves the key's count at 0 |
| MemberService.MapUserToMemberSpec | src/services/memberService.ts:19-33 | id, name and phone are copied; a missing or empty role becomes 청년; missing affiliation parts become ''; both attendance dates are `-` |
| MemberService.OrgIdNamedSpec | src/services/memberService.ts:78 | the id found belongs to the first organisation with that name; none exactly when no name matches |
| MemberService.ParamsSpec | src/services/memberService.ts:95-103 | the search goes out trimmed and only when something is left; each filter only when set to something other than '' and 전체; page and limit default to 1 and 10 |
| MemberService.QueryPairsSpec | src/services/memberService.ts:108-118 | page and limit are always sent, last; search, department, group and team only when defined |
| MemberService.MembersPageSpec | src/services/memberService.ts:137-150 | a reply without `data` fails; otherwise every user is mapped in order, missing members give an empty list and the pagination defaults to page 1, limit 10 |
| MemberService.GetFilterOptions | src/services/memberService.ts:234-290 | the `forEach` over the organisations, adding each name's `_`-separated parts to three sets, builds the three option lists |
| MemberService.FilterOptionsSpec | src/services/memberService.ts:252-280 | each list is sorted and free of duplicates, and holds exactly the non-empty parts found at its position in the organisation names |
| MemberService.PartsOfFullName | src/services/memberService.ts:259-270 | a full `국_그룹_순` name contributes each of its three parts to its list |
| MemberService.FullYearSpec | src/services/memberService.ts:387-390 | a two-digit year is placed in the hundred years ending with the current year and keeps its last two digits |
| MemberService.BirthDateSpec | src/services/memberService.ts:383-392 | no birth date for an empty field; an ISO date is sent as is; anything else becomes 1 January of the year it reads as |
| MemberService.ChangeBody | src/services/memberService.ts:314-320 | the bulk-change body moves every id, in order, to the organisation with role 순원 |
| MemberService.SimilarNames | src/services/memberService.ts:360-363 | at most five similar organisation names are reported |
| MemberService.Service.constructor | src/services/memberService.ts:37 | the organisation cache starts empty |
| MemberService.Service.FetchOrganizations | src/services/memberService.ts:40-52 | the cached list once one has been fetched; otherwise the reply, which is cached; a failed request gives an empty list and caches nothing |
| MemberService.Service.FindOrganizationId | src/services/memberService.ts:55-90 | the id of the organisation named `국_그룹_순` among the fetched ones, or none |
| MemberService.Service.UpdateMembersAffiliation | src/services/memberService.ts:299-328 | fails unless the organisation is found with a non-zero id; otherwise sends every member there and echoes their count and ids |
| MemberService.Service.CreateMember | src/services/memberService.ts:352-416 | an unknown organisation fails with the attempted name and up to five similar ones; no logged-in user fails; otherwise the payload carries the converted birth date and the created user is mapped |
| MemberService.CacheSticks | src/services/memberService.ts:40-47 | once a fetch has succeeded, later fetches return the same list whatever the server says |
| MemberService.MemberDetailOf | src/services/memberService.ts:331-349 | the mapped member with every history empty |
| AttendanceData.StreakSpec | src/data/attendanceData.js:118-127 | a streak is 0 to 4 weeks; every week up to it has the status, and the week right after it, if there is one, does not |
| AttendanceData.ConsecutiveWeeks | src/data/attendanceData.js:118-127 | the counting loop with its `break` returns the streak from week 1 |
| AttendanceData.TallySpec | src/data/attendanceData.js:112-166 | each bucket counts the members whose streak has exactly that length (4 and more in the top one), `totalMembers` counts every member, and the buckets together hold every member with a streak of at least one |
| AttendanceData.CalculateConsecutiveAttendance | src/data/attendanceData.js:81-169 | one pass over the group's members tallies the three services' streaks |
| AttendanceData.AbsenceTallySpec | src/data/attendanceData.js:191-236 | each list holds, in order, exactly the members whose Sunday absence streak has that length, each entry recording it; each count is its list's length |
| AttendanceData.AbsenceListSpec | src/data/attendanceData.js:191-236 | for one streak length from 2 to 4, the list holds in order exactly the members with that Sunday absence streak, and its count is its length |
| AttendanceData.CalculateConsecutiveAbsence | src/data/attendanceData.js:172-239 | one pass over the group's members builds that tally |
| AttendanceData.RecordAbsentee | src/data/attendanceData.js:191-236 | one member is counted and listed in the bucket its Sunday absence streak reaches (4 or more, 3, 2), with the streak recorded in the entry; below 2 the statistics are unchanged |
| AttendanceData.FilterGroupSpec | src/data/attendanceData.js:107-109 | a target group keeps exactly its members, in order; without one everyone is kept |
| AttendanceData2025.FirstSundayFromSpec | src/data/attendanceData2025.js:12-16 | the first-Sunday search stops at the first Sunday on or after the day, within a week |
| AttendanceData2025.SundaysApart | src/data/attendanceData2025.js:12-22 | two Sundays less than a week apart are the same day |
| AttendanceData2025.GetWeekDates | src/data/attendanceData2025.js:4-46 | the nested loops list, month by month from January to August, each Sunday with its week number in the month and the Wednesday and Friday before it |
| AttendanceData2025.SkipToSunday | src/data/attendanceData2025.js:12-16 | stepping a day at a time from the first of the month stops on the first Sunday on or after it |
| AttendanceData2025.AddMonthWeeks | src/data/attendanceData2025.js:18-41 | the month's Sundays are appended a week apart, numbered from week 1, keeping the chain of entries valid; the month gets at least one entry and the next Sunday falls in the following month |
| AttendanceData2025.ChainSundays | src/data/attendanceData2025.js:22-40 | consecutive entries are a week apart |
| AttendanceData2025.WeekDatesComplete | src/data/attendanceData2025.js:4-46 | every Sunday from January to August has an entry |
| AttendanceData2025.SplitCountsSpec | src/data/attendanceData2025.js:317-322 | present, late and absent add up to the total; late is a tenth of the drawn present count, rounded half up |
| AttendanceData2025.MonthlyTotals | src/data/attendanceData2025.js:450-458 | the accumulation over a month's weeks gives the sum of their counts |
| AttendanceData2025.SummariesSnoc | src/data/attendanceData2025.js:433-458 | one more week adds its counts to the summary of its own month only |
| AttendanceData2025.SummariesCoverAllWeeks | src/data/attendanceData2025.js:433-458 | with the intended month numbers, every week is counted in exactly one summary |
| AttendanceData2025.SummaryAsWrittenMissesJanuary | src/data/attendanceData2025.js:433-434 | as written, a January week (month 0) is in no summary 1..8, though the intended January summary holds it |
| AttendanceData2025.SummaryAsWrittenAugustEmpty | src/data/attendanceData2025.js:433-434 | as written, the summary for month 8 is always empty |
| AttendanceData2025.RateBounds | src/data/attendanceData2025.js:461-464 | a rate is between 0 and 100, and 0 exactly when nobody was present |
| AttendanceData2025.AverageAttendance | src/data/attendanceData2025.js:531-543 | the loop over months 1..8 averages the non-zero rates, 0 when there are none |
| AttendanceData2025.AverageBounds | src/data/attendanceData2025.js:531-543 | with rates between 0 and 100 the average is too, and it is 0 only when every rate is |
| AttendanceData2025.MonthlyRates | src/data/attendanceData2025.js:535-540 | the average reads eight monthly rates |
| ExportAttendanceData.CsvHeaderEmpty | src/data/exportAttendanceData.js:5-6 | the header of an empty list is the empty text |
| ExportAttendanceData.CsvHeaderReadsBack | src/data/exportAttendanceData.js:5-8 | the header of a non-empty list is one line that splits back into exactly the first object's keys, whatever the other objects hold |
| ExportAttendanceData.CellQuoting | src/data/exportAttendanceData.js:12-17 | a cell is wrapped in double quotes exactly when its value is text holding a comma, and the quotes enclose the value unchanged |
| ExportAttendanceData.CsvRowReadsBack | src/data/exportAttendanceData.js:11-19 | a CSV reader gets back every value of the object in order, commas inside text included, as long as no text holds a double quote |
| ExportAttendanceData.ExportStatsToCsv | src/data/exportAttendanceData.js:65-79 | the text built line by line is the header, the 전체 line as written and one line per 국 |
| ExportAttendanceData.StatsCsvLines | src/data/exportAttendanceData.js:66-78 | the corrected export splits into the header, the 전체 line, one line per 국 in order and nothing else; each 국 line has as many cells as the header and starts with the 국's name |
| ExportAttendanceData.OverallLineWidth | src/data/exportAttendanceData.js:70 | the 전체 line as written has one cell more than the header; the corrected one has as many |
| ExportAttendanceData.ExportActivitiesToCsv | src/data/exportAttendanceData.js:82-90 | the text built in the loop is the header followed by one line per activity |
| ExportAttendanceData.ActivitiesCsvLines | src/data/exportAttendanceData.js:83-89 | the export splits into the header and one line per activity in order, each reading back as that activity's seven fields, as many as the header has |
| ExportAttendanceData.ExportTrendsToCsv | src/data/exportAttendanceData.js:93-101 | the text built in the loop is the header followed by one line per month |
| ExportAttendanceData.TrendsCsvLines | src/data/exportAttendanceData.js:94-100 | the export splits into the header and one "month,rate%,members" line per month, in order |
| ExportAttendanceData.AppendWeekHeaders | src/data/exportAttendanceData.js:30-33 | the header loop appends, week 1 to 4, the six cells of the first three services and then the two of 대예배, each led by a comma |
| ExportAttendanceData.AppendMemberRow | src/data/exportAttendanceData.js:38-58 | one member's text is the 32 comma-led attendance cells (a missing field read as empty), then the eight base fields joined by commas and a line break |
| ExportAttendanceData.ExportMembersToCsv | src/data/exportAttendanceData.js:22-62 | the text built by the two loops is the header as written followed by every member's line as written |
| ExportAttendanceData.BaseHeadersPlain | src/data/exportAttendanceData.js:24-27 | the two header runs hold no comma or quote, and their seam fuses 가입일 with 이름 |
| ExportAttendanceData.MembersHeaderAsWrittenCells | src/data/exportAttendanceData.js:24-34 | the header as written reads as 46 cells, the eighth being 가입일이름 |
| ExportAttendanceData.MemberRowAsWrittenCells | src/data/exportAttendanceData.js:50-58 | a member line as written reads as 40 cells: an empty first cell, and the last attendance cell fused with the member's id |
| ExportAttendanceData.MembersCsvAsWrittenMisaligned | src/data/exportAttendanceData.js:24-58 | as written, the header has six cells more than every member line |
| ExportAttendanceData.MembersCsvReadsBack | src/data/exportAttendanceData.js:22-62 | the corrected export reads back as a 40-cell header and one 40-cell line per member whose cell in each column is that member's value for the column, attendance columns headed by their own key |
| Dashboard.GetConsecutiveAttendanceMembers | src/components/Dashboard.js:1232-1283 | the loop over the (group-filtered) members collects the same list as the specification of the streak list |
| Dashboard.CollectedSpec | src/components/Dashboard.js:1248-1274 | an entry is collected exactly for a member whose streak on the service is two weeks or more, carrying that member's name, 순, role and streak; there are at most as many entries as members |
| Dashboard.StreakMembersSpec | src/components/Dashboard.js:1238-1278 | the list holds one entry per member of the chosen group (all members for 전체) with a streak of two or more on the 수요 service for 'wednesday' and the 두란노 service otherwise, longest streak first, each streak between 2 and 4 |
| Dashboard.CountWeeks | src/components/Dashboard.js:1384-1391 | the week loop counts the weeks among the first n with the status |
| Dashboard.WeeksWithAll | src/components/Dashboard.js:1404-1414 | a count equal to the number of weeks means the status in every one of them |
| Dashboard.WeeksWithNone | src/components/Dashboard.js:1384-1391 | a member without the status in any of the weeks counts 0 |
| Dashboard.GetGukDetailedStats | src/components/Dashboard.js:1366-1429 | no member list gives no statistics; otherwise the figures are the tally of the 국's members |
| Dashboard.TallyDetails | src/components/Dashboard.js:1383-1425 | the loop over the 국's members ends with the same figures as the tally of those members |
| Dashboard.DetailTallySpec | src/components/Dashboard.js:1383-1414 | every member lands in exactly one of 정기 (3 or 4 weeks present), 관심 (2), 단기 (1) and 장기 (0), so the four add up to the 국's member count; each figure counts the members it describes, and every 제적 candidate (absent weeks 1 to 6) is also 장기 |
| Dashboard.DismissableIsLongAbsent | src/components/Dashboard.js:1394-1414 | a member absent all six weeks was present in none of the last four, so is 장기결석 |
| Dashboard.AttendanceRateSpec | src/components/Dashboard.js:1172-1177 | the rate is the percentage rounded half up, 0 with nobody present, 100 with everybody, never above 100 |
| Dashboard.GukOrganizationData | src/components/Dashboard.js:1136-1182 | the loop over the 국's members builds the same table as the specification of the per-group table, no table for 전체 |
| Dashboard.GroupTalliesMembers | src/components/Dashboard.js:1144-1169 | a group has a row exactly when some member belongs to it, and the row counts that group's members |
| Dashboard.GroupTalliesBounded | src/components/Dashboard.js:1160-1169 | present, absent and late together are at most the group's member count |
| Dashboard.GroupTalliesTeams | src/components/Dashboard.js:1157-1177 | the teams figure is the number of distinct 순 among the group's members |
| Dashboard.TeamsInSpec | src/components/Dashboard.js:1157 | a 순 is in the group's team set exactly when some member of the group has it |
| Dashboard.CurrentStatsSpec | src/components/Dashboard.js:1106-1119 | overall statistics for 전체, the 국's for group 전체, otherwise the group's when they exist and the 국's when not |
| Dashboard.AvailableGroupsSpec | src/components/Dashboard.js:1082-1103 | the choices start with 전체 and then list, once per distinct group of the 국's members, the group's name without " 그룹"; no more choices than the 국 has members |
| Dashboard.LeadersMembers | src/components/Dashboard.js:1096-1099 | a name is listed exactly when it is some group's name with " 그룹" taken off |
| Dashboard.GroupsOfMembers | src/components/Dashboard.js:1093 | a group is collected exactly when some member belongs to it |
| Dashboard.LeaderNameOfGroup | src/components/Dashboard.js:1097 | a group named "leader 그룹" lists the leader |
| Dashboard.ReplaceFirstSuffix | src/components/Dashboard.js:1097 | `replace` takes a pattern appended to a name off again when that is its first occurrence |
| Dashboard.HoverPositionSpec | src/components/Dashboard.js:1432-1466 | the popup never passes the right edge less 10 pixels, stays 10 pixels inside the left one on a wide enough screen, keeps the card's centre when that fits, and goes below the card exactly when its top is less than 220 pixels from the top of the screen |
| Dashboard.WeekAttendance | src/components/Dashboard.js:1013-1018 | the week's figure is the Sunday-service present count summed over the 국, missing entries skipped |
| Dashboard.WeeklyAttendanceTrends | src/components/Dashboard.js:1002-1027 | the map yields the trend of every week |
| Dashboard.TrendsSpec | src/components/Dashboard.js:1002-1027 | one point per week, the i-th labelled W(i+1), whose value is the 국 total the worship table shows for the Sunday service |
| Dashboard.WeekLabelsDistinct | src/components/Dashboard.js:1020-1022 | two weeks never share a label |
| MainDashboard.TransformAccessibleData | src/components/main/Dashboard.tsx:63-100 | the two loops produce the 국 list of the first depth-1 entry and the tagged groups of every depth-2 entry |
| MainDashboard.TagGroups | src/components/main/Dashboard.tsx:86-95 | the inner loop pushes each of the entry's groups in order, with its own id and name and the entry's id and name as its 국 |
| MainDashboard.GooksOfSpec | src/components/main/Dashboard.tsx:70-79 | the 국 list is the one of the first depth-1 entry, later ones ignored |
| MainDashboard.GroupsOfSpec | src/components/main/Dashboard.tsx:82-97 | a group is listed exactly when some depth-2 entry with an id lists it, and it then carries that entry's id and name as its 국 |
| MainDashboard.QueryParamsSpec | src/components/main/Dashboard.tsx:139-149 | `gook` is sent exactly for a chosen non-zero 국 id and `group` exactly for a chosen non-zero group id, each with its id; nothing else is sent |
| MainDashboard.AvailableGroupsSpec | src/components/main/Dashboard.tsx:316-335 | the choices are 전체 alone for 전체; otherwise 전체 and then exactly the groups of the selected 국, in order, each labelled by its organisation name, its name or "그룹 id" |
| MainDashboard.SelectedGroupNameSpec | src/components/main/Dashboard.tsx:338-348 | 전체 for 전체 or an id no group has; otherwise the label of the first group with that id |
| MainDashboard.ParseTrendSpec | src/components/main/Dashboard.tsx:262-283 | the nested axis wins, each item becoming one point with its name and count; then the array response, its `data` array and its `trend` array in that order; else no points |
| MainDashboard.ChartTypeMatchesParams | src/components/main/Dashboard.tsx:424-430 | the chart is by 국 when no 국 is chosen, by group when only the 국 is, and by 순 otherwise; with non-zero ids that is by 국 exactly when no `gook` is sent and by 순 exactly when both parameters are |
| QuickStats.GrowthReconstructs | src/components/main/QuickStats.tsx:24-31 | without a non-zero previous figure the card shows no change as an increase; otherwise the shown size and direction give back the exact difference, rising exactly when the figure did not fall |
| QuickStats.GrowthZeroOnlyWhenEqual | src/components/main/QuickStats.tsx:26-30 | against a non-zero previous figure the change shown is 0 exactly when the figures are equal |
| QuickStats.GrowthsWithoutLastWeek | src/components/main/QuickStats.tsx:34-49 | with no statistics or no previous week all four cards show no change |
| QuickStats.MissingCurrentIsZero | src/components/main/QuickStats.tsx:34-37 | a missing current member count is compared as 0, so falling from last week's n shows a drop of n |
| AttendanceChart.PositionsSpec | src/components/main/AttendanceChart.tsx:96-130 | the collected indices are exactly those of the x-axis entries that pass the chart type's test, each once, in increasing order |
| AttendanceChart.MatchingIndices | src/components/main/AttendanceChart.tsx:100-104 | the `forEach` collects the passing positions |
| AttendanceChart.PickPositionsIsFilter | src/components/main/AttendanceChart.tsx:106-129 | picking the entries at the collected positions is filtering the labels: their order kept, nothing else let in |
| AttendanceChart.NoResponse | src/components/main/AttendanceChart.tsx:73-91 | a missing response draws nothing, with zero sums and averages and a scale of 10 |
| AttendanceChart.ChartDataFiltered | src/components/main/AttendanceChart.tsx:94-139 | the shown labels are the entries ending in 국 for the 국 chart, holding 그룹 and not 순 for the group chart, ending in 순 for the 순 chart, none otherwise, in their order; each series has one value per label |
| AttendanceChart.ChartDataAligned | src/components/main/AttendanceChart.tsx:106-136 | every label is drawn with the counts recorded at its own x-axis position, in all four series |
| AttendanceChart.MaxValueDefault | src/components/main/AttendanceChart.tsx:182 | the scale is the response's maximum, or 10 when that is missing or 0, never 0 |
| AttendanceChart.GroupAndSunDisjoint | src/components/main/AttendanceChart.tsx:112-123 | no entry is shown both in the group chart and in the 순 chart |
| AttendanceChart.ChartTitle | src/components/main/AttendanceChart.tsx:58-68 | each chart type has its own title, and any other type the generic one |
| Forum.Avatar | src/components/ForumManagement.js:200 | the avatar is the name's first character, empty for an empty name |
| Forum.Pad2Value | src/components/main/ForumManagement.tsx:62 | `padStart(2, '0')` of a number below 100 is two digits that read back as the number |
| Forum.ForumStampFields | src/components/main/ForumManagement.tsx:62 | a forum stamp is 16 characters reading back as 2024-08, day 7 + i mod 3, hour 19 + i mod 2 and minute 15·i mod 60, each in its fixed two-digit field |
| Forum.PrayerStampFields | src/components/main/ForumManagement.tsx:83 | a prayer stamp reads back as 2024-08, day 7 + i mod 2, at 10:00 |
| Forum.PostsPerMember | src/components/ForumManagement.js:197-213 | one post per member in member order, carrying the member's id and name, the name's first character, "국 \| 그룹 \| 순", the i-th date and the (i mod 10)-th sample text, which repeats every ten posts |
| Forum.UndoubleDoubled | src/components/ForumManagement.js:483 | doubling the double quotes is undone by reading the field back |
| Forum.QuoteFieldRoundTrip | src/components/ForumManagement.js:483 | a field is written between double quotes and its body reads back as the field |
| Forum.PrayerCsvLines | src/components/ForumManagement.js:467-489 | the export starts with the byte-order mark and, when no field holds a line break, the rest is exactly the header line followed by one line per prayer, in order |
| Forum.TabFromQueryKnown | src/components/ForumManagement.js:433-438 | the tab changes only to a known tab named in the query, and a known tab in the query is always taken |
| Forum.PostByIdSpec | src/components/main/ForumManagement.tsx:125-129 | the look-up finds a post of the list with that id, and finds nothing exactly when no post has it |
| Forum.ViewDetailsJs | src/components/ForumManagement.js:444-454 | a prayer opens in the dialog; any other kind navigates to /forum/{id} |
| Forum.ViewDetailsSelects | src/components/main/ForumManagement.tsx:123-134 | the dialog opens, of the requested kind, on a record of that kind's list with the id, or on none exactly when none has it |
| Forum.CloseModal | src/components/main/ForumManagement.tsx:136-140 | closing leaves the dialog shut, with no record and no kind |
| Forum.PageButtonsBounded | src/components/main/ForumManagement.tsx:218-230 | the previous and next buttons keep the page within 1..5, move it by one inside that range and undo each other there |
| Forum.DetailForSpec | src/components/ForumDetail.js:103-112 | a shown post is one whose id is the route's number; otherwise the page goes back to /forum because the route is no number or no post has it |
| Forum.LinkFindsPost | src/components/ForumDetail.js:103-112 | following the list link /forum/{id} of a post with a non-negative id shows that post |
| Visitation.Generation | src/components/VisitationManagement.js:1454-1458 | the 기수 is empty exactly for a missing year and has at most two characters |
| Visitation.GenerationIsYearMod100 | src/components/main/VisitationManagement.tsx:370-374 | for a year of two or more digits the 기수 is two digits worth the year modulo 100 |
| Visitation.SaveOnlyEditedFields | src/components/VisitationDetail.js:634-637 | saving writes exactly the three form fields: the saved record shows the form, putting the old fields back gives the old record, and id, name and creation stamp stay |
| Visitation.SaveUnedited | src/components/main/VisitationDetail.tsx:108-111 | saving a form that was not edited leaves the record as it was |
| Visitation.ToggleStoredFlips | src/components/VisitationDetail.js:454-469 | when the flag agrees with the stored list, the toggle flips the id's membership and the flag together and no other id's membership changes |
| Visitation.ToggleStoredTwice | src/components/VisitationDetail.js:459-467 | favouriting an id not in the list and then unfavouriting it restores the stored list exactly |
| VisitationDetail.DetailPage.constructor | src/components/VisitationDetail.js:408-423 | the page starts loading, with no record, an empty form, no error, not editing and not favourited, over the stored favourites |
| VisitationDetail.DetailPage.Fetch | src/components/VisitationDetail.js:491-616 | the record whose id is the route's number is shown and seeds the form; a route that is no number or names no record sets the not-found error; loading ends either way and nothing else changes |
| VisitationDetail.DetailPage.LoadFavoriteStatus | src/components/VisitationDetail.js:448-451 | the flag says whether the id is in the stored list; the list, record, form, editing flag, error and loading flag stay |
| VisitationDetail.DetailPage.ToggleFavorite | src/components/VisitationDetail.js:454-469 | the stored list and the flag become the toggle's result (every copy of the id dropped when favourited, the id appended otherwise); the record, form, editing flag, error and loading flag stay |
| VisitationDetail.DetailPage.SyncForm | src/components/VisitationDetail.js:481-489 | with a record and editing off the form is reseeded from the record; otherwise it stays; every other field stays |
| VisitationDetail.DetailPage.HandleEdit | src/components/VisitationDetail.js:618-620 | editing turns on and every other field stays |
| VisitationDetail.DetailPage.HandleSave | src/components/VisitationDetail.js:622-649 | the record becomes the old record with the form's three fields merged in, and editing ends; the form, stored list, flag, error and loading flag stay |
| VisitationDetail.DetailPage.HandleCancel | src/components/VisitationDetail.js:651-658 | the form is reseeded from the unchanged record and editing ends; the stored list, flag, error and loading flag stay |
| MainVisitationDetail.FetchAlwaysNotFound | src/components/main/VisitationDetail.tsx:49-74 | with an id the fetch always ends in the not-found error with loading off, record and form untouched; without one it does nothing |
| MainVisitationDetail.SaveAndCancel | src/components/main/VisitationDetail.tsx:94-133 | without a record both do nothing; saving changes only the record's three edited fields and ends editing; cancelling restores the form from the untouched record and ends editing |
| MainVisitationDetail.CancelAfterSave | src/components/main/VisitationDetail.tsx:94-133 | cancelling right after saving keeps what was saved in the form |
| VisitationStatistics.FilteredDataMembers | src/components/VisitationStatistics.js:320-322 | every department row for 전체, otherwise exactly the rows of the chosen department |
| VisitationStatistics.SortedDataSpec | src/components/VisitationStatistics.js:325-337 | the sorted copy holds the same rows; by name it is in ascending name order, by count or percentage in descending ministry count, and any other key keeps the filtered order |
| VisitationStatistics.StatusLabelMonotone | src/components/VisitationStatistics.js:387-388 | more ministries never give a worse status: 우수 exactly above 10, 개선필요 exactly at 5 or fewer, 양호 between |
| VisitationStatistics.StatisticsPage.constructor | src/components/VisitationStatistics.js:288-289 | nothing starts expanded |
| VisitationStatistics.StatisticsPage.ToggleDepartment | src/components/VisitationStatistics.js:294-304 | the department's expansion flips and nothing else changes |
| VisitationStatistics.StatisticsPage.ToggleGroup | src/components/VisitationStatistics.js:307-317 | the group's expansion flips and nothing else changes |
| VisitationStatistics.StatisticsPage.ExpandAll | src/components/VisitationStatistics.js:416-418 | exactly the shown departments are expanded, groups untouched |
| VisitationStatistics.StatisticsPage.CollapseAll | src/components/VisitationStatistics.js:423-426 | nothing is expanded |
| VisitationStatistics.ExpandAllFiltered | src/components/VisitationStatistics.js:320-418 | expanding all over the sorted rows expands exactly the departments that pass the filter |
| WorshipStatus.FirstRows | src/components/WorshipStatus.js:285-318 | one row per week of the first eight, fewer when there are fewer weeks |
| WorshipStatus.RowsSpec | src/components/WorshipStatus.js:282-330 | at most eight rows, each built from one of the first eight weeks at the level the filters select (국, then 그룹 within a 국, then 순 within a group) and, with both dates set, dated within the inclusive range; without both dates every one of the first eight weeks is kept |
| WorshipStatus.LoadFilteredData | src/components/WorshipStatus.js:282-330 | the local list reassigned step by step ends as the specified rows |
| WorshipStatus.AttendanceOf | src/components/WorshipStatus.js:360-365 | a missing organisation or service counts as zero present out of zero; otherwise the recorded figures |
| WorshipStatus.CalculateTotalAppend | src/components/WorshipStatus.js:367-373 | the total over two lists of organisations is the sum of their totals |
| WorshipStatus.CalculateTotalMissing | src/components/WorshipStatus.js:367-373 | organisations without figures for the week add nothing |
| WorshipStatus.GroupOptionsMatchColumns | src/components/WorshipStatus.js:343-390 | within a 국 the group choices are "all" followed by exactly the columns of the 국's group table |
| WorshipStatus.DataLevelTitleNamesLevel | src/components/WorshipStatus.js:392-401 | the title is 국별 exactly at the 국 level, and otherwise starts with the 국 and ends in 그룹별 or 순별 as the level is 그룹 or 순 |
| WorshipStatus.TableWidthSpec | src/components/WorshipStatus.js:404-415 | the table is at least 1500 wide, and it is 370 plus 160 per column exactly from eight columns on |
| WorshipStatus.WorshipStatusPage.constructor | src/components/WorshipStatus.js:247-254 | the filters start at all/all with no dates, and no rows |
| WorshipStatus.WorshipStatusPage.ChangeCountry | src/components/WorshipStatus.js:274-337 | the 국 is set and the group goes back to all when the 국 changed; dates and rows stay |
| WorshipStatus.WorshipStatusPage.ChangeGroup | src/components/WorshipStatus.js:332-337 | only the group filter changes |
| WorshipStatus.WorshipStatusPage.Search | src/components/WorshipStatus.js:339-341 | the rows are reloaded for the current filters |
| SeasonUpdate.SheetsOfSpec | src/components/main/season_update/SeasonUpdate.tsx:48-55 | the workbook keeps every sheet, in order, under its own name and with its own rows |
| SeasonUpdate.CollectIdentifiers | src/components/main/season_update/SeasonUpdate.tsx:81-92 | the nested loops collect, in order, the name/phone pair of every row that carries both |
| SeasonUpdate.CollectRowIds | src/components/main/season_update/SeasonUpdate.tsx:85-92 | the inner loop over one sheet pushes, in order, the name/phone pair of each row that carries both |
| SeasonUpdate.AllRowsSpec | src/components/main/season_update/SeasonUpdate.tsx:84-85 | a row is visited exactly when some sheet holds it, and the visit counts every row of every sheet |
| SeasonUpdate.IdentifiersSpec | src/components/main/season_update/SeasonUpdate.tsx:81-98 | one identifier per row carrying both a name and a phone, each one such a row's and never empty; there are none, and the sync gives up, exactly when no row carries both |
| SeasonUpdate.ForwardTable | src/components/main/season_update/SeasonUpdate.tsx:131-133 | every entry of the column-to-field mapping is what the column lookup gives |
| SeasonUpdate.ColumnFieldInjective | src/components/main/season_update/SeasonUpdate.tsx:131-133 | distinct columns map to distinct API fields, so the reverse lookup is unambiguous |
| SeasonUpdate.ColumnForSpec | src/components/main/season_update/SeasonUpdate.tsx:131-133 | the reverse lookup gives a column exactly when the forward mapping sends that column to the field |
| SeasonUpdate.ColumnForIsFind | src/components/main/season_update/SeasonUpdate.tsx:131-133 | the field-by-field lookup agrees with the `find` over the mapping's entries |
| SeasonUpdate.ApplyEntriesSpec | src/components/main/season_update/SeasonUpdate.tsx:127-140 | a mapped column takes the record's (last) value for its API field when the record has one; every other cell stays |
| SeasonUpdate.MergeSpec | src/components/main/season_update/SeasonUpdate.tsx:115-151 | the merge keeps every sheet's name and row count; a row no server record matches is unchanged, and a matched row changes only in columns whose API field the matching record carries |
| SeasonUpdate.MergeStats | src/components/main/season_update/SeasonUpdate.tsx:115-151 | the sync keeps the sheet count and the row count |
| SeasonUpdate.ApplyUnmapped | src/components/main/season_update/SeasonUpdate.tsx:135-139 | fields without a column leave the row alone |
| SeasonUpdate.ApplyStandIn | src/components/main/season_update/SeasonUpdate.tsx:106-112 | of the stand-in reply's four fields only `name` has a column (the phone comes back as `phoneNumber`), so a reply writes the name and nothing else |
| SeasonUpdate.MergeRowStandIn | src/components/main/season_update/SeasonUpdate.tsx:106-145 | with the stand-in reply every row gets back the name it matched on, so it is left as it was |
| SeasonUpdate.SyncLeavesDataUnchanged | src/components/main/season_update/SeasonUpdate.tsx:81-151 | the sync as written leaves the workbook exactly as it was |
| SeasonUpdate.CountRows | src/components/main/season_update/SeasonUpdate.tsx:211 | the `reduce` is the total number of rows over all sheets |
| SeasonUpdate.SeasonUpdatePage.constructor | src/components/main/season_update/SeasonUpdate.tsx:23-35 | a parsable stored workbook is loaded, an unparsable one is removed from storage, and nothing is open or running |
| SeasonUpdate.SeasonUpdatePage.HandleFileSelect | src/components/main/season_update/SeasonUpdate.tsx:41-66 | the file is remembered; a readable workbook becomes the data and is stored, an unreadable one changes nothing else |
| SeasonUpdate.SeasonUpdatePage.HandleSyncWithServer | src/components/main/season_update/SeasonUpdate.tsx:72-163 | it gives up, changing nothing, without data or without a row carrying a name and a phone; otherwise the merged rows become the data and are stored, the dialog closes and the identifier count is reported |
| SeasonUpdate.SeasonUpdatePage.HandleSeasonUpdate | src/components/main/season_update/SeasonUpdate.tsx:169-221 | it gives up without data; otherwise it reports the sheet count and the total row count and closes the dialog, the data untouched |
| SeasonUpdate.SeasonUpdatePage.Reset | src/components/main/season_update/SeasonUpdate.tsx:256-262 | when confirmed the data, the file and the stored copy are dropped; otherwise nothing changes |
| SeasonUpdate.SyncThenApplyCounts | src/components/main/season_update/SeasonUpdate.tsx:115-211 | after a sync, applying reports the same sheet and row counts as before |
| EditableDataTable.RenderColumns | src/components/ui/EditableDataTable.tsx:21-26 | only a missing or empty workbook shows the empty message; otherwise the columns are exactly the first row's keys, and none for a sheet without rows |
| EditableDataTable.CellChangeOnly | src/components/ui/EditableDataTable.tsx:31-44 | exactly one cell changes: it holds the new value, and every other cell of the row, every other row and every other sheet are as before, the workbook's shape kept |
| EditableDataTable.CellChangeKeepsColumns | src/components/ui/EditableDataTable.tsx:34-37 | editing a cell of an existing column keeps the row's columns and their order |
| EditableDataTable.CellChangeKeepsStats | src/components/ui/excel/EditableDataTable.tsx:31-44 | an edit leaves the sheet and row counts unchanged |
| EditableDataTable.CellChangeUndo | src/components/ui/EditableDataTable.tsx:31-44 | typing the old value back into an existing cell restores the workbook |
| EditableDataTable.IsCellValidDefaults | src/components/ui/EditableDataTable.tsx:48-50 | in the member table, cells of unruled columns and empty cells are never flagged |
| EditableDataTable.RowDecidesPhone | src/components/ui/excel/EditableDataTable.tsx:51-53 | in the season-change table the row decides the phone rule: a blank 번호 cell is valid exactly when the row's 직분 is blank |
| ComboBox.FilterOptionsMembers | src/components/ui/ComboBox.tsx:30-36 | an option is shown exactly when it is one of the options and contains the term (every option for an empty term) |
| ComboBox.FilterOptionsOrder | src/components/ui/ComboBox.tsx:32 | the shown options keep the original order: an option added at the end that matches is shown last |
| ComboBox.FilterOptionsNarrows | src/components/ui/ComboBox.tsx:30-36 | typing more narrows the list: an option shown for a longer term is shown for any term it contains |
| ComboBox.InputText | src/components/ui/ComboBox.tsx:77 | the input shows the search term while open and the selected value otherwise |
| ComboBox.Box.constructor | src/components/ui/ComboBox.tsx:23-25 | the box starts closed with an empty search and every option shown |
| ComboBox.Box.Refilter | src/components/ui/ComboBox.tsx:30-36 | the shown options are recomputed for the current term, nothing else changes |
| ComboBox.Box.HandleSelect | src/components/ui/ComboBox.tsx:56-60 | the option is reported once, the list closes and the search clears, showing every option again |
| ComboBox.Box.HandleToggle | src/components/ui/ComboBox.tsx:62-69 | the list flips open or shut unless the box is disabled, and nothing else changes |
| ComboBox.Box.ClickOutside | src/components/ui/ComboBox.tsx:39-53 | a mouse-down outside an open box closes it and clears the search; with the box shut nothing happens |
| ComboBox.Box.Type | src/components/ui/ComboBox.tsx:78-82 | typing changes the search term only while the list is open |
| ComboBox.Box.Focus | src/components/ui/ComboBox.tsx:83-87 | focusing opens the list unless the box is disabled |
| FileUpload.AnyEndsWith | src/components/ui/excel/FileUpload.tsx:30 | the test holds exactly when the name ends in one of the extensions |
| FileUpload.AcceptedOrDefault | src/components/ui/excel/FileUpload.tsx:18 | without extensions given, .xlsx and .xls are accepted |
| FileUpload.ValidFileIgnoresCase | src/components/ui/excel/FileUpload.tsx:29-30 | a name and its lower-case form are accepted alike |
| FileUpload.ValidDefault | src/components/ui/excel/FileUpload.tsx:18-30 | with the default extensions a file is accepted exactly when its lower-cased name ends in .xlsx or .xls |
| FileUpload.UpperCaseExtensionNeverMatches | src/components/ui/excel/FileUpload.tsx:29-30 | an extension given with an upper-case letter never matches, since the name is lower-cased first |
| FileUpload.Uploader.constructor | src/components/ui/excel/FileUpload.tsx:15-24 | the accepted extensions are the given or default ones, with no error and nothing handed on |
| FileUpload.Uploader.ValidateFile | src/components/ui/excel/FileUpload.tsx:28-39 | the file passes exactly when its name is accepted; a rejection sets the error listing the extensions, a pass clears it |
| FileUpload.Uploader.HandleFileSelect | src/components/ui/excel/FileUpload.tsx:44-48 | a valid file is handed on exactly once and an invalid one never |
| Build.ModeAfterFlag | scripts/build.js:15-17 | the value after the first --mode is the mode when it is present and non-empty |
| Build.ModeDefault | scripts/build.js:16-17 | without --mode, or when the only --mode is the last argument, the mode is production |
| Build.EnvForIff | scripts/build.js:22-27 | both variables are development exactly for the development mode, and production for every other mode |
| Build.BuildEnvValues | scripts/build.js:42-47 | the build sees NODE_ENV and REACT_APP_ENV following the mode and ESLint switched off, every other variable kept |
| Build.Process.ConfigureEnv | scripts/build.js:15-32 | the mode is parsed from the arguments after the first two and the three variables are set over the old environment |
| MembersMain.FilterKeyReadsBack | src/components/main/MembersManagement.tsx:42-44 | the key is the four parts joined by `_`, and parts without `_` are read back from it |
| MembersMain.FilterKeyDetectsChange | src/components/main/MembersManagement.tsx:342-357 | for `_`-free parts the key changes exactly when one of the four parts does |
| MembersMain.ValidSearchTermSpec | src/components/main/MembersManagement.tsx:53-58 | the accepted term is "" or the sanitised, trimmed term of at least two characters; a one-character term is dropped; accepting an accepted term changes nothing |
| MembersMain.ParseFullName | src/components/main/MembersManagement.tsx:143-150 | a full `국_그룹_순` name parses back into its three parts |
| MembersMain.ParseShortNames | src/components/main/MembersManagement.tsx:143-150 | the empty name has no part, and a name without `_` has only a department |
| MembersMain.HierarchicalUnfiltered | src/components/main/MembersManagement.tsx:153-191 | without a chosen department, or before the organisations load, nothing is narrowed; departments are never narrowed, and teams only with a chosen group |
| MembersMain.HierarchicalGroups | src/components/main/MembersManagement.tsx:159-169 | with a chosen department the groups are sorted, distinct, and exactly the group parts of the organisations named `<dept>_…` |
| MembersMain.HierarchicalTeams | src/components/main/MembersManagement.tsx:171-182 | with a chosen department and group the teams are sorted, distinct, and exactly the team parts of that department's organisations that contain `_group_` |
| MembersMain.SortedMembersSpec | src/components/main/MembersManagement.tsx:212-223 | without a sort field the list is returned as it is; otherwise it holds the same members ordered by the field's value (a missing value as ""), ascending or descending |
| MembersMain.NextSortSpec | src/components/main/MembersManagement.tsx:226-236 | a header click always sorts by the clicked field, ascending for a new field and flipped for the same one, so two clicks on the same field restore the order |
| MembersMain.SelectToggledSpec | src/components/main/MembersManagement.tsx:504-506 | exactly the toggled id changes membership, and toggling back restores the selection |
| MembersMain.Ids | src/components/main/MembersManagement.tsx:498 | the ids of the loaded members, one per member in order |
| MembersMain.MembersPage.constructor | src/components/main/MembersManagement.tsx:47-81 | the page starts with no search, every filter 전체, page 1, nothing loaded, more expected, no sort and no selection |
| MembersMain.MembersPage.FiltersChanged | src/components/main/MembersManagement.tsx:342-357 | the key of the accepted term and the filters is remembered; when it differs from the last one the page goes back to 1, more is expected and the loaded members are dropped; otherwise nothing changes |
| MembersMain.MembersPage.LoadMore | src/components/main/MembersManagement.tsx:318-321 | the next page is requested only when more is expected and nothing is loading |
| MembersMain.MembersPage.Loaded | src/components/main/MembersManagement.tsx:293-301 | a first page (or one for a new filter) replaces the list and a later one is appended; more is expected while the page is below the page count |
| MembersMain.MembersPage.HandleSort | src/components/main/MembersManagement.tsx:226-236 | the sort becomes the click's next sort, nothing else changes |
| MembersMain.MembersPage.ResetFilters | src/components/main/MembersManagement.tsx:239-247 | the search clears, every filter goes to 전체, the page to 1 and the sort is dropped |
| MembersMain.MembersPage.SelectMember | src/components/main/MembersManagement.tsx:504-506 | the selection is toggled for the id, nothing else changes |
| MembersMain.MembersPage.SelectAll | src/components/main/MembersManagement.tsx:496-508 | checking selects every loaded id, so all are selected when any are loaded; unchecking selects none |
| MembersMain.MembersPage.PageChanged | src/components/main/MembersManagement.tsx:405-407 | a page change clears the selection |
| MembersMain.AddMemberErrorsSpec | src/components/main/MembersManagement.tsx:424-467 | the form is submitted exactly when there are no errors, that is when the name and suffix pass, the phone is valid, a given birth date passes and all three affiliations are chosen; each failing check files its error under its own field |
| MembersLegacy.OptionListSpec | src/components/MembersManagement.js:430-432 | each option list is sorted, free of duplicates, and holds exactly the values the members have |
| MembersLegacy.FilteredGroupsSpec | src/components/MembersManagement.js:435-440 | the dialog's groups are empty until a department is chosen, then exactly the groups of that department's members, sorted and distinct |
| MembersLegacy.FilteredTeamsSpec | src/components/MembersManagement.js:442-447 | the dialog's teams are empty until both are chosen, then exactly the teams of members in both, sorted and distinct |
| MembersLegacy.FilteredMembersSpec | src/components/MembersManagement.js:449-456 | a member is listed exactly when the lower-cased name contains the lower-cased search and each filter is 전체 or equal; the list keeps the loaded order |
| MembersLegacy.FilteredMembersAll | src/components/MembersManagement.js:449-456 | with no search and every filter 전체 everyone is listed |
| MembersLegacy.PagesCover | src/components/MembersManagement.js:458-461 | every listed member is on page index / 10 + 1, at its index modulo ten, and that page exists |
| MembersLegacy.PageSizes | src/components/MembersManagement.js:458-461 | a page holds at most ten members, every page before the last holds ten, pages past the last are empty, and there is a page exactly when someone is listed |
| MembersLegacy.Reassigned | src/components/MembersManagement.js:512-523 | the selected members are moved to the chosen affiliation and the others are kept, one entry per member in order |
| MembersLegacy.ReassignedSpec | src/components/MembersManagement.js:512-523 | only the selected members' three affiliations change, every other field and every unselected member stay, and moving the same members again changes nothing more |
| MembersLegacy.MembersBoard.constructor | src/components/MembersManagement.js:388-404 | the board starts with the loaded members, no search, every filter 전체, page 1, nothing selected, the dialog and the notice shut and no choices |
| MembersLegacy.MembersBoard.Search | src/components/MembersManagement.js:558-561 | typing sets the search and goes back to page 1; the filters, the members, selection, dialog, notice, choices, alerts and events stay |
| MembersLegacy.MembersBoard.SelectMember | src/components/MembersManagement.js:469-475 | the selection is toggled for the id, and every other field stays |
| MembersLegacy.MembersBoard.OpenModal | src/components/MembersManagement.js:478-484 | with nothing selected only an alert is raised; otherwise the dialog opens; the search, filters, page, choices, notice, selection and events stay |
| MembersLegacy.MembersBoard.CloseModal | src/components/MembersManagement.js:486-491 | the dialog closes and forgets its three choices; the search, filters, page, members, selection, notice, alerts and events stay |
| MembersLegacy.MembersBoard.DepartmentChange | src/components/MembersManagement.js:493-497 | choosing a department clears the group and the team; every other field stays |
| MembersLegacy.MembersBoard.GroupChange | src/components/MembersManagement.js:499-502 | choosing a group clears the team and keeps the department; every other field stays |
| MembersLegacy.MembersBoard.TeamChange | src/components/MembersManagement.js:711 | choosing a team sets it and keeps the department and group; every other field stays |
| MembersLegacy.MembersBoard.ConfirmChange | src/components/MembersManagement.js:504-542 | the search, filters and page stay either way; with a choice missing only an alert is raised and everything else stays; otherwise the selected members move, the event names them and the new affiliation, the notice shows, the dialog closes, its choices clear and the selection clears |
| MembersLegacy.MembersBoard.FilterDepartment | src/components/MembersManagement.js:563-568 | the 소속국 filter takes the chosen value and the page goes back to 1; the search, the other filters, the members, selection, dialog, notice, choices, alerts and events stay |
| MembersLegacy.MembersBoard.FilterGroup | src/components/MembersManagement.js:575-580 | the 소속그룹 filter takes the chosen value and the page goes back to 1; everything else stays |
| MembersLegacy.MembersBoard.FilterTeam | src/components/MembersManagement.js:587-592 | the 소속순 filter takes the chosen value and the page goes back to 1; everything else stays |
| MembersLegacy.MembersBoard.PreviousPage | src/components/MembersManagement.js:648-653 | one page back except on page 1, so a page within 1..the page count stays within it; only the page changes |
| MembersLegacy.MembersBoard.NextPage | src/components/MembersManagement.js:665-670 | one page on except on the last page, so a page within 1..the page count stays within it; with nothing listed it still moves from page 1 to 2; only the page changes |
| MembersLegacy.MembersBoard.GoToPage | src/components/MembersManagement.js:656-662 | a numbered button sets the page and nothing else |
| MembersLegacy.MembersBoard.ResetPage | src/components/MembersManagement.js:407-420 | the search, filters, page, selection, dialog, notice and choices go back to how the page starts; the members, alerts and events stay |
| MembersLegacy.MembersBoard.HideNotice | src/components/MembersManagement.js:537-539 | the timer hides the notice and nothing else changes |
| MemberDetail.EventsIf | src/components/MemberDetail.js:1038-1051 | with the type on there is one event per history record, in record order, and none with the type off |
| MemberDetail.EventsIfMembers | src/components/MemberDetail.js:1038-1051 | an event is pushed exactly when the type is on and it is the event of some record |
| MemberDetail.EventsIfAll | src/components/MemberDetail.js:1038-1051 | with the type on, every record's event is pushed |
| MemberDetail.BasicEventsSpec | src/components/MemberDetail.js:1035-1099 | each basic-history event is of a type whose checkbox is on, and every department, position, absence and new-family record of a type that is on yields its event |
| MemberDetail.SpiritualEventsSpec | src/components/MemberDetail.js:1172-1224 | each spiritual event is of a type that is on, and every visit, forum post and prayer of a type that is on yields its event |
| MemberDetail.GroupedSpec | src/components/MemberDetail.js:1101-1110 | a year is a key exactly when some kept event has it, and each year lists exactly the kept events of that year, where 전체 keeps every year |
| MemberDetail.GroupByYear | src/components/MemberDetail.js:1101-1110 | the forEach-and-push loop builds exactly the grouping by year |
| MemberDetail.SortYears | src/components/MemberDetail.js:1112-1115 | sorting each year's list in a loop gives each list sorted, with the same years as keys |
| MemberDetail.GenerateIntegratedTimeline | src/components/MemberDetail.js:1034-1118 | the basic timeline is the enabled history events grouped by year and filtered by the chosen year, each year sorted |
| MemberDetail.IntegratedTimelineSpec | src/components/MemberDetail.js:1034-1118 | an event is under a year exactly when it is an enabled basic event of that year and the year is chosen (or 전체), and each year's list runs oldest first |
| MemberDetail.MemberVisitationsSpec | src/components/MemberDetail.js:1315-1321 | a visit belongs to the member exactly when name, 국, group, 순 and birth year all agree; a birth year that does not parse matches no visit |
| MemberDetail.GenerateSpiritualTimeline | src/components/MemberDetail.js:1159-1245 | the spiritual timeline is empty without a member, otherwise the member's visits, posts and prayers of enabled types grouped by year and filtered by the chosen year |
| MemberDetail.SpiritualTimelineSpec | src/components/MemberDetail.js:1159-1245 | only the member's own visits and the posts and prayers of enabled types and of the chosen year appear, each under its year, newest first |
| MemberDetail.CollectYears | src/components/MemberDetail.js:1123-1130 | the Set filled by add keeps each year once, in first-seen order |
| MemberDetail.AvailableYears | src/components/MemberDetail.js:1123-1132 | the basic year list is the distinct years of all history records, latest first |
| MemberDetail.YearListSpec | src/components/MemberDetail.js:1123-1156 | a year list has no duplicates, runs latest first and holds exactly the years that occur |
| MemberDetail.SpiritualAvailableYears | src/components/MemberDetail.js:1135-1156 | the spiritual year list is empty without a member, otherwise the distinct years of the posts, prayers and the member's visits, latest first |
| MemberDetail.FlippedSpec | src/components/MemberDetail.js:937-963 | a toggle flips exactly the given key and leaves the others; toggling twice restores a key that was set |
| MemberDetail.AllOn | src/components/MemberDetail.js:809-822 | the initial type filters have every type on |
| MemberDetail.MemberPage.constructor | src/components/MemberDetail.js:800-866 | the page shows the member whose id is the route id parsed as a number, with every type on and every year shown |
| MemberDetail.MemberPage.TypeFilterChange | src/components/MemberDetail.js:937-942 | the basic type filter flips one type; the member, the chosen years, the other filter and both expansion maps stay |
| MemberDetail.MemberPage.SpiritualTypeFilterChange | src/components/MemberDetail.js:945-950 | the spiritual type filter flips one type; the member, the chosen years, the other filter and both expansion maps stay |
| MemberDetail.MemberPage.ToggleYear | src/components/MemberDetail.js:952-957 | expanding or collapsing a year flips that year only; every other field stays |
| MemberDetail.MemberPage.ExpandBasicYears | src/components/MemberDetail.js:1247-1312 | after a filter change every year the basic timeline shows is expanded, and exactly those years are set; every other field stays |
| MemberDetail.MemberPage.ExpandSpiritualYears | src/components/MemberDetail.js:1325-1392 | without a member nothing changes; otherwise every year the spiritual timeline shows is expanded; every other field stays |
| MemberDetail.MemberPage.AffiliationChanged | src/components/MemberDetail.js:869-888 | when a member is shown and its id is among the moved ones it takes the new 국, group and 순; otherwise the member is unchanged; the filters and expansion maps of both tabs stay |
| MemberDetail.AffiliationEventMoves | src/components/MemberDetail.js:876-883 | the moved member keeps id, name, birth year and other fields and carries exactly the announced affiliation |
| VisitationManagement.Pieces | src/components/VisitationManagement.js:31-32 | splitting a text gives at least one piece, and no piece holds a separator (white space, comma, period, ! or ?) |
| VisitationManagement.PiecesKeepText | src/components/VisitationManagement.js:31-32 | the pieces, put back together, are the text with only its separators removed |
| VisitationManagement.Normalized | src/components/VisitationManagement.js:33 | each piece is normalised on its own (characters other than word characters and Hangul dropped, lower-cased), in order |
| VisitationManagement.Entries | src/components/VisitationManagement.js:38-46 | the word counts list each counted word once, in order of first occurrence, with its number of occurrences |
| VisitationManagement.CountWords | src/components/VisitationManagement.js:38-41 | the counting loop records the distinct words in first-seen order and each word's number of occurrences |
| VisitationManagement.ExtractKeywords | src/components/VisitationManagement.js:16-48 | the method returns the keywords of the texts: the counted words ranked by count, the first topN of them |
| VisitationManagement.EntriesMembers | src/components/VisitationManagement.js:38-46 | an entry is in the counts exactly when its word is among the words and its count is that word's number of occurrences |
| VisitationManagement.EntriesNoDuplicates | src/components/VisitationManagement.js:38-46 | no word is counted twice |
| VisitationManagement.Ranked | src/components/VisitationManagement.js:44-45 | the ranked entries run by non-increasing count, have no duplicates and are a rearrangement of the counts |
| VisitationManagement.KeywordsTake | src/components/VisitationManagement.js:16-17 | the early return for no texts agrees with ranking and cutting an empty count |
| VisitationManagement.TakeOrdered | src/components/VisitationManagement.js:46 | cutting a list ranked by count keeps it ranked |
| VisitationManagement.KeywordsOrdered | src/components/VisitationManagement.js:16-48 | at most topN keywords come back, by non-increasing count |
| VisitationManagement.TopCounted | src/components/VisitationManagement.js:44-47 | each of the first topN ranked entries is a real word with its count, and no word comes twice |
| VisitationManagement.KeywordsCounted | src/components/VisitationManagement.js:16-48 | each keyword is a Hangul word of two or more characters outside the stop-word list, given with its number of occurrences, and no word comes twice |
| VisitationManagement.TopLeftOut | src/components/VisitationManagement.js:44-46 | a word left out of the first topN ranked entries occurs no more often than any of them, and the cut list is full |
| VisitationManagement.KeywordsTop | src/components/VisitationManagement.js:16-48 | a counted word that is not returned occurs no more often than any returned keyword, and then exactly topN keywords come back |
| VisitationManagement.TakeTop | src/components/VisitationManagement.js:44-46 | an entry missing from a prefix of a list ranked by count counts no more than any entry of the prefix, which is full |
| VisitationManagement.ReplaceKeepsLast | src/components/VisitationManagement.js:2711-2721 | a global replacement whose pattern does not use the text's last character leaves that character last |
| VisitationManagement.ReplaceAbsent | src/components/VisitationManagement.js:2711-2721 | a pattern whose first character does not occur leaves the text unchanged |
| VisitationManagement.ReplaceHead | src/components/VisitationManagement.js:2711-2721 | the replaced text starts with the replacement when the pattern matches at the start, otherwise with the text's own first character |
| VisitationManagement.ReplacePairFree | src/components/VisitationManagement.js:2730-2732 | replacing a two-character pattern leaves no occurrence of it, and creates no other pair the text was free of when the replacement cannot form one |
| VisitationManagement.IntensifierFree | src/components/VisitationManagement.js:2730-2732 | 매우 holds none of 정말, 너무, 아주 and can neither start nor end one of them |
| VisitationManagement.IntensifiedKeepsPeriod | src/components/VisitationManagement.js:2724-2732 | replacing the intensifiers keeps the closing period |
| VisitationManagement.IntensifiedNoReally | src/components/VisitationManagement.js:2730-2732 | after the replacements the text does not say 정말 |
| VisitationManagement.IntensifiedNoToo | src/components/VisitationManagement.js:2730-2732 | after the replacements the text does not say 너무 |
| VisitationManagement.IntensifiedNoQuite | src/components/VisitationManagement.js:2730-2732 | after the replacements the text does not say 아주 |
| VisitationManagement.ImproveTextSpec | src/components/VisitationManagement.js:2706-2735 | the improved text ends with a period and no longer says 정말, 너무 or 아주 |
| VisitationManagement.RestyledPlain | src/components/VisitationManagement.js:2711-2721 | a text without Hangul and without ~ is left alone by the spelling and style replacements |
| VisitationManagement.IntensifiedPlain | src/components/VisitationManagement.js:2730-2732 | a text without Hangul is left alone by the intensifier replacements |
| VisitationManagement.ImprovePlainText | src/components/VisitationManagement.js:2706-2735 | a text without Hangul and without ~ only loses a final period, then !, then ?, and gains a period |
| VisitationManagement.ShownSpec | src/components/VisitationManagement.js:1917-1949 | the list holds exactly the visits whose name contains the search, whose 국, group and 순 match (or 전체) and which are favourites in favourite mode, each as often as loaded, ordered by 국, group, 순 in favourite mode and latest first otherwise |
| VisitationManagement.FavoriteList.constructor | src/components/VisitationManagement.js:1577-1580 | the favourites are the stored ids read into a set |
| VisitationManagement.FavoriteList.Toggle | src/components/VisitationManagement.js:1583-1602 | toggling flips the id, stores exactly the new set and announces the id with its new state |
| VisitationManagement.FavoriteList.FavoriteChanged | src/components/VisitationManagement.js:1555-1575 | the id is in the favourites exactly when the event says favourited, no other id changes, a set without repeats stays one, and storage is untouched |
| VisitationManagement.ToggleFavoriteSpec | src/components/VisitationManagement.js:1583-1602 | a toggle flips exactly the given id, and toggling twice leaves the same favourites |
| VisitationManagement.RolePriority | src/components/VisitationManagement.js:1984-1991 | 국장, 부국장, 그룹장, 부그룹장, 순장 and EBS rank 1 to 6 in that order, every other role ranks 999 |
| VisitationManagement.PersonRows | src/components/VisitationManagement.js:2015-2049 | one row per person of a group, in order, each with the group's 국 and name, the person's role rank and mission count |
| VisitationManagement.GroupsRowsGuk | src/components/VisitationManagement.js:2013-2050 | every row built from a department's groups carries that department's 국 |
| VisitationManagement.FlattenedGuk | src/components/VisitationManagement.js:1994-2053 | every flattened row names one of the departments it was built from |
| VisitationManagement.SortedStatsSpec | src/components/VisitationManagement.js:1979-2071 | the table holds every row of the chosen departments and only rows of the chosen 국 unless 전체, sorted by 국, group, role rank and name, so within one 국 and group a listed role never follows an unlisted one |
| VisitationManagement.Missions | src/components/VisitationManagement.js:2129-2140 | the mission column holds each row's mission count, in row order |
| VisitationManagement.BuildStatsTable | src/components/VisitationManagement.js:2106-2141 | the pushes build the report table, and the reduce gives the sum of all mission counts |
| VisitationManagement.CsvLineCells | src/components/VisitationManagement.js:2144-2146 | a line of quoted plain cells splits back at commas into those cells, quoted, and holds no line break |
| VisitationManagement.StatsCsvLines | src/components/VisitationManagement.js:2106-2149 | with plain cells the statistics file has one line per table row, each non-blank line splits into its cells quoted, and the last line is 합계 with the sum of all missions |
| VisitationManagement.FavoriteLines | src/components/VisitationManagement.js:2772-2782 | one line per shown visit, its cells joined by commas |
| VisitationManagement.ExportFavoritesRefuses | src/components/VisitationManagement.js:2737-2748 | the favourites export produces a file exactly in favourite mode with at least one favourite shown, and refuses otherwise |
| VisitationManagement.FavoriteFileLines | src/components/VisitationManagement.js:2778-2782 | the header and the visits' lines joined by line breaks split back into the same lines |
| VisitationManagement.ExportFavoritesLines | src/components/VisitationManagement.js:2737-2786 | a file handed over is the header line followed by one line per shown visit, in the shown order |
| VisitationManagement.FavoriteNotesRoundTrip | src/components/VisitationManagement.js:2769 | the notes cell is quoted with inner quotes doubled and reads back as the notes |
| VisitationMain.FilteredVisitationsSpec | src/components/main/VisitationManagement.tsx:376-386 | a visit is listed exactly when its name contains the search text and each of 국, group and 순 is 전체 or equal; the list keeps the loaded order |
| VisitationMain.FilteredVisitationsAll | src/components/main/VisitationManagement.tsx:376-386 | with an empty search and every filter 전체 every visit is listed |
| VisitationMain.LoadOrganizationData | src/components/main/VisitationManagement.tsx:304-320 | the three option lists are the distinct 국, group and 순 values of the members, each sorted |
| VisitationMain.OrganizationListSpec | src/components/main/VisitationManagement.tsx:304-320 | each option list is free of repeats, ascending, and names exactly the values some member has |
| VisitationMain.NewVisit | src/components/main/VisitationManagement.tsx:331-359 | the new record carries the form's fields with both birth years parsed as numbers, the clock value as id, the target as their own 순장, no photo and the creation stamp |
| VisitationMain.VisitationPage.constructor | src/components/main/VisitationManagement.tsx:265-294 | the page starts with the loaded visits and the form dialog closed |
| VisitationMain.VisitationPage.OpenForm | src/components/main/VisitationManagement.tsx:322-325 | opening the form shows the dialog and leaves the visits alone |
| VisitationMain.VisitationPage.Submit | src/components/main/VisitationManagement.tsx:331-363 | submitting puts the new record in front of the unchanged visits and closes the dialog |

## Left out

- HTTP routing, CORS, the static mount, server start-up and the upload handler's disk write in `backend/main.py`: framework plumbing with no logic of its own.
- Requests to the server, browser storage, window events, timers, alerts, toasts, navigation, the DOM download code (`Blob`, links, `downloadCSV`, `exportAllData`), XLSX reading and writing, `URLSearchParams` and console output: browser and network I/O. Where a handler's outcome depends on them, the reply or the stored value is a parameter.
- Random mock-data generation (`generateMembersData`, `generateStatsData`, the 2025 attendance draws and the like): its outputs are arbitrary inputs of the members that use them.
- `Date.now()`, `new Date()`, `toLocaleString('ko-KR')` and `toISOString()`: clock readings and their formatting are string or number parameters.
- Floating-point arithmetic: rates and percentages are exact shares (`Backend.Share`), reals (`AttendanceData2025.Rate`) or whole numbers; only zero guards, bounds and counts are proved.
- Dashboard.AttendanceRate: rounds an exact half up, while `Math.round(p / t * 100)` in floating point can land just below the half; for p = 57 and t = 200 the source shows 28 and the model 29.
- QuickStats.CalculateGrowth: the figures, the attendance rate included, are whole numbers; a fractional rate and its rounded difference are not modelled.
- Dashboard.GetGukDetailedStats: the 새가족 count (registration within the last three months of the clock) is not part of `DetailStats`; the five attendance buckets are.
- Dashboard.DetailTally: the same 새가족 count is left out of the tally function that specifies the method.
- Common.ToLower: lower-cases ASCII letters only, where JavaScript `toLowerCase` covers all of Unicode; the logger's keys, the file-extension test and the name searches inherit this.
- Common.ToUpper: upper-cases ASCII letters only, for the same reason.
- String lengths and indices count code points; JavaScript counts UTF-16 code units, which differ only outside the Basic Multilingual Plane.
- Common.StrLe: one fixed total order on strings stands for both `localeCompare` with Korean collation and the order of date strings; collation tables are not modelled.
- Regular expressions are modelled as explicit character-class predicates (Hangul syllables U+AC00 to U+D7A3, `\s`, `\w`, ASCII digits and letters).
- VisitationManagement.Pieces: cuts at every separator character, so a run of separators gives empty pieces where the regular expression `[\s,.!?]+` gives one cut; the length filter that follows drops the empty pieces, so the words are the same.
- VisitationManagement.StatsCsvLines: the read-back is stated for cells free of quotes, commas and line breaks, because the statistics export wraps cells in quotes without escaping them.
- VisitationManagement.ExportFavoritesLines: the read-back is stated for visits whose fields hold no line break, because only the notes cell is quoted.
- VisitationManagement.FavoriteCells: as in the source, the column headed 소속순 carries the visit's 순장 field.
- VisitationManagement.RolePriority: a role named like a property of a JavaScript object (`toString`, `constructor`) yields a function in the source rather than 999; the model ranks every unlisted role 999.
- AttendanceChart.ChartDataOf: requires at least as many count entries as x-axis entries, that is a server reply whose arrays run in parallel; the source reads only the picked positions and throws a TypeError when a picked position has no count entry, and that crash is not modelled.
- VisitationMain.YearOf: a birth year that does not read as a number becomes 0, where the source stores `NaN`.
- VisitationMain.VisitationPage.OpenForm: the selected visit it clears is not a field of the model, since no modelled handler reads it.
- VisitationDetail.DetailPage.HandleSave: requires a loaded visit, because the page returns early without one and the save button does not exist then.
- VisitationDetail.DetailPage.HandleCancel: requires a loaded visit, for the same reason.
- Validation.BirthDate: the date is compared as a calendar date with "today" a parameter; the source parses the text as UTC and reads it back with local-time getters, so in some time zones it sees the previous day.
- JavaScript `Map` and object key order is modelled as insertion order where the code relies on it, and not modelled elsewhere.

## Findings

| source | as written | input that shows it | evidently intended | confidence | as-written member | corrected member |
|---|---|---|---|---|---|---|
| src/data/attendanceData2025.js:433-434 | weeks are stored with months 0 to 7 (the loop at line 8 runs `month = 0` to `7`), but the monthly summary selects months 1 to 8 | a week with `month == 0` (any week of January) is counted in no summary, and the summary for month 8 is always zero | summarise the months the weeks carry, 0 to 7 | not executed | AttendanceData2025.SummaryAsWritten, AttendanceData2025.SummaryAsWrittenMissesJanuary, AttendanceData2025.SummaryAsWrittenAugustEmpty | AttendanceData2025.Summary, AttendanceData2025.SummariesCoverAllWeeks |
| src/data/exportAttendanceData.js:24-59 | the members header has no comma between `가입일` and the repeated `이름`, so it splits into 46 cells with a glued `가입일이름`, while every member line splits into 40 cells | any member with plain fields: header 46 cells, row 40 cells | one header cell per row cell, so each line reads back under its header | not executed | ExportAttendanceData.MembersHeaderAsWrittenCells, ExportAttendanceData.MemberRowAsWrittenCells, ExportAttendanceData.MembersCsvAsWrittenMisaligned | ExportAttendanceData.MembersCsv, ExportAttendanceData.MembersCsvReadsBack |
| src/data/exportAttendanceData.js:70 | the 전체 line ends with `%,,,`, one empty cell more than the header has | any overall statistics: the line splits into one cell more than the header | `%,,` so the line is as wide as the header | not executed | ExportAttendanceData.OverallLineAsWritten, ExportAttendanceData.OverallLineWidth | ExportAttendanceData.OverallLine, ExportAttendanceData.StatsCsvLines |
| src/utils/logger.ts:75-77 | keys are lower-cased before `includes`, but the list (lines 39-40) holds `personalInfo` and `birthDate` with capitals, so those two never match | metadata `{birthDate: "1990-01-01"}` is logged in clear | compare against lower-cased list entries, so `birthDate` is masked | not executed | Logger.IsSensitiveAsWritten, Logger.BirthDateAsWritten, Logger.PersonalInfoAsWritten, Logger.BirthDateLoggedAsWritten, Logger.BirthDateEntryAsWritten | Logger.IsSensitive, Logger.BirthDateCorrected, Logger.PersonalInfoCorrected |
