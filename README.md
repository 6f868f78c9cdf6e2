# Attendance UI core in Dafny

A Dafny model of the attendance front end's interactive core. It covers six React components:

- the student's QR check-in scanner (`QRScanner.jsx`);
- the teacher's schedule page, including its QR issuance dialogs (`ClassSchedule.jsx`);
- the stand-alone QR panel (`QRGenerator.jsx`);
- the class roster page, with its search, add and roster upload (`ClassStudents.jsx`);
- the administrator's user import (`BulkCreateUsers.jsx`);
- the class table with its pagination (`ClassList.jsx`).

Each component whose handlers update state becomes a `class`. Its fields are the component's `useState` values, and each event handler becomes one method with a `modifies` clause. In the schedule dialogs, the QR panel, the roster page and the user import, a `View()` function returns all shown fields as one datatype, so a method's contract can say exactly which fields it changes (`View() == old(View()).(field := ...)`). The scanner session and the class table have few fields, and their methods state each field's new value directly. An asynchronous request is split into the handler that sends it and a second method for each way the response can arrive. Ghost logs record every request sent and count the ones still in flight. Pure rules are functions: parseInt, trim, `a || b` chains, the file check, message composition and page slicing. The lemmas about them state the promised properties.

Files:

- `js.dfy` (module `Js`): the ECMAScript built-ins the components rely on:
  - the white space of `trim`;
  - `parseInt(s, 10)`;
  - the truthiness of a string that may be undefined;
  - `||` chains;
  - `Array.prototype.join`;
  - the lines of a text whose line breaks are shown (the pieces `split` on the break character would give), which states what the user import's error alert displays.
- `ui.dfy` (module `Ui`): the snackbar record, and how a rejected request's message is read.
- `qr_scanner.dfy`, `class_schedule.dfy`, `qr_generator.dfy`, `class_students.dfy`, `bulk_create_users.dfy`, `class_list.dfy`: one module per component.
- `file_check.dfy` (module `FileCheck`): the extension and size check that both upload forms share.

## Model

| member | source | states |
|---|---|---|
| Js.TrimStart | src/components/teacher/ClassStudents.jsx:92 | the result is a suffix of the input, it does not start with white space, and everything dropped is white space |
| Js.TrimEnd | src/components/teacher/ClassStudents.jsx:92 | the result is a prefix of the input, it does not end with white space, and everything dropped is white space |
| Js.Trim | src/components/teacher/ClassStudents.jsx:92 | `trim()` is at most as long as the term and has white space at neither end; TrimEmptyIffBlank says when it is empty |
| Js.TrimEmptyIffBlank | src/components/teacher/ClassStudents.jsx:92 | `term.trim()` is empty exactly when the term is white space only, so `!term.trim()` means a blank term |
| Js.DigitPrefix | src/components/teacher/ClassSchedule.jsx:214 | parseInt reads the longest run of decimal digits: the run is a prefix, all digits, and stops at a non-digit or the end |
| Js.NatToString | src/components/teacher/ClassList.jsx:52 | the decimal text of a number is non-empty, all digits, and has no leading zero |
| Js.ParseInt | src/components/teacher/ClassSchedule.jsx:214 | `parseInt(s, 10)` of a blank text is NaN. After any white space, every other text starts with a sign followed by digits, a sign not followed by a digit, digits, or something else; ParseIntOfSignedDigitsThen, ParseIntSignWithoutDigits and ParseIntNaN give the result of each |
| Js.DigitsValueOfNatToString | src/components/teacher/ClassList.jsx:52 | reading the digits of a number's decimal text gives the number back |
| Js.ParseIntOfNatToString | src/components/teacher/ClassList.jsx:52 | `parseInt(String(n), 10) == n` for every natural number (the page-size menu's values round-trip) |
| Js.ParseIntOfNegative | src/components/teacher/ClassSchedule.jsx:214-215 | a minus sign before the digits of n parses as -n |
| Js.ParseIntStopsAtNonDigit | src/components/teacher/ClassSchedule.jsx:214 | digits followed by text that starts with a non-digit parse as the digits' value ("15abc" is 15, "2.5" is 2) |
| Js.ParseIntSkipsWhitespace | src/components/teacher/ClassSchedule.jsx:214 | leading white space never changes what parseInt reads |
| Js.ParseIntOfSignedDigitsThen | src/components/teacher/ClassSchedule.jsx:214-215 | white space, no sign, "+" or "-", then a digit run, then text not starting with a digit: the run's value, negated after "-" ("+7" is 7, " 007" is 7, "-1.5" is -1) |
| Js.ParseIntSignWithoutDigits | src/components/teacher/ClassSchedule.jsx:214-215 | white space, then a sign that no digit follows, is NaN ("-", "+" and "-x") |
| Js.ParseIntNaN | src/components/teacher/ClassSchedule.jsx:214-215 | the empty string, and text starting with something other than white space, a sign or a digit, is NaN |
| Js.DigitPrefixOfDigitsThen | src/components/teacher/ClassSchedule.jsx:214 | the digit run of digits-then-non-digit is exactly the digits |
| Js.ParseIntOfDigitsThen | src/components/teacher/ClassSchedule.jsx:214 | the decimal text of n between leading white space and text not starting with a digit parses as n |
| Js.TrimStartSkipsWhitespace | src/components/teacher/ClassSchedule.jsx:214 | white space put in front of a string is all that trimStart removes from it |
| Js.FirstTruthy | src/components/teacher/ClassSchedule.jsx:239 | `a || b || fallback` over strings that may be undefined is the first non-empty candidate, or the fallback when there is none; it is never empty when the fallback is not |
| Js.Join | src/components/admin/BulkCreateUsers.jsx:60 | `join` of no parts is empty, of one part is that part, and otherwise starts with the first part; JoinCons gives the separator after it and SplitJoin is its inverse |
| Js.JoinCons | src/components/admin/BulkCreateUsers.jsx:60 | joining a first part with a non-empty rest puts the separator between them |
| Js.Split | src/components/admin/BulkCreateUsers.jsx:82 | the lines the alert displays (its text is shown with `white-space: pre-wrap`): there is always at least one |
| Js.SplitNoSeparator | src/components/admin/BulkCreateUsers.jsx:82 | a text without a line break displays as one line, itself |
| Js.SplitAtFirst | src/components/admin/BulkCreateUsers.jsx:82 | a text displays the part before its first line break as its first line, then the lines of the rest |
| Js.SplitJoin | src/components/admin/BulkCreateUsers.jsx:60 | the lines of a `join` on a line break are the joined parts again, provided no part contains a line break (so `join('\n')` shows one entry per line) |
| Ui.FailureMessage | src/components/teacher/ClassStudents.jsx:245-248 | `err.response?.data?.message`, else `err.message`, else the fallback, each case stated separately |
| QrScanner.SpacedApart | src/components/student/QRScanner.jsx:20-26 | accepted decodes k apart in the log are at least k × 3000 ms apart |
| QrScanner.AtMostOnePerWindow | src/components/student/QRScanner.jsx:20-26 | no two check-in requests fall in the same 3000 ms window |
| QrScanner.ScanSession.constructor | src/components/student/QRScanner.jsx:11-16 | initial state: not scanning, no success, no error, `lastScanTime` 0, closed snackbar, no decoder |
| QrScanner.ScanSession.OnDecode | src/components/student/QRScanner.jsx:20-41 | a decode inside the throttle window changes nothing; otherwise the time is recorded, the error and success flag cleared, the decoder paused, and exactly one request with the decoded text is sent |
| QrScanner.ScanSession.OnCheckInSuccess | src/components/student/QRScanner.jsx:41-67 | the success snackbar (message or default) is shown; a resolved `clear()` nulls the decoder and stops scanning for good; a rejected `clear()` falls into the error path |
| QrScanner.ScanSession.OnCheckInFailure | src/components/student/QRScanner.jsx:53-67 | the error message or the default is shown in the page and the snackbar, a paused decoder is resumed, and a timer is set to hide the error |
| QrScanner.ScanSession.OnErrorTimer | src/components/student/QRScanner.jsx:66 | the timer clears the error |
| QrScanner.ScanSession.Toggle | src/components/student/QRScanner.jsx:144-148 | the button clears the error and the success flag and flips scanning |
| QrScanner.ScanSession.OnTabHidden | src/components/student/QRScanner.jsx:130-142 | a hidden tab stops a running session and resets its success flag; a stopped session is untouched |
| QrScanner.ScanSession.RunEffect | src/components/student/QRScanner.jsx:76-106 | when scanning is wanted, a new decoder is rendered and delivers decodes; if construction or rendering throws, the start-failure message is shown and scanning is switched off |
| QrScanner.ScanSession.Cleanup | src/components/student/QRScanner.jsx:108-127 | the referenced decoder is cleared, whether `clear()` resolves or rejects; afterwards no decoder is referenced and every decoder has been cleared |
| QrScanner.CheckInOnceScenario | src/components/student/QRScanner.jsx:20-51 | start, decode once, succeed: the session is terminal, exactly one request was sent, and a repeat decode 1 s later is throttled |
| QrScanner.HiddenTabScenario | src/components/student/QRScanner.jsx:130-142 | hiding the tab while scanning leaves no decoder running |
| QrScanner.RecoveryScenario | src/components/student/QRScanner.jsx:53-66 | after a failed check-in the decoder resumes, and a new code decoded after the window is submitted |
| ClassSchedule.FindDay | src/components/teacher/ClassSchedule.jsx:354-356 | `DAYS_OF_WEEK.find(day => day.value === v)`: none exactly when no entry has the value; otherwise an entry of the table with that value |
| ClassSchedule.FindDayFirst | src/components/teacher/ClassSchedule.jsx:354-356 | find returns the first entry with the value |
| ClassSchedule.DayLabel | src/components/teacher/ClassSchedule.jsx:354-356 | the day cell is never empty, and reads "N/A" for a value no entry has; DayLabelTable gives every value's label |
| ClassSchedule.DayLabelOfEntry | src/components/teacher/ClassSchedule.jsx:354-356 | every entry of `DAYS_OF_WEEK` is shown with its own label |
| ClassSchedule.DayLabelTable | src/components/teacher/ClassSchedule.jsx:36-44 | the day cell reads "Thứ 2".."Thứ 7" for 1..6, "Chủ nhật" for 0 and "N/A" for any other value |
| ClassSchedule.AddEnabled | src/components/teacher/ClassSchedule.jsx:445-450 | the add button as written is enabled only with a day, both times and no request running, and never for day 0 |
| ClassSchedule.SundayNeverAddable | src/components/teacher/ClassSchedule.jsx:445-450 | as written, a form whose day is Sunday (0, which the menu offers) can never be submitted |
| ClassSchedule.EveryOfferedDayAddable | src/components/teacher/ClassSchedule.jsx:409-413 | the intended guard agrees with the written one on every day but Sunday, lets every offered day through once both times are filled, and refuses a form with no day |
| ClassSchedule.AcceptedDuration | src/components/teacher/ClassSchedule.jsx:214-215 | a duration is accepted exactly when parseInt gives a number; the accepted value is that number and is at least 1 |
| ClassSchedule.AcceptedDurationOfNumber | src/components/teacher/ClassSchedule.jsx:214-215 | every positive whole number typed is accepted as is; 0 and negative numbers are refused |
| ClassSchedule.DefaultDurationAccepted | src/components/teacher/ClassSchedule.jsx:186 | the duration the dialog opens with is accepted as 15 minutes |
| ClassSchedule.AcceptedDurationRefusesText | src/components/teacher/ClassSchedule.jsx:214-215 | an empty field, or text not starting with white space, a sign or a digit, is refused |
| ClassSchedule.AcceptedDurationOfDigitsThen | src/components/teacher/ClassSchedule.jsx:214-215 | leading blanks are skipped and anything after the digits is ignored (" 7", "2.5", "15abc") |
| ClassSchedule.ScheduleQr.constructor | src/components/teacher/ClassSchedule.jsx:64-72 | initial dialog state: both closed, duration "15", zoom 100%, no QR, no error |
| ClassSchedule.ScheduleQr.OpenQrDialog | src/components/teacher/ClassSchedule.jsx:176-188 | without a class id only the error snackbar; otherwise the schedule is remembered, the duration reset to 15 and the dialog opened |
| ClassSchedule.ScheduleQr.ChangeDuration | src/components/teacher/ClassSchedule.jsx:250-252 | the typed text becomes the duration |
| ClassSchedule.ScheduleQr.ChangeZoom | src/components/teacher/ClassSchedule.jsx:254-256 | the slider sets the zoom and nothing else |
| ClassSchedule.ScheduleQr.CloseDurationDialog | src/components/teacher/ClassSchedule.jsx:198-201 | the dialog closes and forgets its schedule |
| ClassSchedule.ScheduleQr.CloseQrDialog | src/components/teacher/ClassSchedule.jsx:190-196 | the modal closes and discards the QR, the error, the schedule and the zoom |
| ClassSchedule.ScheduleQr.StartIssue | src/components/teacher/ClassSchedule.jsx:224-234 | the dialog closes, the modal opens empty with the spinner, and exactly one request for the schedule and duration is sent |
| ClassSchedule.ScheduleQr.ConfirmDuration | src/components/teacher/ClassSchedule.jsx:203-234 | a request is sent exactly when a schedule and a class id are present and the duration is accepted; a missing schedule or class id closes the dialog with an error; a bad duration keeps it open with an error; no request ever asks for less than one minute |
| ClassSchedule.ScheduleQr.OnQrGenerated | src/components/teacher/ClassSchedule.jsx:235-246 | the response's URL is shown and the spinner stops |
| ClassSchedule.ScheduleQr.OnQrFailed | src/components/teacher/ClassSchedule.jsx:238-247 | the message or the default becomes the modal error and the snackbar, and the spinner stops |
| ClassSchedule.IssueScenario | src/components/teacher/ClassSchedule.jsx:176-247 | typing any duration the dialog accepts and getting a URL: exactly one request, for the minutes parseInt read, and the modal shows the QR |
| ClassSchedule.FailedIssueScenario | src/components/teacher/ClassSchedule.jsx:238-247 | after an accepted duration, a failed request leaves the modal open with the default error and no QR |
| QrGenerator.ZoomedOut | src/components/teacher/QRGenerator.jsx:344 | zooming out never goes below 50% nor above the current zoom, and steps down by 0.2 unless it hits 50% |
| QrGenerator.ZoomedIn | src/components/teacher/QRGenerator.jsx:362 | zooming in never goes above 300% nor below the current zoom, and steps up by 0.2 unless it hits 300% |
| QrGenerator.ZoomStaysInRange | src/components/teacher/QRGenerator.jsx:344-363 | from anywhere on the slider, both buttons stay on the slider |
| QrGenerator.ZoomRoundTrip | src/components/teacher/QRGenerator.jsx:344-363 | away from the ends, one step in and one out cancel; at an end the button leaves the zoom unchanged |
| QrGenerator.ZoomInTimes | src/components/teacher/QRGenerator.jsx:362-363 | k presses of zoom-in give min(300%, zoom + k × 0.2) |
| QrGenerator.DurationHelper | src/components/teacher/QRGenerator.jsx:148-149 | the helper text is shown, and the confirm button disabled, exactly when the duration is below 1 |
| QrGenerator.Generator.constructor | src/components/teacher/QRGenerator.jsx:25-35 | initial state: duration 1, zoom 100%, no QR, dialogs closed |
| QrGenerator.Generator.GenerateQr | src/components/teacher/QRGenerator.jsx:37-41 | `handleGenerateQR`, which no element of the panel calls: the spinner starts, the error is cleared, and one request without a duration is sent |
| QrGenerator.Generator.OnGenerated | src/components/teacher/QRGenerator.jsx:42-48 | the QR data and expiry come from the response, and the spinner stops |
| QrGenerator.Generator.OnGenerateFailed | src/components/teacher/QRGenerator.jsx:44-48 | the message or the default is shown, the spinner stops, and the QR data is untouched |
| QrGenerator.Generator.OpenDurationDialog | src/components/teacher/QRGenerator.jsx:51-53 | opens the dialog only |
| QrGenerator.Generator.CloseDurationDialog | src/components/teacher/QRGenerator.jsx:55-57 | closes the dialog and keeps the duration |
| QrGenerator.Generator.ChangeDuration | src/components/teacher/QRGenerator.jsx:59-61 | the number typed becomes the duration |
| QrGenerator.Generator.ConfirmDuration | src/components/teacher/QRGenerator.jsx:63-67 | enabled only from one minute up: the spinner starts, the error is cleared, and one request for the typed duration is sent; no request ever asks for less than one minute |
| QrGenerator.Generator.OnConfirmed | src/components/teacher/QRGenerator.jsx:68-76 | the URL and expiry come from the response, the modal opens, the spinner stops, and the duration dialog closes |
| QrGenerator.Generator.OnConfirmFailed | src/components/teacher/QRGenerator.jsx:71-76 | the error is the message or the default, the modal is not opened, the URL is unchanged, the spinner stops, and the duration dialog closes |
| QrGenerator.Generator.CloseQrDialog | src/components/teacher/QRGenerator.jsx:79-81 | hides the modal only |
| QrGenerator.Generator.ChangeZoom | src/components/teacher/QRGenerator.jsx:83-85 | the slider sets the zoom |
| QrGenerator.Generator.ZoomOut | src/components/teacher/QRGenerator.jsx:343-346 | enabled above 50%; the zoom strictly drops and stays on the slider |
| QrGenerator.Generator.ZoomIn | src/components/teacher/QRGenerator.jsx:361-364 | enabled below 300%; the zoom strictly rises and stays on the slider |
| QrGenerator.ConfirmScenario | src/components/teacher/QRGenerator.jsx:63-76 | a duration of at least one minute that succeeds: one request for that duration, the dialog is closed, and the modal shows the QR |
| QrGenerator.FailedConfirmScenario | src/components/teacher/QRGenerator.jsx:71-76 | a failed request closes the dialog, never opens the modal, and leaves no URL |
| FileCheck.SizeMessage | src/components/teacher/ClassStudents.jsx:198-201 | the size message, computed from the 5 MiB limit, reads "Kích thước file không được vượt quá 5MB." |
| FileCheck.Lower | src/components/teacher/ClassStudents.jsx:190 | the `i` flag folds each ASCII capital to its own small letter (code point + 32) and leaves every other character alone |
| FileCheck.HasExtension | src/components/teacher/ClassStudents.jsx:190 | the regular expression matches only a name at least as long as one of the extensions; ExtensionAnyCase and CsvOnlyForRoster give what it accepts and refuses |
| FileCheck.Validate | src/components/teacher/ClassStudents.jsx:189-206 | a file is accepted exactly when its extension is accepted and it is at most 5 MiB; a bad extension is reported whatever the size; only then is the size checked |
| FileCheck.SizeLimitIsInclusive | src/components/admin/BulkCreateUsers.jsx:24-30 | exactly 5 MiB is accepted; one byte more is refused with the size message |
| FileCheck.ExtensionAnyCase | src/components/admin/BulkCreateUsers.jsx:17 | an accepted extension in any mix of case makes a name acceptable |
| FileCheck.CsvOnlyForRoster | src/components/admin/BulkCreateUsers.jsx:17 | "LIST.CSV" passes the roster check (up to 5 MiB) but is refused by the user import for its extension, whatever its size |
| FileCheck.UserExtensionsAreRosterExtensions | src/components/teacher/ClassStudents.jsx:190 | every file the user import accepts, the roster upload accepts too |
| ClassStudents.NotInRoster | src/components/teacher/ClassStudents.jsx:101-104 | the filtered results are exactly the results whose id is not in the class, never more than the results; a single result is kept or dropped by its id |
| ClassStudents.NotInRosterAppend | src/components/teacher/ClassStudents.jsx:101-104 | `filter` works element by element and keeps order and duplicates: the filter of a concatenation is the concatenation of the filters |
| ClassStudents.NotInRosterIdempotent | src/components/teacher/ClassStudents.jsx:101-104 | filtering a second time changes nothing |
| ClassStudents.AddedStudentNotOffered | src/components/teacher/ClassStudents.jsx:101-104 | a student in the class is never offered |
| ClassStudents.SearchResults | src/components/teacher/ClassStudents.jsx:92-110 | a blank term gives no results (and no request); a failed search gives none; otherwise the found students not in the class; never a student already in the class |
| ClassStudents.SuccessMessage | src/components/teacher/ClassStudents.jsx:232-238 | the message or the default comes first; with no details it is all there is; a present "not found" detail ends the message after a blank |
| ClassStudents.SuccessMessageIsJoin | src/components/teacher/ClassStudents.jsx:232-238 | in every case the message is the head followed by each present detail, `alreadyInClass` before `notFound`, joined by blanks; details with neither field give the head alone |
| ClassStudents.SuccessMessageWithBoth | src/components/teacher/ClassStudents.jsx:232-238 | with both details, the message is the three parts joined by blanks |
| ClassStudents.Page.constructor | src/components/teacher/ClassStudents.jsx:33-52 | initial state: no error, empty search, nothing selected |
| ClassStudents.Page.ChangeSearchTerm | src/components/teacher/ClassStudents.jsx:122-124 | the typed text becomes the term |
| ClassStudents.Page.SelectStudent | src/components/teacher/ClassStudents.jsx:117-119 | the pick becomes the selection |
| ClassStudents.Page.Search | src/components/teacher/ClassStudents.jsx:90-114 | the results become the search results for the term against the loaded roster |
| ClassStudents.Page.AddSingleStudent | src/components/teacher/ClassStudents.jsx:127-153 | without a selection or class id nothing happens; success names the student and resets the selection, term and results; failure shows the message or the default |
| ClassStudents.Page.BulkFileChange | src/components/teacher/ClassStudents.jsx:186-211 | the error is cleared first; no file clears the selection; a rejected file leaves no selection and its error; an accepted one is held |
| ClassStudents.Page.BulkUpload | src/components/teacher/ClassStudents.jsx:213-254 | as written: without a file or class id only the prompt is shown and nothing is sent; a failure shows its message (or the default) in the form and an error snackbar and keeps the file; a success drops the file, but the input reset at line 241 throws, so the TypeError's text (or the default) ends up in the form and an error snackbar and the page error is left as it was; only checked files are ever sent |
| ClassStudents.Page.BulkUploadIntended | src/components/teacher/ClassStudents.jsx:213-254 | as intended: the same, except that a success shows the composed message in a success snackbar, drops the file and clears both errors |
| ClassStudents.UploadScenario | src/components/teacher/ClassStudents.jsx:186-250 | as written, choosing an accepted file and uploading it successfully sends it and drops it, yet the page reports an error: the TypeError's text, or the default failure text when it is empty, both under the form and in an error snackbar |
| ClassStudents.IntendedUploadScenario | src/components/teacher/ClassStudents.jsx:186-242 | as intended, the same upload reports the default success and leaves no upload error |
| BulkCreateUsers.ErrorLines | src/components/admin/BulkCreateUsers.jsx:60 | one "field: message" line per validation error, in order |
| BulkCreateUsers.DisplayError | src/components/admin/BulkCreateUsers.jsx:57-62 | the shown error starts with the message, and is the message alone when the response has no error list |
| BulkCreateUsers.DisplayErrorLines | src/components/admin/BulkCreateUsers.jsx:59-62 | the lines of the shown error are the message, "Chi tiết:" and the entries in order; an empty list still adds the header and an empty line |
| BulkCreateUsers.JoinTwoThen | src/components/admin/BulkCreateUsers.jsx:61 | the shown error is the message, a break, the header, a break, then the joined entries |
| BulkCreateUsers.Importer.constructor | src/components/admin/BulkCreateUsers.jsx:7-10 | initial state: no file, no error, closed snackbar |
| BulkCreateUsers.Importer.FileChange | src/components/admin/BulkCreateUsers.jsx:12-35 | the error is cleared first; a rejected file leaves no selection and its error; an accepted one is held; no file clears the selection |
| BulkCreateUsers.Importer.Upload | src/components/admin/BulkCreateUsers.jsx:37-68 | with no file only the prompt is shown and nothing is sent; success drops the file; failure shows the detailed error in the form but only the message in the snackbar, and keeps the file |
| BulkCreateUsers.RejectedScenario | src/components/admin/BulkCreateUsers.jsx:54-64 | a rejection with field errors lists them line by line under the header; the snackbar carries only the message |
| ClassList.Slice | src/components/teacher/ClassList.jsx:72 | `slice` clamps both bounds to the length, and its elements are those of the input from the start |
| ClassList.PageRows | src/components/teacher/ClassList.jsx:72 | the page shows at most rows-per-page classes, in order from index page × rows-per-page; a full page when enough remain; at least one when any remains |
| ClassList.EmptyRows | src/components/teacher/ClassList.jsx:73 | no padding on the first page |
| ClassList.RowsFillPage | src/components/teacher/ClassList.jsx:72-73 | on a later page that has classes, shown rows plus padding equal one page |
| ClassList.PastLastPage | src/components/teacher/ClassList.jsx:72-73 | a page past the last class shows none and pads at least a full page |
| ClassList.EveryClassOnItsPage | src/components/teacher/ClassList.jsx:72 | class k is on page k div rows-per-page at offset k mod rows-per-page |
| ClassList.StudentCount | src/components/teacher/ClassList.jsx:135 | the number of enrolled students, or 0 when the list is absent |
| ClassList.ClassRows | src/components/teacher/ClassList.jsx:124-135 | one row per shown class with its name and count, striped on even positions |
| ClassList.Body | src/components/teacher/ClassList.jsx:115-161 | the placeholder row appears exactly when the page has no class; otherwise the body opens with one row per class of the page, in order; a blank row 53 px × padding ends the body when there is padding |
| ClassList.ClassTable.constructor | src/components/teacher/ClassList.jsx:28-29 | the table starts on page 0 with 5 rows per page |
| ClassList.ClassTable.ChangePage | src/components/teacher/ClassList.jsx:47-49 | the pager sets the page |
| ClassList.ClassTable.ChangeRowsPerPage | src/components/teacher/ClassList.jsx:51-54 | the page size becomes the parsed option and the page goes back to 0, where there is no padding |
| ClassList.ThirdPageScenario | src/components/teacher/ClassList.jsx:72-73 | twelve classes at five per page: page 2 shows the last two and pads three rows |

## Left out

- Rendering, styling, navigation, and snackbar closing (`handleCloseSnackbar`) are not modelled.
- The decoder library, `attendanceService` and `classService` are left out. So are the network, the camera, the clock (time is the explicit `now` of each decode) and timers (the 5000 ms error timer is an event with no duration). Their outcomes are method parameters.
- QrScanner.ScanSession.RunEffect: the scanner effect also re-runs whenever an accepted decode changes `lastScanTime`, because `onScanSuccess` depends on it. The model lets that re-run happen as a `Cleanup` followed by a `RunEffect`, but does not force it after each decode.
- QrScanner.ScanSession.Cleanup: when the ref is empty, the cleanup clears the decoder its own effect run created (`|| scannerInstance`). This happens after a successful check-in: lines 46-48 clear the decoder, null the ref and stop scanning, and the effect's cleanup then calls `clear()` on the same decoder a second time. The model leaves that second call out (a `Cleanup` with no referenced decoder changes nothing). That is harmless: the model has already marked the decoder cleared.
- The decode-failure callback only writes to the console and is not modelled. Neither are decodes delivered by a decoder whose `clear()` rejected.
- Responses are applied in the order they arrive. Neither issuance dialog makes the last request win, and the model does not either.
- ClassStudents.Page.AddSingleStudent, ClassStudents.Page.BulkUpload and BulkCreateUsers.Importer.Upload each run as one step with the request's outcome as a parameter. Because of that, their loading flags (`isAdding`, `isUploadingBulk`, `isLoading`) are not modelled.
- The reloads that follow a successful add, and the intended successful upload, are only modelled up to clearing the error messages. Loading the roster (`fetchStudents`) and the class list (`fetchClasses`) is not modelled.
- The debounce of the search term (`useDebounce`) is not modelled: `Search` receives the term the effect sees.
- ClassSchedule: loading, adding and deleting schedules (`fetchSchedules`, `handleSubmitAddSchedule`, `handleDeleteSchedule`) are not modelled. Of the add form, only its enablement predicate is.
- ClassSchedule.ScheduleQr.OnQrGenerated: a response without `qrCodeURL` sets `qrCodeUrl` to undefined. The model uses "" instead; both are falsy, so the modal shows the same thing.
- QrGenerator.Generator.ChangeDuration: the field's text is taken as the number it compares as (`durationMinutes < 1`, so an empty field reads 0). The model does not cover ToNumber of arbitrary text, nor the string sent to the endpoint.
- QrGenerator.ZoomedIn, QrGenerator.ZoomedOut: the zoom is kept in integer tenths. The source steps a binary floating-point number by 0.2, which can drift (for example 0.6000000000000001). That rounding is not modelled.
- ClassSchedule.AcceptedDuration: parseInt's result is an exact integer. The floating-point rounding of more than 15 significant digits is not modelled.
- BulkCreateUsers.ErrorLines: a validation entry with a missing field or message would print "undefined". The model assumes both are strings.
- CreateClass, the dashboards, the services and `main.jsx` are not part of this model.

## Findings

| source | as written | input that shows it | evidently intended | confidence | as-written member | corrected member |
|---|---|---|---|---|---|---|
| src/components/teacher/ClassStudents.jsx:241 | after a successful roster upload, `document.getElementById("bulk-student-upload-input").value = null` runs, but the only file input (lines 570-575) has no id, so the lookup gives null and the assignment throws a TypeError inside the `try` | upload any accepted file to a class with a request that succeeds: the `catch` (lines 243-250) replaces the success snackbar with an error snackbar carrying the TypeError's text, sets it as the upload error, and the roster is not reloaded | the input is reset, the success message stays, and the roster is reloaded (as src/components/admin/BulkCreateUsers.jsx:53 does, whose file input carries the id it looks up, at line 94) | not executed | ClassStudents.UploadScenario | ClassStudents.IntendedUploadScenario |
| src/components/teacher/ClassSchedule.jsx:445-450 | the add button is disabled when `!formData.dayOfWeek`, and Sunday's value is 0, which is falsy | pick "Chủ nhật" (value 0) in the day menu and fill in both times: the button stays disabled | every day the menu offers (lines 409-413) can be submitted once both times are filled | not executed | ClassSchedule.SundayNeverAddable | ClassSchedule.EveryOfferedDayAddable |
