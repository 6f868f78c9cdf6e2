/** The teacher's schedule page (src/components/teacher/ClassSchedule.jsx): the
    day-of-week labels, the add-schedule button, and the QR issuance dialogs
    (choose a duration, request a QR, show it or the error). */
module ClassSchedule {
  import opened Js
  import opened Ui

  datatype Schedule = Schedule(id: int, dayOfWeek: int, startTime: string, endTime: string)

  // ---------------------------------------------------------------------------
  // Day-of-week labels

  datatype DayOption = DayOption(value: int, text: string)

  /** `DAYS_OF_WEEK`: Monday..Saturday are 1..6, Sunday is 0. */
  const DaysOfWeek: seq<DayOption> := [
    DayOption(1, "Thứ 2"), DayOption(2, "Thứ 3"), DayOption(3, "Thứ 4"),
    DayOption(4, "Thứ 5"), DayOption(5, "Thứ 6"), DayOption(6, "Thứ 7"),
    DayOption(0, "Chủ nhật")]

  /** `Array.prototype.find` on the day table: the first entry with value `v`. */
  function FindDay(days: seq<DayOption>, v: int): (r: Option<DayOption>)
    ensures r.None? <==> forall i :: 0 <= i < |days| ==> days[i].value != v
    ensures r.Some? ==> r.value.value == v && r.value in days
  {
    if days == [] then None
    else if days[0].value == v then Some(days[0])
    else FindDay(days[1..], v)
  }

  /** `DAYS_OF_WEEK.find(day => day.value === v)?.label || "N/A"`. */
  function DayLabel(v: int): (r: string)
    ensures r != ""
    ensures (forall i :: 0 <= i < |DaysOfWeek| ==> DaysOfWeek[i].value != v) ==> r == "N/A"
  {
    var found := FindDay(DaysOfWeek, v);
    FirstTruthy([if found.Some? then Some(found.value.text) else None], "N/A")
  }

  /** Each entry of the table labels its own value. */
  lemma DayLabelOfEntry(i: nat)
    requires i < |DaysOfWeek|
    ensures DayLabel(DaysOfWeek[i].value) == DaysOfWeek[i].text
  {
    FindDayFirst(DaysOfWeek, DaysOfWeek[i].value, i);
    assert DaysOfWeek[i].text != "";
  }

  /** A weekday entry's label is "Thứ " followed by the digit one past its value. */
  lemma WeekdayText(v: int)
    requires 1 <= v <= 6
    ensures DaysOfWeek[v - 1].text == "Thứ " + [DigitChar(v + 1)]
  {
    var d := DigitChar(v + 1);
    if v == 1 { assert d == '2'; }
    else if v == 2 { assert d == '3'; }
    else if v == 3 { assert d == '4'; }
    else if v == 4 { assert d == '5'; }
    else if v == 5 { assert d == '6'; }
    else { assert d == '7'; }
  }

  /** The table cell shows "Thứ 2".."Thứ 7" for 1..6, "Chủ nhật" for 0 and "N/A"
      for anything else. */
  lemma DayLabelTable(v: int)
    ensures 1 <= v <= 6 ==> DayLabel(v) == "Thứ " + [DigitChar(v + 1)]
    ensures v == 0 ==> DayLabel(v) == "Chủ nhật"
    ensures (v < 0 || v > 6) ==> DayLabel(v) == "N/A"
  {
    if 1 <= v <= 6 {
      DayLabelOfEntry(v - 1);
      WeekdayText(v);
    } else if v == 0 {
      DayLabelOfEntry(6);
    } else {
      assert FindDay(DaysOfWeek, v) == None;
    }
  }

  lemma {:induction false} FindDayFirst(days: seq<DayOption>, v: int, i: nat)
    requires i < |days| && days[i].value == v
    requires forall j :: 0 <= j < i ==> days[j].value != v
    ensures FindDay(days, v) == Some(days[i])
  {
    if i > 0 {
      FindDayFirst(days[1..], v, i - 1);
    }
  }

  // ---------------------------------------------------------------------------
  // The add-schedule button

  /** The add form: `dayOfWeek` is "" (None) until a day is picked from the table. */
  datatype ScheduleForm = ScheduleForm(dayOfWeek: Option<int>, startTime: string, endTime: string)

  /** The truthiness of the form's day: "" and the number 0 are both falsy. */
  predicate DayTruthy(day: Option<int>) {
    day.Some? && day.value != 0
  }

  /** The add button as written: disabled when `!dayOfWeek || !startTime || !endTime
      || loading`. */
  function AddEnabled(form: ScheduleForm, loading: bool): (r: bool)
    ensures r ==> form.dayOfWeek.Some? && form.startTime != "" && form.endTime != "" && !loading
    ensures form.dayOfWeek == Some(0) ==> !r
  {
    !(!DayTruthy(form.dayOfWeek) || form.startTime == "" || form.endTime == ""
      || loading)
  }

  /** As written, a Sunday schedule (day 0, which the day menu offers) can never be
      submitted, whatever the times. */
  lemma SundayNeverAddable(form: ScheduleForm, loading: bool)
    requires form.dayOfWeek == Some(0)
    ensures !AddEnabled(form, loading)
    ensures DayOption(0, "Chủ nhật") in DaysOfWeek
  {
    assert DaysOfWeek[6] == DayOption(0, "Chủ nhật");
  }

  /** The add button as evidently intended: enabled when a day has been picked
      (any day, Sunday included), both times are filled in and nothing is loading. */
  function AddEnabledIntended(form: ScheduleForm, loading: bool): bool {
    form.dayOfWeek.Some? && form.startTime != "" && form.endTime != "" && !loading
  }

  /** With the intended predicate every day the menu offers can be submitted, and
      it agrees with the written one on every day but Sunday. */
  lemma EveryOfferedDayAddable(form: ScheduleForm, loading: bool)
    ensures form.dayOfWeek.Some? && form.dayOfWeek.value != 0
            ==> AddEnabled(form, loading) == AddEnabledIntended(form, loading)
    ensures form.startTime != "" && form.endTime != "" && !loading ==>
      forall d :: d in DaysOfWeek ==> AddEnabledIntended(form.(dayOfWeek := Some(d.value)), loading)
    ensures form.dayOfWeek.None? ==> !AddEnabled(form, loading) && !AddEnabledIntended(form, loading)
  {
  }

  // ---------------------------------------------------------------------------
  // The QR issuance dialogs

  const DefaultDurationInput := "15"
  const MissingClassMessage := "Thiếu ID lớp học."
  const MissingInfoMessage := "Lỗi: Thiếu thông tin lịch học hoặc lớp."
  const InvalidDurationMessage := "Thời gian hiệu lực không hợp lệ."
  const DefaultQrError := "Lỗi khi tạo mã QR."
  /** Zoom is kept in tenths: 10 is 100%. */
  const DefaultZoomTenths := 10

  /** The duration the confirm button accepts: `parseInt(input, 10)`, provided it is
      a number greater than 0. */
  function AcceptedDuration(input: string): (r: Option<int>)
    ensures r.Some? ==> r.value >= 1 && ParseInt(input) == r
    ensures r.None? <==> ParseInt(input).None? || ParseInt(input).value <= 0
  {
    match ParseInt(input)
    case None => None
    case Some(d) => if d <= 0 then None else Some(d)
  }

  /** Every positive whole number typed in is accepted as is; 0 and negative numbers
      are refused. */
  lemma AcceptedDurationOfNumber(n: nat)
    ensures AcceptedDuration(NatToString(n)) == if n >= 1 then Some(n as int) else None
    ensures AcceptedDuration("-" + NatToString(n)) == None
  {
    ParseIntOfNatToString(n);
    ParseIntOfNegative(n);
  }

  /** The duration the dialog opens with is accepted as 15 minutes. */
  lemma DefaultDurationAccepted()
    ensures AcceptedDuration(DefaultDurationInput) == Some(15)
  {
    assert NatToString(15) == DefaultDurationInput by {
      assert NatToString(15) == NatToString(1) + [DigitChar(5)];
    }
    AcceptedDurationOfNumber(15);
  }

  /** Text that does not begin with a blank, a sign or a digit is refused; so is
      the empty field. */
  lemma AcceptedDurationRefusesText(s: string)
    requires s == [] || (!IsWhitespace(s[0]) && !IsDigit(s[0]) && s[0] != '+' && s[0] != '-')
    ensures AcceptedDuration(s) == None
  {
    ParseIntNaN(s);
  }

  /** Leading blanks are skipped and everything from the first non-digit after the
      number on is ignored: " 7", "2.5" and "15abc" read 7, 2 and 15 minutes. */
  lemma {:induction false} AcceptedDurationOfDigitsThen(w: string, n: nat, tail: string)
    requires AllWhitespace(w)
    requires tail == [] || !IsDigit(tail[0])
    ensures AcceptedDuration(w + NatToString(n) + tail) == if n >= 1 then Some(n as int) else None
  {
    ParseIntOfDigitsThen(w, n, tail);
  }

  /** One call of the issuance endpoint. */
  datatype QrRequest = QrRequest(classId: string, scheduleId: int, minutes: int)

  /** Everything the issuance dialogs show, field by field. */
  datatype QrDialogs = QrDialogs(
    openDurationDialog: bool,
    durationInput: string,
    scheduleToGenerateQrFor: Option<Schedule>,
    selectedScheduleForQr: Option<Schedule>,
    openQrDialog: bool,
    qrCodeUrl: string,
    qrLoading: bool,
    qrError: Option<string>,
    zoomTenths: int,
    snackbar: Snackbar)

  class ScheduleQr {
    /** The `classId` route parameter (possibly missing). */
    const classId: Text
    var openDurationDialog: bool
    var durationInput: string
    var scheduleToGenerateQrFor: Option<Schedule>
    var selectedScheduleForQr: Option<Schedule>
    var openQrDialog: bool
    var qrCodeUrl: string
    var qrLoading: bool
    var qrError: Option<string>
    var zoomTenths: int
    var snackbar: Snackbar
    /** The issuance requests sent so far. */
    ghost var requests: seq<QrRequest>
    /** Requests whose response has not arrived yet. */
    ghost var pending: nat

    function View(): QrDialogs
      reads this
    {
      QrDialogs(openDurationDialog, durationInput, scheduleToGenerateQrFor,
        selectedScheduleForQr, openQrDialog, qrCodeUrl, qrLoading, qrError,
        zoomTenths, snackbar)
    }

    /** No request ever carries a duration below one minute, and the spinner is on
        only while a request is outstanding. */
    ghost predicate Valid()
      reads this
    {
      && (forall i :: 0 <= i < |requests| ==> requests[i].minutes >= 1)
      && (qrLoading ==> pending > 0)
    }

    constructor (classId: Text)
      ensures Valid() && this.classId == classId
      ensures View() == QrDialogs(false, DefaultDurationInput, None, None, false, "",
                                  false, None, DefaultZoomTenths, Closed)
      ensures requests == [] && pending == 0
    {
      this.classId := classId;
      openDurationDialog, durationInput := false, DefaultDurationInput;
      scheduleToGenerateQrFor, selectedScheduleForQr := None, None;
      openQrDialog, qrCodeUrl, qrLoading, qrError := false, "", false, None;
      zoomTenths, snackbar := DefaultZoomTenths, Closed;
      requests, pending := [], 0;
    }

    /** The QR button of a schedule row: without a class id only an error is
        reported; otherwise the schedule is remembered, the duration reset to 15 and
        the duration dialog opened. */
    method OpenQrDialog(schedule: Schedule)
      requires Valid()
      modifies this
      ensures Valid() && requests == old(requests) && pending == old(pending)
      ensures !Truthy(classId) ==> View() == old(View()).(snackbar := Show(MissingClassMessage, Error))
      ensures Truthy(classId) ==>
        View() == old(View()).(scheduleToGenerateQrFor := Some(schedule),
                               durationInput := DefaultDurationInput, openDurationDialog := true)
    {
      if !Truthy(classId) {
        snackbar := Show(MissingClassMessage, Error);
        return;
      }
      scheduleToGenerateQrFor := Some(schedule);
      durationInput := DefaultDurationInput;
      openDurationDialog := true;
    }

    /** Typing in the duration field. */
    method ChangeDuration(input: string)
      requires Valid()
      modifies this`durationInput
      ensures Valid()
      ensures View() == old(View()).(durationInput := input)
    {
      durationInput := input;
    }

    /** The zoom slider (0.5 to 3 in steps of 0.1). */
    method ChangeZoom(tenths: int)
      requires Valid() && 5 <= tenths <= 30
      modifies this`zoomTenths
      ensures Valid()
      ensures View() == old(View()).(zoomTenths := tenths)
    {
      zoomTenths := tenths;
    }

    /** Cancelling the duration dialog forgets the schedule it was opened for. */
    method CloseDurationDialog()
      requires Valid()
      modifies this`openDurationDialog, this`scheduleToGenerateQrFor
      ensures Valid()
      ensures View() == old(View()).(openDurationDialog := false, scheduleToGenerateQrFor := None)
    {
      openDurationDialog := false;
      scheduleToGenerateQrFor := None;
    }

    /** Closing the QR modal discards the QR, the error, the schedule and the zoom. */
    method CloseQrDialog()
      requires Valid()
      modifies this
      ensures Valid() && requests == old(requests) && pending == old(pending)
      ensures View() == old(View()).(openQrDialog := false, qrCodeUrl := "", qrError := None,
                                     selectedScheduleForQr := None, zoomTenths := DefaultZoomTenths)
    {
      openQrDialog := false;
      qrCodeUrl := "";
      qrError := None;
      selectedScheduleForQr := None;
      zoomTenths := DefaultZoomTenths;
    }

    /** The success path of the confirm button: the duration dialog closes, the QR
        modal opens empty with the spinner on, and one request is sent. */
    method StartIssue(schedule: Schedule, minutes: int)
      requires Valid() && Truthy(classId) && minutes >= 1
      modifies this
      ensures Valid()
      ensures View() == old(View()).(openDurationDialog := false, scheduleToGenerateQrFor := None,
                                     selectedScheduleForQr := Some(schedule),
                                     zoomTenths := DefaultZoomTenths, qrLoading := true,
                                     qrError := None, qrCodeUrl := "", openQrDialog := true)
      ensures requests == old(requests) + [QrRequest(classId.value, schedule.id, minutes)]
      ensures pending == old(pending) + 1
    {
      openDurationDialog, scheduleToGenerateQrFor, selectedScheduleForQr, zoomTenths := false, None, Some(schedule), DefaultZoomTenths;
      qrLoading, qrError, qrCodeUrl, openQrDialog := true, None, "", true;
      requests, pending := requests + [QrRequest(classId.value, schedule.id, minutes)], pending + 1;
    }

    /** The confirm button of the duration dialog.  A missing schedule or class id
        reports an error and closes the dialog; a duration that is NaN or not
        positive reports an error and leaves the dialog open; otherwise the dialog
        closes, the QR modal opens empty with the spinner on, and the request is
        sent with the parsed duration. */
    method ConfirmDuration() returns (requested: bool)
      requires Valid()
      modifies this
      ensures Valid()
      ensures requested <==>
        old(scheduleToGenerateQrFor).Some? && Truthy(classId)
        && AcceptedDuration(old(durationInput)).Some?
      ensures old(scheduleToGenerateQrFor).None? || !Truthy(classId) ==>
        && View() == old(View()).(snackbar := Show(MissingInfoMessage, Error),
                                  openDurationDialog := false, scheduleToGenerateQrFor := None)
        && requests == old(requests) && pending == old(pending)
      ensures old(scheduleToGenerateQrFor).Some? && Truthy(classId)
              && AcceptedDuration(old(durationInput)).None? ==>
        && View() == old(View()).(snackbar := Show(InvalidDurationMessage, Error))
        && requests == old(requests) && pending == old(pending)
      ensures requested ==>
        && View() == old(View()).(openDurationDialog := false, scheduleToGenerateQrFor := None,
                                  selectedScheduleForQr := old(scheduleToGenerateQrFor),
                                  zoomTenths := DefaultZoomTenths, qrLoading := true,
                                  qrError := None, qrCodeUrl := "", openQrDialog := true)
        && requests == old(requests) + [QrRequest(classId.value,
                         old(scheduleToGenerateQrFor).value.id,
                         AcceptedDuration(old(durationInput)).value)]
        && pending == old(pending) + 1
    {
      if scheduleToGenerateQrFor.None? || !Truthy(classId) {
        snackbar := Show(MissingInfoMessage, Error);
        openDurationDialog := false;
        scheduleToGenerateQrFor := None;
        return false;
      }
      var selectedDuration := AcceptedDuration(durationInput);
      if selectedDuration.None? {
        snackbar := Show(InvalidDurationMessage, Error);
        return false;
      }
      StartIssue(scheduleToGenerateQrFor.value, selectedDuration.value);
      requested := true;
    }

    /** An issuance response arrives with the QR's URL: it is shown and the spinner
        stops.  Responses are applied in the order they arrive. */
    method OnQrGenerated(url: string)
      requires Valid() && pending > 0
      modifies this`qrCodeUrl, this`qrLoading, this`pending
      ensures Valid() && pending == old(pending) - 1
      ensures View() == old(View()).(qrCodeUrl := url, qrLoading := false)
    {
      qrCodeUrl := url;
      qrLoading := false;
      pending := pending - 1;
    }

    /** An issuance request fails with `message`: the error (or the default) is shown
        in the modal and the snackbar, the spinner stops, the URL is left alone. */
    method OnQrFailed(message: Text)
      requires Valid() && pending > 0
      modifies this`qrError, this`snackbar, this`qrLoading, this`pending
      ensures Valid() && pending == old(pending) - 1
      ensures View() == old(View()).(qrError := Some(FirstTruthy([message], DefaultQrError)),
                                     snackbar := Show(FirstTruthy([message], DefaultQrError), Error),
                                     qrLoading := false)
    {
      var shown := FirstTruthy([message], DefaultQrError);
      qrError := Some(shown);
      snackbar := Show(shown, Error);
      qrLoading := false;
      pending := pending - 1;
    }
  }

  /** Typing any duration the dialog accepts and getting a QR back: one request for
      exactly the minutes parseInt read, and the modal shows the QR with no error and
      no spinner.  (AcceptedDurationOfNumber says which texts those are.) */
  method IssueScenario(schedule: Schedule, input: string) returns (page: ScheduleQr)
    requires AcceptedDuration(input).Some?
    ensures page.Valid()
    ensures page.requests == [QrRequest("42", schedule.id, AcceptedDuration(input).value)]
    ensures page.openQrDialog && page.qrCodeUrl == "https://qr/1" && !page.qrLoading
    ensures page.qrError.None? && page.selectedScheduleForQr == Some(schedule)
  {
    page := new ScheduleQr(Some("42"));
    page.OpenQrDialog(schedule);
    page.ChangeDuration(input);
    var sent := page.ConfirmDuration();
    page.OnQrGenerated("https://qr/1");
  }

  /** A request that fails leaves the modal open with the default error and no QR. */
  method FailedIssueScenario(schedule: Schedule, input: string) returns (page: ScheduleQr)
    requires AcceptedDuration(input).Some?
    ensures page.Valid() && page.openQrDialog && page.qrCodeUrl == "" && !page.qrLoading
    ensures page.qrError == Some(DefaultQrError)
  {
    page := new ScheduleQr(Some("42"));
    page.OpenQrDialog(schedule);
    page.ChangeDuration(input);
    var sent := page.ConfirmDuration();
    page.OnQrFailed(None);
  }
}
