/** The stand-alone QR panel of a schedule (src/components/teacher/QRGenerator.jsx):
    the duration dialog, the QR modal and its zoom buttons, and the handler
    `handleGenerateQR`, which requests a QR without a duration but which no element
    of the panel calls.  A request and its response are separate events; responses
    are applied in the order they arrive. */
module QrGenerator {
  import opened Js

  const DefaultError := "Không thể tạo mã QR"
  const DurationHelperText := "Vui lòng nhập số phút lớn hơn 0"

  // ---------------------------------------------------------------------------
  // Zoom, in tenths: the slider runs from 5 (50%) to 30 (300%), the buttons step by 2

  const MinZoom := 5
  const MaxZoom := 30
  const ZoomStep := 2

  /** The zoom-out button: `Math.max(0.5, zoom - 0.2)`. */
  function ZoomedOut(z: int): (r: int)
    ensures r >= MinZoom && r <= if z < MinZoom then MinZoom else z
    ensures r == z - ZoomStep || r == MinZoom
  {
    if z - ZoomStep > MinZoom then z - ZoomStep else MinZoom
  }

  /** The zoom-in button: `Math.min(3, zoom + 0.2)`. */
  function ZoomedIn(z: int): (r: int)
    ensures r <= MaxZoom && r >= if z > MaxZoom then MaxZoom else z
    ensures r == z + ZoomStep || r == MaxZoom
  {
    if z + ZoomStep < MaxZoom then z + ZoomStep else MaxZoom
  }

  /** The buttons never leave the slider's range. */
  lemma ZoomStaysInRange(z: int)
    requires MinZoom <= z <= MaxZoom
    ensures MinZoom <= ZoomedOut(z) <= MaxZoom && MinZoom <= ZoomedIn(z) <= MaxZoom
  {
  }

  /** Away from the ends, one step in and one step out cancel each other; at an end the
      button leaves the zoom where it is. */
  lemma ZoomRoundTrip(z: int)
    ensures MinZoom <= z <= MaxZoom - ZoomStep ==> ZoomedOut(ZoomedIn(z)) == z
    ensures MinZoom + ZoomStep <= z <= MaxZoom ==> ZoomedIn(ZoomedOut(z)) == z
    ensures ZoomedIn(MaxZoom) == MaxZoom && ZoomedOut(MinZoom) == MinZoom
  {
  }

  /** Zooming in k times from anywhere in range never passes 300%, and reaches it
      after enough presses. */
  function ZoomInTimes(z: int, k: nat): (r: int)
    requires MinZoom <= z <= MaxZoom
    ensures MinZoom <= r <= MaxZoom
    ensures r == if z + ZoomStep * k < MaxZoom then z + ZoomStep * k else MaxZoom
    decreases k
  {
    if k == 0 then z else ZoomInTimes(ZoomedIn(z), k - 1)
  }

  // ---------------------------------------------------------------------------
  // The duration dialog's guard

  /** The confirm button is disabled, and the field shows its helper text, exactly
      when the duration is below one minute. */
  function DurationHelper(minutes: real): (r: Option<string>)
    ensures r.Some? <==> minutes < 1.0
    ensures r.Some? ==> r.value == DurationHelperText
  {
    if minutes < 1.0 then Some(DurationHelperText) else None
  }

  predicate ConfirmEnabled(minutes: real) {
    DurationHelper(minutes).None?
  }

  /** One call of the issuance endpoint: `handleGenerateQR` sends no duration. */
  datatype Request = Request(classId: Text, scheduleId: Text, minutes: Option<real>)

  /** Everything the panel, the dialog and the modal show, field by field. */
  datatype Panel = Panel(
    qrData: Text,
    loading: bool,
    error: Option<string>,
    expiresAt: Text,
    openDurationDialog: bool,
    openQrDialog: bool,
    durationMinutes: real,
    zoomTenths: int,
    qrCodeUrl: Text,
    qrLoading: bool,
    qrError: Option<string>)

  class Generator {
    const classId: Text
    const scheduleId: Text
    var qrData: Text
    var loading: bool
    var error: Option<string>
    var expiresAt: Text
    var openDurationDialog: bool
    var openQrDialog: bool
    /** The number in the duration field (an empty field reads 0). */
    var durationMinutes: real
    var zoomTenths: int
    var qrCodeUrl: Text
    var qrLoading: bool
    var qrError: Option<string>
    /** The issuance requests sent so far, by either handler. */
    ghost var requests: seq<Request>
    /** Requests without and with a duration whose response has not arrived yet. */
    ghost var pendingUntimed: nat
    ghost var pendingTimed: nat

    function View(): Panel
      reads this
    {
      Panel(qrData, loading, error, expiresAt, openDurationDialog, openQrDialog,
        durationMinutes, zoomTenths, qrCodeUrl, qrLoading, qrError)
    }

    /** The zoom stays on the slider, every timed request asks for at least one
        minute, and each spinner is on only while a request of its kind is out. */
    ghost predicate Valid()
      reads this
    {
      && MinZoom <= zoomTenths <= MaxZoom
      && (forall i :: 0 <= i < |requests| && requests[i].minutes.Some?
            ==> requests[i].minutes.value >= 1.0)
      && (loading ==> pendingUntimed > 0)
      && (qrLoading ==> pendingTimed > 0)
    }

    /** The modal shows the QR image only when there is a URL, nothing is loading and
        there is no error. */
    predicate ShowsQr()
      reads this
    {
      Truthy(qrCodeUrl) && !qrLoading && qrError.None?
    }

    constructor (classId: Text, scheduleId: Text)
      ensures Valid() && this.classId == classId && this.scheduleId == scheduleId
      ensures View() == Panel(None, false, None, None, false, false, 1.0, 10, None, false, None)
      ensures requests == [] && pendingUntimed == 0 && pendingTimed == 0
    {
      this.classId, this.scheduleId := classId, scheduleId;
      qrData, loading, error, expiresAt := None, false, None, None;
      openDurationDialog, openQrDialog, durationMinutes := false, false, 1.0;
      zoomTenths, qrCodeUrl, qrLoading, qrError := 10, None, false, None;
      requests, pendingUntimed, pendingTimed := [], 0, 0;
    }

    /** `handleGenerateQR`, up to the request: the panel spinner starts, the error is
        cleared and a request without a duration is sent.  No element of the panel
        calls this handler: its only button opens the duration dialog. */
    method GenerateQr()
      requires Valid()
      modifies this
      ensures Valid() && pendingTimed == old(pendingTimed)
      ensures View() == old(View()).(loading := true, error := None)
      ensures requests == old(requests) + [Request(classId, scheduleId, None)]
      ensures pendingUntimed == old(pendingUntimed) + 1
    {
      loading := true;
      error := None;
      requests := requests + [Request(classId, scheduleId, None)];
      pendingUntimed := pendingUntimed + 1;
    }

    /** The request without a duration succeeds: its QR data and expiry are shown, the spinner stops. */
    method OnGenerated(data: Text, expiry: Text)
      requires Valid() && pendingUntimed > 0
      modifies this
      ensures Valid() && requests == old(requests) && pendingTimed == old(pendingTimed)
      ensures View() == old(View()).(qrData := data, expiresAt := expiry, loading := false)
      ensures pendingUntimed == old(pendingUntimed) - 1
    {
      qrData := data;
      expiresAt := expiry;
      loading := false;
      pendingUntimed := pendingUntimed - 1;
    }

    /** The request without a duration fails: its message (or the default) is shown under the
        panel, the spinner stops, the QR data is left alone. */
    method OnGenerateFailed(message: Text)
      requires Valid() && pendingUntimed > 0
      modifies this
      ensures Valid() && requests == old(requests) && pendingTimed == old(pendingTimed)
      ensures View() == old(View()).(error := Some(FirstTruthy([message], DefaultError)),
                                     loading := false)
      ensures pendingUntimed == old(pendingUntimed) - 1
    {
      error := Some(FirstTruthy([message], DefaultError));
      loading := false;
      pendingUntimed := pendingUntimed - 1;
    }

    method OpenDurationDialog()
      requires Valid()
      modifies this`openDurationDialog
      ensures Valid()
      ensures View() == old(View()).(openDurationDialog := true)
    {
      openDurationDialog := true;
    }

    /** Cancelling the dialog closes it and keeps the duration typed so far. */
    method CloseDurationDialog()
      requires Valid()
      modifies this`openDurationDialog
      ensures Valid()
      ensures View() == old(View()).(openDurationDialog := false)
    {
      openDurationDialog := false;
    }

    /** Typing in the duration field: any number is kept, the guard decides later. */
    method ChangeDuration(minutes: real)
      requires Valid()
      modifies this`durationMinutes
      ensures Valid()
      ensures View() == old(View()).(durationMinutes := minutes)
    {
      durationMinutes := minutes;
    }

    /** `handleConfirmDurationAndGenerateQr`, up to the request; the button is only
        enabled from one minute up.  The modal's spinner starts, its error is
        cleared, and a request for the typed duration is sent. */
    method ConfirmDuration()
      requires Valid() && ConfirmEnabled(durationMinutes)
      modifies this
      ensures Valid() && pendingUntimed == old(pendingUntimed)
      ensures View() == old(View()).(qrLoading := true, qrError := None)
      ensures requests == old(requests) + [Request(classId, scheduleId, Some(durationMinutes))]
      ensures pendingTimed == old(pendingTimed) + 1
    {
      qrLoading := true;
      qrError := None;
      requests := requests + [Request(classId, scheduleId, Some(durationMinutes))];
      pendingTimed := pendingTimed + 1;
    }

    /** The timed request succeeds: the URL and expiry come from the response, the
        modal opens, its spinner stops and the duration dialog closes. */
    method OnConfirmed(url: Text, expiry: Text)
      requires Valid() && pendingTimed > 0
      modifies this
      ensures Valid() && requests == old(requests) && pendingUntimed == old(pendingUntimed)
      ensures View() == old(View()).(qrCodeUrl := url, expiresAt := expiry, openQrDialog := true,
                                     qrLoading := false, openDurationDialog := false)
      ensures pendingTimed == old(pendingTimed) - 1
    {
      qrCodeUrl, expiresAt, openQrDialog := url, expiry, true;
      qrLoading, openDurationDialog, pendingTimed := false, false, pendingTimed - 1;
    }

    /** The timed request fails: the message (or the default) becomes the modal's
        error, the spinner stops and the duration dialog closes; the modal is not
        opened and the URL is left as it was. */
    method OnConfirmFailed(message: Text)
      requires Valid() && pendingTimed > 0
      modifies this
      ensures Valid() && requests == old(requests) && pendingUntimed == old(pendingUntimed)
      ensures View() == old(View()).(qrError := Some(FirstTruthy([message], DefaultError)),
                                     qrLoading := false, openDurationDialog := false)
      ensures pendingTimed == old(pendingTimed) - 1
    {
      qrError := Some(FirstTruthy([message], DefaultError));
      qrLoading := false;
      openDurationDialog := false;
      pendingTimed := pendingTimed - 1;
    }

    /** Closing the modal only hides it: the URL, error and zoom stay. */
    method CloseQrDialog()
      requires Valid()
      modifies this`openQrDialog
      ensures Valid()
      ensures View() == old(View()).(openQrDialog := false)
    {
      openQrDialog := false;
    }

    /** The zoom slider. */
    method ChangeZoom(tenths: int)
      requires Valid() && MinZoom <= tenths <= MaxZoom
      modifies this`zoomTenths
      ensures Valid()
      ensures View() == old(View()).(zoomTenths := tenths)
    {
      zoomTenths := tenths;
    }

    /** The zoom-out button, enabled above 50%. */
    method ZoomOut()
      requires Valid() && zoomTenths > MinZoom
      modifies this`zoomTenths
      ensures Valid() && zoomTenths < old(zoomTenths)
      ensures View() == old(View()).(zoomTenths := ZoomedOut(old(zoomTenths)))
    {
      zoomTenths := ZoomedOut(zoomTenths);
    }

    /** The zoom-in button, enabled below 300%. */
    method ZoomIn()
      requires Valid() && zoomTenths < MaxZoom
      modifies this`zoomTenths
      ensures Valid() && zoomTenths > old(zoomTenths)
      ensures View() == old(View()).(zoomTenths := ZoomedIn(old(zoomTenths)))
    {
      zoomTenths := ZoomedIn(zoomTenths);
    }
  }

  /** Typing a duration of at least one minute and getting a URL back: one timed
      request for exactly that duration, and the modal shows the QR. */
  method ConfirmScenario(minutes: real) returns (g: Generator)
    requires minutes >= 1.0
    ensures g.Valid() && g.requests == [Request(Some("c1"), Some("s1"), Some(minutes))]
    ensures g.openQrDialog && !g.openDurationDialog && g.ShowsQr()
    ensures g.qrCodeUrl == Some("https://qr/1")
  {
    g := new Generator(Some("c1"), Some("s1"));
    g.OpenDurationDialog();
    g.ChangeDuration(minutes);
    g.ConfirmDuration();
    g.OnConfirmed(Some("https://qr/1"), Some("2026-01-01T00:00:00Z"));
  }

  /** A timed request that fails closes the dialog but never opens the modal. */
  method FailedConfirmScenario() returns (g: Generator)
    ensures g.Valid() && !g.openQrDialog && !g.openDurationDialog && !g.ShowsQr()
    ensures g.qrError == Some(DefaultError) && g.qrCodeUrl.None? && !g.qrLoading
  {
    g := new Generator(Some("c1"), Some("s1"));
    g.OpenDurationDialog();
    g.ConfirmDuration();
    g.OnConfirmFailed(None);
  }
}
