/** The student's scan session (src/components/student/QRScanner.jsx).

    Every callback of the component is one method, run atomically: a decode from the
    camera, the outcome of the check-in request, the timer that hides an error, the
    toggle button, the tab becoming hidden, and the two halves of the scanner effect
    (starting a decoder, and the cleanup React runs before the next run or on unmount).
    Time is the explicit `now` of each decode.  The decoder library is abstract: every
    decoder ever created is an entry of `decoders`, and `handle` is the index held by
    `scannerInstanceRef.current`. */
module QrScanner {
  import opened Js
  import opened Ui

  /** Decodes closer together than this (in ms) after the last accepted one are dropped. */
  const ThrottleMs: int := 3000
  const DefaultSuccessMessage := "Điểm danh thành công!"
  const DefaultCheckInError := "Lỗi không xác định. Vui lòng thử lại."
  const StartFailedMessage := "Không thể khởi động trình quét QR. Kiểm tra quyền camera."

  /** The life of one decoder object: constructed, rendering (camera on, decoding),
      paused, cleared, or cleared with a rejected `clear()`. */
  datatype DecoderState = Created | Scanning | Paused | Cleared | ClearFailed {
    predicate ClearCalled() { Cleared? || ClearFailed? }
    predicate Running() { Scanning? || Paused? }
  }

  /** How the scanner effect's start went: the constructor threw, `render` threw,
      or the decoder is rendering. */
  datatype StartOutcome = Rendered | ConstructorThrew | RenderThrew

  /** One check-in request: when it was sent and the decoded text it carried. */
  datatype Submission = Submission(at: int, payload: string)

  predicate Throttled(lastScanTime: int, now: int) {
    now - lastScanTime < ThrottleMs
  }

  /** Consecutive check-in requests are at least the throttle window apart. */
  ghost predicate Spaced(subs: seq<Submission>) {
    forall i :: 0 <= i < |subs| - 1 ==> subs[i].at + ThrottleMs <= subs[i + 1].at
  }

  /** Requests k apart in the log are at least k windows apart in time. */
  lemma {:induction false} SpacedApart(subs: seq<Submission>, i: nat, j: nat)
    requires Spaced(subs) && i <= j < |subs|
    ensures subs[i].at + ThrottleMs * (j - i) <= subs[j].at
  {
    if i < j {
      SpacedApart(subs, i, j - 1);
    }
  }

  /** At most one check-in request is sent in any window of 3000 ms. */
  lemma AtMostOnePerWindow(subs: seq<Submission>, t: int, i: nat, j: nat)
    requires Spaced(subs) && i < |subs| && j < |subs|
    requires t <= subs[i].at < t + ThrottleMs
    requires t <= subs[j].at < t + ThrottleMs
    ensures i == j
  {
    if i < j {
      SpacedApart(subs, i, j);
    } else if j < i {
      SpacedApart(subs, j, i);
    }
  }

  class ScanSession {
    var isScanning: bool
    var checkinSuccess: bool
    var error: Option<string>
    var lastScanTime: int
    var snackbar: Snackbar
    /** `scannerInstanceRef.current`: an index into `decoders`, or null. */
    var handle: Option<nat>
    /** Every decoder the session has created, in creation order. */
    var decoders: seq<DecoderState>
    /** The check-in requests sent so far. */
    ghost var submissions: seq<Submission>
    /** Check-in requests whose outcome has not been delivered yet. */
    ghost var pending: nat
    /** Scheduled "hide the error" timers that have not fired yet. */
    ghost var errorTimers: nat

    /** The handle names a live decoder; every other decoder has had `clear()` called;
        requests are spaced by the throttle and the last one set `lastScanTime`. */
    ghost predicate Valid()
      reads this
    {
      && (handle.Some? ==> handle.value < |decoders| && !decoders[handle.value].Cleared?)
      && (forall i :: 0 <= i < |decoders| && handle != Some(i) ==> decoders[i].ClearCalled())
      && Spaced(submissions)
      && (submissions != [] ==> submissions[|submissions| - 1].at == lastScanTime)
    }

    /** The decoder library calls the decode callback only while the referenced
        decoder is rendering and not paused. */
    predicate Delivering()
      reads this
    {
      handle.Some? && handle.value < |decoders| && decoders[handle.value] == Scanning
    }

    /** The start/stop button is rendered only while no check-in has succeeded. */
    predicate ToggleOffered()
      reads this
    {
      !checkinSuccess
    }

    /** The terminal state after a successful check-in. */
    ghost predicate Succeeded()
      reads this
    {
      checkinSuccess && !isScanning && handle.None?
    }

    constructor ()
      ensures Valid()
      ensures !isScanning && !checkinSuccess && error.None? && lastScanTime == 0
      ensures snackbar == Closed && handle.None? && decoders == []
      ensures submissions == [] && pending == 0 && errorTimers == 0
    {
      isScanning, checkinSuccess, error, lastScanTime := false, false, None, 0;
      snackbar := Closed;
      handle, decoders := None, [];
      submissions, pending, errorTimers := [], 0, 0;
    }

    /** A decoded QR text at time `now`.  Within the throttle window it is dropped
        with no effect at all.  Otherwise the time is recorded, the error and the
        success flag are cleared, the decoder is paused, and only then is the
        check-in request sent. */
    method OnDecode(now: int, payload: string) returns (submitted: bool)
      requires Valid() && Delivering()
      modifies this
      ensures Valid()
      ensures submitted <==> !Throttled(old(lastScanTime), now)
      ensures !submitted ==> unchanged(this)
      ensures submitted ==>
        && lastScanTime == now && error.None? && !checkinSuccess
        && handle == old(handle) && decoders == old(decoders)[old(handle).value := Paused]
        && submissions == old(submissions) + [Submission(now, payload)]
        && pending == old(pending) + 1
        && isScanning == old(isScanning) && snackbar == old(snackbar)
        && errorTimers == old(errorTimers)
      ensures submitted ==> !Delivering() && lastScanTime >= old(lastScanTime) + ThrottleMs
    {
      if now - lastScanTime < ThrottleMs {
        return false;
      }
      lastScanTime := now;
      error := None;
      checkinSuccess := false;
      if handle.Some? && decoders[handle.value] == Scanning {
        decoders := decoders[handle.value := Paused];
      }
      submissions := submissions + [Submission(now, payload)];
      pending := pending + 1;
      submitted := true;
    }

    /** The check-in request succeeded with `message`.  The success flag is set and,
        when a decoder is referenced, `clear()` is awaited: if it resolves the handle
        is nulled and scanning stops; if it rejects, control falls into the same
        catch block as a failed check-in (error shown, resume attempted). */
    method OnCheckInSuccess(message: Text, clearOk: bool, clearError: Text)
      requires Valid() && pending > 0
      modifies this
      ensures Valid()
      ensures checkinSuccess && pending == old(pending) - 1
      ensures submissions == old(submissions) && lastScanTime == old(lastScanTime)
      ensures old(handle).None? ==>
        && handle.None? && decoders == old(decoders) && isScanning == old(isScanning)
        && error == old(error) && errorTimers == old(errorTimers)
        && snackbar == Show(FirstTruthy([message], DefaultSuccessMessage), Success)
      ensures old(handle).Some? && clearOk ==>
        && Succeeded() && !ToggleOffered() && !Delivering()
        && decoders == old(decoders)[old(handle).value := Cleared]
        && error == old(error) && errorTimers == old(errorTimers)
        && snackbar == Show(FirstTruthy([message], DefaultSuccessMessage), Success)
      ensures old(handle).Some? && !clearOk ==>
        && handle == old(handle) && isScanning == old(isScanning)
        && decoders == old(decoders)[old(handle).value := ClearFailed]
        && error == Some(FirstTruthy([clearError], DefaultCheckInError))
        && snackbar == Show(FirstTruthy([clearError], DefaultCheckInError), Error)
        && errorTimers == old(errorTimers) + 1
      ensures old(Succeeded()) ==> Succeeded()
    {
      snackbar, checkinSuccess, pending :=
        Show(FirstTruthy([message], DefaultSuccessMessage), Success), true, pending - 1;
      if handle.Some? {
        if clearOk {
          decoders, handle, isScanning := decoders[handle.value := Cleared], None, false;
        } else {
          var shown := FirstTruthy([clearError], DefaultCheckInError);
          // resume() on a decoder whose clear() was called has no effect
          decoders, error, snackbar, errorTimers :=
            decoders[handle.value := ClearFailed], Some(shown), Show(shown, Error), errorTimers + 1;
        }
      }
    }

    /** The check-in request failed with `message`.  The message (or the default) is
        shown, a paused decoder is resumed, and a timer is set to hide the error. */
    method OnCheckInFailure(message: Text)
      requires Valid() && pending > 0
      modifies this
      ensures Valid()
      ensures error == Some(FirstTruthy([message], DefaultCheckInError))
      ensures snackbar == Show(FirstTruthy([message], DefaultCheckInError), Error)
      ensures checkinSuccess == old(checkinSuccess) && isScanning == old(isScanning)
      ensures handle == old(handle) && lastScanTime == old(lastScanTime)
      ensures decoders ==
        if old(handle).Some? && old(decoders)[old(handle).value] == Paused
        then old(decoders)[old(handle).value := Scanning] else old(decoders)
      ensures old(handle).Some? && old(decoders)[old(handle).value] == Paused ==> Delivering()
      ensures submissions == old(submissions) && pending == old(pending) - 1
      ensures errorTimers == old(errorTimers) + 1
      ensures old(Succeeded()) ==> Succeeded()
    {
      var shown := FirstTruthy([message], DefaultCheckInError);
      error := Some(shown);
      snackbar := Show(shown, Error);
      if handle.Some? && decoders[handle.value] == Paused {
        decoders := decoders[handle.value := Scanning];
      }
      pending := pending - 1;
      errorTimers := errorTimers + 1;
    }

    /** A "hide the error" timer fires: the error is cleared, whoever set it. */
    method OnErrorTimer()
      requires Valid() && errorTimers > 0
      modifies this`error, this`errorTimers
      ensures Valid()
      ensures error.None? && errorTimers == old(errorTimers) - 1
    {
      error := None;
      errorTimers := errorTimers - 1;
    }

    /** The start/stop button: clears the error and the success flag and flips
        `isScanning`.  The button exists only while no check-in has succeeded. */
    method Toggle()
      requires Valid() && ToggleOffered()
      modifies this`error, this`checkinSuccess, this`isScanning
      ensures Valid()
      ensures isScanning == !old(isScanning) && error.None? && !checkinSuccess
    {
      error := None;
      checkinSuccess := false;
      isScanning := !isScanning;
    }

    /** The page became hidden: a running session stops (and loses its success flag);
        a stopped one is left alone. */
    method OnTabHidden()
      requires Valid()
      modifies this`isScanning, this`checkinSuccess
      ensures Valid()
      ensures !isScanning
      ensures old(isScanning) ==> !checkinSuccess
      ensures !old(isScanning) ==> checkinSuccess == old(checkinSuccess)
      ensures old(Succeeded()) ==> Succeeded()
    {
      if isScanning {
        isScanning := false;
        checkinSuccess := false;
      }
    }

    /** The body of the scanner effect.  React has run the previous run's cleanup,
        so no decoder is referenced.  When scanning is wanted, the error and success
        flag are cleared and a decoder is constructed and rendered; if either step
        throws, the start-failure message is shown and scanning is switched off
        (a decoder whose `render` threw stays referenced until the next cleanup). */
    method RunEffect(outcome: StartOutcome)
      requires Valid() && handle.None?
      modifies this`error, this`checkinSuccess, this`isScanning, this`handle, this`decoders
      ensures Valid()
      ensures !old(isScanning) ==> unchanged(this)
      ensures old(isScanning) && outcome == Rendered ==>
        && isScanning && Delivering() && error.None? && !checkinSuccess
        && decoders == old(decoders) + [Scanning]
      ensures old(isScanning) && outcome != Rendered ==>
        && !isScanning && !checkinSuccess && error == Some(StartFailedMessage)
        && !Delivering()
        && decoders == old(decoders) + (if outcome == RenderThrew then [Created] else [])
    {
      if isScanning {
        error := None;
        checkinSuccess := false;
        match outcome
        case Rendered =>
          decoders := decoders + [Scanning];
          handle := Some(|decoders| - 1);
        case RenderThrew =>
          decoders := decoders + [Created];
          handle := Some(|decoders| - 1);
          error := Some(StartFailedMessage);
          isScanning := false;
        case ConstructorThrew =>
          error := Some(StartFailedMessage);
          isScanning := false;
      }
    }

    /** The scanner effect's cleanup (before the next run, or on unmount): the
        referenced decoder, if any, is cleared, and the handle is nulled whether
        `clear()` resolves or rejects.  With no decoder it changes nothing, so a
        second teardown is harmless. */
    method Cleanup(clearOk: bool)
      requires Valid()
      modifies this`handle, this`decoders
      ensures Valid()
      ensures handle.None?
      ensures forall i :: 0 <= i < |decoders| ==> decoders[i].ClearCalled()
      ensures old(handle).None? ==> unchanged(this)
      ensures old(handle).Some? ==>
        decoders == old(decoders)[old(handle).value := if clearOk then Cleared else ClearFailed]
    {
      if handle.Some? {
        decoders := decoders[handle.value := if clearOk then Cleared else ClearFailed];
        handle := None;
      }
    }
  }

  /** The check-in scenario: start scanning, decode "TOK123" at t = 10000, the
      check-in succeeds.  The session is then terminal with exactly one request
      sent, and a second decode of the same code at t = 11000 would be dropped by
      the throttle even if the decoder could still deliver it. */
  method CheckInOnceScenario() returns (s: ScanSession)
    ensures s.Valid() && s.Succeeded() && !s.ToggleOffered()
    ensures s.submissions == [Submission(10000, "TOK123")]
    ensures Throttled(s.lastScanTime, 11000)
  {
    s := new ScanSession();
    s.Toggle();
    s.RunEffect(Rendered);
    var sent := s.OnDecode(10000, "TOK123");
    s.OnCheckInSuccess(Some("OK"), true, None);
  }

  /** The hidden-tab scenario: a running session whose page is hidden stops, and the
      re-run of the effect that follows leaves no decoder running. */
  method HiddenTabScenario() returns (s: ScanSession)
    ensures s.Valid() && !s.isScanning && s.handle.None?
    ensures forall i :: 0 <= i < |s.decoders| ==> !s.decoders[i].Running()
  {
    s := new ScanSession();
    s.Toggle();
    s.RunEffect(Rendered);
    s.OnTabHidden();
    s.Cleanup(true);
    s.RunEffect(Rendered);
  }

  /** The recovery scenario: a check-in that fails resumes the decoder, so a
      different code decoded after the throttle window is submitted. */
  method RecoveryScenario() returns (s: ScanSession, second: bool)
    ensures s.Valid() && second && !s.checkinSuccess
    ensures s.submissions == [Submission(10000, "OLD"), Submission(13000, "NEW")]
  {
    s := new ScanSession();
    s.Toggle();
    s.RunEffect(Rendered);
    var first := s.OnDecode(10000, "OLD");
    s.OnCheckInFailure(Some("QR code expired"));
    second := s.OnDecode(13000, "NEW");
  }
}
