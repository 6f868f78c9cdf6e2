/** The administrator's user import (src/components/admin/BulkCreateUsers.jsx): choose
    a spreadsheet, upload it, and report the outcome.  The upload handler runs as one
    step with the outcome of the request as a parameter. */
module BulkCreateUsers {
  import opened Js
  import opened Ui
  import opened FileCheck

  const ChooseFileMessage := "Vui lòng chọn file để tải lên."
  const DefaultSuccess := "Upload thành công!"
  const DefaultError := "Upload thất bại. Vui lòng thử lại."
  const DetailsHeader := "Chi tiết:"

  /** One entry of `err.response.data.errors`. */
  datatype FieldError = FieldError(field: string, message: string)

  /** `errors.map(e => `${e.field}: ${e.message}`)`. */
  function ErrorLines(errors: seq<FieldError>): (r: seq<string>)
    ensures |r| == |errors|
    ensures forall i :: 0 <= i < |r| ==> r[i] == errors[i].field + ": " + errors[i].message
  {
    seq(|errors|, i requires 0 <= i < |errors| => errors[i].field + ": " + errors[i].message)
  }

  /** The error shown under the form: the message alone, or, when the response
      carries a list of errors (even an empty one), the message, a "Chi tiết:" line
      and one line per entry. */
  function DisplayError(errorMsg: string, errors: Option<seq<FieldError>>): (r: string)
    ensures StartsWith(r, errorMsg)
    ensures errors.None? ==> r == errorMsg
  {
    match errors
    case None => errorMsg
    case Some(es) => errorMsg + "\n" + DetailsHeader + "\n" + Join(ErrorLines(es), "\n")
  }

  /** The parts the shown error joins with line breaks: the message, the header, then
      the entries, or a single empty part when the list is empty. */
  function DisplayParts(errorMsg: string, errors: seq<FieldError>): seq<string> {
    [errorMsg, DetailsHeader] + (if |errors| >= 1 then ErrorLines(errors) else [""])
  }

  /** Join of two first parts and a non-empty rest. */
  lemma JoinTwoThen(a: string, b: string, rest: seq<string>, sep: string)
    requires |rest| >= 1
    ensures Join([a, b] + rest, sep) == a + sep + b + sep + Join(rest, sep)
  {
    JoinCons(b, rest, sep);
    JoinCons(a, [b] + rest, sep);
    assert [a] + ([b] + rest) == [a, b] + rest;
  }

  lemma DisplayErrorIsJoin(errorMsg: string, errors: seq<FieldError>)
    ensures DisplayError(errorMsg, Some(errors)) == Join(DisplayParts(errorMsg, errors), "\n")
  {
    var body := if |errors| >= 1 then ErrorLines(errors) else [""];
    assert Join(body, "\n") == Join(ErrorLines(errors), "\n");
    JoinTwoThen(errorMsg, DetailsHeader, body, "\n");
  }

  lemma NoBreakInLine(e: FieldError)
    requires '\n' !in e.field && '\n' !in e.message
    ensures '\n' !in e.field + ": " + e.message
  {
    var line := e.field + ": " + e.message;
    forall k | 0 <= k < |line|
      ensures line[k] != '\n'
    {
      if k < |e.field| {
        assert line[k] == e.field[k];
      } else if k >= |e.field| + 2 {
        assert line[k] == e.message[k - |e.field| - 2];
      }
    }
  }

  /** When neither the message nor any entry contains a line break, the lines of the
      shown error are exactly the message, the header and the entries in order. */
  lemma DisplayErrorLines(errorMsg: string, errors: seq<FieldError>)
    requires '\n' !in errorMsg
    requires forall i :: 0 <= i < |errors| ==> '\n' !in errors[i].field && '\n' !in errors[i].message
    ensures |errors| >= 1 ==>
      Split(DisplayError(errorMsg, Some(errors)), '\n') == [errorMsg, DetailsHeader] + ErrorLines(errors)
    ensures |errors| == 0 ==>
      Split(DisplayError(errorMsg, Some(errors)), '\n') == [errorMsg, DetailsHeader, ""]
  {
    var parts := DisplayParts(errorMsg, errors);
    DisplayErrorIsJoin(errorMsg, errors);
    forall i | 0 <= i < |parts|
      ensures '\n' !in parts[i]
    {
      if i >= 2 && |errors| >= 1 {
        NoBreakInLine(errors[i - 2]);
      }
    }
    SplitJoin(parts, '\n');
  }

  /** How the upload went: the response's message, or a rejection with the optional
      list of per-field errors. */
  datatype UploadOutcome = Created(message: Text) | Rejected(err: Failure, errors: Option<seq<FieldError>>)

  datatype Form = Form(selectedFile: Option<File>, error: Option<string>, snackbar: Snackbar)

  class Importer {
    var selectedFile: Option<File>
    var error: Option<string>
    var snackbar: Snackbar
    /** The files sent so far. */
    ghost var uploads: seq<File>

    function View(): Form
      reads this
    {
      Form(selectedFile, error, snackbar)
    }

    /** Only files that pass the spreadsheet check are held or sent. */
    ghost predicate Valid()
      reads this
    {
      && (selectedFile.Some? ==> Validate(selectedFile.value, UserExtensions, UserExtensionMessage).None?)
      && (forall i :: 0 <= i < |uploads| ==>
            Validate(uploads[i], UserExtensions, UserExtensionMessage).None?)
    }

    constructor ()
      ensures Valid() && View() == Form(None, None, Closed) && uploads == []
    {
      selectedFile, error, snackbar := None, None, Closed;
      uploads := [];
    }

    /** `handleFileChange`: the error is cleared first; no file clears the selection;
        a file that fails the check is dropped with its error; one that passes is
        held. */
    method FileChange(file: Option<File>)
      requires Valid()
      modifies this`selectedFile, this`error
      ensures Valid()
      ensures file.None? ==> View() == old(View()).(error := None, selectedFile := None)
      ensures file.Some? ==>
        View() == old(View()).(
          error := Validate(file.value, UserExtensions, UserExtensionMessage),
          selectedFile :=
            if Validate(file.value, UserExtensions, UserExtensionMessage).None? then file else None)
    {
      error := None;
      if file.Some? {
        var problem := Validate(file.value, UserExtensions, UserExtensionMessage);
        if problem.Some? {
          error := problem;
          selectedFile := None;
          return;
        }
        selectedFile := file;
      } else {
        selectedFile := None;
      }
    }

    /** `handleUpload`.  Without a file only the prompt is shown and nothing is sent.
        On success the response's message (or the default) goes to the snackbar and
        the file is dropped.  On failure the form shows the detailed error while the
        snackbar shows the message alone, and the file is kept. */
    method Upload(outcome: UploadOutcome)
      requires Valid()
      modifies this`selectedFile, this`error, this`snackbar, this`uploads
      ensures Valid()
      ensures old(selectedFile).None? ==>
        View() == old(View()).(error := Some(ChooseFileMessage)) && uploads == old(uploads)
      ensures old(selectedFile).Some? ==> uploads == old(uploads) + [old(selectedFile).value]
      ensures old(selectedFile).Some? && outcome.Created? ==>
        View() == Form(None, None, Show(FirstTruthy([outcome.message], DefaultSuccess), Success))
      ensures old(selectedFile).Some? && outcome.Rejected? ==>
        View() == old(View()).(
          error := Some(DisplayError(FailureMessage(outcome.err, DefaultError), outcome.errors)),
          snackbar := Show(FailureMessage(outcome.err, DefaultError), Error))
    {
      if selectedFile.None? {
        error := Some(ChooseFileMessage);
        return;
      }
      error := None;
      uploads := uploads + [selectedFile.value];
      match outcome
      case Created(message) =>
        snackbar := Show(FirstTruthy([message], DefaultSuccess), Success);
        selectedFile := None;
      case Rejected(err, errors) =>
        var errorMsg := FailureMessage(err, DefaultError);
        error := Some(DisplayError(errorMsg, errors));
        snackbar := Show(errorMsg, Error);
    }
  }

  /** A rejected import with per-field errors: the form lists the server's message,
      the header and one line per entry, the snackbar carries only the message, and
      the file stays chosen. */
  method RejectedScenario(file: File, msg: string, errors: seq<FieldError>) returns (p: Importer)
    requires Validate(file, UserExtensions, UserExtensionMessage).None?
    requires msg != "" && '\n' !in msg && |errors| >= 1
    requires forall i :: 0 <= i < |errors| ==> '\n' !in errors[i].field && '\n' !in errors[i].message
    ensures p.Valid() && p.selectedFile == Some(file) && p.uploads == [file]
    ensures p.snackbar == Show(msg, Error)
    ensures p.error.Some? && Split(p.error.value, '\n') == [msg, DetailsHeader] + ErrorLines(errors)
  {
    p := new Importer();
    p.FileChange(Some(file));
    p.Upload(Rejected(Failure(Some(msg), None), Some(errors)));
    DisplayErrorLines(msg, errors);
  }
}
