/** The teacher's roster page of one class (src/components/teacher/ClassStudents.jsx):
    searching for students to add, adding one, and uploading a roster file.  Each
    handler runs as one step with the outcome of its service call as a parameter. */
module ClassStudents {
  import opened Js
  import opened Ui
  import opened FileCheck

  datatype Student = Student(id: int, name: string)

  const ChooseFileMessage := "Vui lòng chọn file để tải lên."
  const DefaultUploadSuccess := "Upload thành công!"
  const DefaultUploadError := "Upload thất bại. Vui lòng thử lại."
  const DefaultAddError := "Lỗi khi thêm sinh viên."

  // ---------------------------------------------------------------------------
  // Search results

  function Ids(roster: seq<Student>): set<int> {
    set s | s in roster :: s.id
  }

  /** `results.filter(s => !currentStudentIds.has(s.id))`: the results in their
      order, without the students already in the class. */
  function NotInRoster(results: seq<Student>, roster: seq<Student>): (r: seq<Student>)
    ensures |r| <= |results|
    ensures forall s :: s in r <==> s in results && s.id !in Ids(roster)
    ensures |results| == 1 ==> r == if results[0].id in Ids(roster) then [] else results
  {
    if results == [] then []
    else
      var rest := NotInRoster(results[1..], roster);
      assert forall s :: s in results <==> s == results[0] || s in results[1..];
      if results[0].id in Ids(roster) then rest else [results[0]] + rest
  }

  /** The filter works element by element and keeps the order: filtering a
      concatenation is concatenating the filtered pieces.  With the one-element case
      this determines the result, duplicates included. */
  lemma {:induction false} NotInRosterAppend(a: seq<Student>, b: seq<Student>, roster: seq<Student>)
    ensures NotInRoster(a + b, roster) == NotInRoster(a, roster) + NotInRoster(b, roster)
  {
    if a == [] {
      assert a + b == b;
    } else {
      assert (a + b)[0] == a[0];
      assert (a + b)[1..] == a[1..] + b;
      NotInRosterAppend(a[1..], b, roster);
    }
  }

  /** Filtering again changes nothing. */
  lemma {:induction false} NotInRosterIdempotent(results: seq<Student>, roster: seq<Student>)
    ensures NotInRoster(NotInRoster(results, roster), roster) == NotInRoster(results, roster)
  {
    if results != [] {
      NotInRosterIdempotent(results[1..], roster);
      var rest := NotInRoster(results[1..], roster);
      if results[0].id !in Ids(roster) {
        assert ([results[0]] + rest)[1..] == rest;
      }
    }
  }

  /** A student just added to the roster never shows up among the results again. */
  lemma AddedStudentNotOffered(results: seq<Student>, roster: seq<Student>, added: Student)
    ensures added !in NotInRoster(results, roster + [added])
  {
    assert added in roster + [added];
  }

  /** What the search effect sees: the results of the request, or a failed request. */
  datatype SearchOutcome = Found(results: seq<Student>) | SearchFailed

  /** The results list after the search effect: empty for a blank term (no request
      is made) or a failed request, otherwise the results not already in the class. */
  function SearchResults(term: string, outcome: SearchOutcome, roster: seq<Student>): (r: seq<Student>)
    ensures AllWhitespace(term) ==> r == []
    ensures !AllWhitespace(term) && outcome.Found? ==> r == NotInRoster(outcome.results, roster)
    ensures outcome.SearchFailed? ==> r == []
    ensures forall s :: s in r ==> s.id !in Ids(roster)
  {
    TrimEmptyIffBlank(term);
    if Trim(term) == "" then []
    else match outcome
      case Found(results) => NotInRoster(results, roster)
      case SearchFailed => []
  }

  // ---------------------------------------------------------------------------
  // Upload messages

  /** What the roster upload endpoint answers: its message and, optionally, the two
      detail strings. */
  datatype UploadResponse = UploadResponse(message: Text, details: Option<UploadDetails>)
  datatype UploadDetails = UploadDetails(alreadyInClass: Text, notFound: Text)

  /** The snackbar text after a successful upload: the response's message or the
      default, then a blank and each detail that is present. */
  function SuccessMessage(response: UploadResponse): (r: string)
    ensures |r| > 0
    ensures Truthy(response.message) ==> StartsWith(r, response.message.value)
    ensures !Truthy(response.message) ==> StartsWith(r, DefaultUploadSuccess)
    ensures response.details.None? ==> r == FirstTruthy([response.message], DefaultUploadSuccess)
    ensures response.details.Some? && Truthy(response.details.value.notFound)
            ==> EndsWith(r, " " + response.details.value.notFound.value)
  {
    var head := FirstTruthy([response.message], DefaultUploadSuccess);
    match response.details
    case None => head
    case Some(d) =>
      var withAlready := if Truthy(d.alreadyInClass) then head + " " + d.alreadyInClass.value else head;
      if Truthy(d.notFound) then withAlready + " " + d.notFound.value else withAlready
  }

  /** A detail string as one part of the message, when it is present. */
  function Present(t: Text): (r: seq<string>)
    ensures |r| <= 1
    ensures Truthy(t) ==> r == [t.value]
    ensures !Truthy(t) ==> r == []
  {
    if Truthy(t) then [t.value] else []
  }

  /** The details that are appended, in order: `alreadyInClass`, then `notFound`. */
  function Details(details: Option<UploadDetails>): (r: seq<string>)
    ensures details.None? ==> r == []
    ensures details.Some? ==>
      r == Present(details.value.alreadyInClass) + Present(details.value.notFound)
  {
    match details
    case None => []
    case Some(d) => Present(d.alreadyInClass) + Present(d.notFound)
  }

  /** In every case the message is the head (the response's message or the default)
      followed by each present detail, joined by blanks; a response whose details
      have neither field gives the head alone. */
  lemma SuccessMessageIsJoin(response: UploadResponse)
    ensures SuccessMessage(response)
            == Join([FirstTruthy([response.message], DefaultUploadSuccess)] + Details(response.details), " ")
  {
    var head := FirstTruthy([response.message], DefaultUploadSuccess);
    var extras := Details(response.details);
    if |extras| == 0 {
      assert [head] + extras == [head];
    } else if |extras| == 1 {
      JoinCons(head, extras, " ");
    } else {
      JoinCons(head, extras, " ");
      assert extras == [extras[0]] + [extras[1]];
      JoinCons(extras[0], [extras[1]], " ");
      assert head + " " + (extras[0] + " " + extras[1]) == head + " " + extras[0] + " " + extras[1];
    }
  }

  /** With both details, the message is exactly the three parts joined by blanks. */
  lemma SuccessMessageWithBoth(message: Text, already: string, notFound: string)
    requires already != "" && notFound != ""
    ensures SuccessMessage(UploadResponse(message, Some(UploadDetails(Some(already), Some(notFound)))))
            == Join([FirstTruthy([message], DefaultUploadSuccess), already, notFound], " ")
  {
    var head := FirstTruthy([message], DefaultUploadSuccess);
    var parts := [head, already, notFound];
    assert Join(parts[1..], " ") == already + " " + notFound by {
      assert parts[1..] == [already, notFound];
      assert parts[1..][1..] == [notFound];
    }
    assert Join(parts, " ") == head + " " + (already + " " + notFound);
    assert head + " " + already + " " + notFound == head + " " + (already + " " + notFound);
  }

  /** The outcome of the upload or add request. */
  datatype Outcome<T> = Succeeded(value: T) | Failed(err: Failure)

  /** Everything the page shows that the handlers change. */
  datatype Roster = Roster(
    students: seq<Student>,
    error: Option<string>,
    snackbar: Snackbar,
    searchTerm: string,
    searchResults: seq<Student>,
    selectedStudent: Option<Student>,
    selectedBulkFile: Option<File>,
    bulkUploadError: Option<string>)

  class Page {
    /** The `classId` route parameter (possibly missing). */
    const classId: Text
    /** The class's students as last loaded. */
    var students: seq<Student>
    var error: Option<string>
    var snackbar: Snackbar
    var searchTerm: string
    var searchResults: seq<Student>
    var selectedStudent: Option<Student>
    var selectedBulkFile: Option<File>
    var bulkUploadError: Option<string>
    /** The files uploaded so far and the students added so far. */
    ghost var uploads: seq<File>
    ghost var added: seq<Student>

    function View(): Roster
      reads this
    {
      Roster(students, error, snackbar, searchTerm, searchResults, selectedStudent,
        selectedBulkFile, bulkUploadError)
    }

    /** The search results never offer a student already in the class, and the file
        held for upload passed the roster check. */
    ghost predicate Valid()
      reads this
    {
      && (forall s :: s in searchResults ==> s.id !in Ids(students))
      && (selectedBulkFile.Some? ==>
            Validate(selectedBulkFile.value, RosterExtensions, RosterExtensionMessage).None?)
      && (forall i :: 0 <= i < |uploads| ==>
            Validate(uploads[i], RosterExtensions, RosterExtensionMessage).None?)
    }

    constructor (classId: Text, students: seq<Student>)
      ensures Valid() && this.classId == classId
      ensures View() == Roster(students, None, Closed, "", [], None, None, None)
      ensures uploads == [] && added == []
    {
      this.classId := classId;
      this.students := students;
      error, snackbar := None, Closed;
      searchTerm, searchResults, selectedStudent := "", [], None;
      selectedBulkFile, bulkUploadError := None, None;
      uploads, added := [], [];
    }

    /** Typing in the search box. */
    method ChangeSearchTerm(term: string)
      requires Valid()
      modifies this`searchTerm
      ensures Valid()
      ensures View() == old(View()).(searchTerm := term)
    {
      searchTerm := term;
    }

    /** Picking a student (or clearing the pick) in the autocomplete. */
    method SelectStudent(student: Option<Student>)
      requires Valid()
      modifies this`selectedStudent
      ensures Valid()
      ensures View() == old(View()).(selectedStudent := student)
    {
      selectedStudent := student;
    }

    /** The search effect for the (debounced) term, against the roster as loaded. */
    method Search(term: string, outcome: SearchOutcome)
      requires Valid()
      modifies this`searchResults
      ensures Valid()
      ensures View() == old(View()).(searchResults := SearchResults(term, outcome, students))
    {
      searchResults := SearchResults(term, outcome, students);
    }

    /** `handleAddSingleStudent`.  Without a selection or a class id nothing happens.
        On success the snackbar names the student, the selection, term and results
        are reset, and the reload clears both error messages; on failure the error
        (or the default) is shown and in the snackbar. */
    method AddSingleStudent(outcome: Outcome<()>)
      requires Valid()
      modifies this
      ensures Valid() && uploads == old(uploads)
      ensures old(selectedStudent).None? || !Truthy(classId) ==>
        View() == old(View()) && added == old(added)
      ensures old(selectedStudent).Some? && Truthy(classId) && outcome.Succeeded? ==>
        && View() == old(View()).(
             snackbar := Show("Đã thêm sinh viên \"" + old(selectedStudent).value.name + "\" vào lớp.",
                              Success),
             selectedStudent := None, searchTerm := "", searchResults := [],
             error := None, bulkUploadError := None)
        && added == old(added) + [old(selectedStudent).value]
      ensures old(selectedStudent).Some? && Truthy(classId) && outcome.Failed? ==>
        && View() == old(View()).(
             error := Some(FirstTruthy([outcome.err.message], DefaultAddError)),
             snackbar := Show(FirstTruthy([outcome.err.message], DefaultAddError), Error))
        && added == old(added)
    {
      if selectedStudent.None? || !Truthy(classId) {
        return;
      }
      error := None;
      match outcome
      case Succeeded(_) =>
        var student := selectedStudent.value;
        snackbar := Show("Đã thêm sinh viên \"" + student.name + "\" vào lớp.", Success);
        selectedStudent, searchTerm, searchResults := None, "", [];
        // the reload that follows clears both errors before it fetches
        bulkUploadError, added := None, added + [student];
      case Failed(err) =>
        var shown := FirstTruthy([err.message], DefaultAddError);
        error, snackbar := Some(shown), Show(shown, Error);
    }

    /** `handleBulkFileChange`: the upload error is cleared first; no file clears the
        selection; a file that fails the roster check is dropped with its error; a
        file that passes is held for upload. */
    method BulkFileChange(file: Option<File>)
      requires Valid()
      modifies this`selectedBulkFile, this`bulkUploadError
      ensures Valid()
      ensures file.None? ==> View() == old(View()).(bulkUploadError := None, selectedBulkFile := None)
      ensures file.Some? ==>
        View() == old(View()).(
          bulkUploadError := Validate(file.value, RosterExtensions, RosterExtensionMessage),
          selectedBulkFile :=
            if Validate(file.value, RosterExtensions, RosterExtensionMessage).None? then file else None)
    {
      bulkUploadError := None;
      if file.Some? {
        var problem := Validate(file.value, RosterExtensions, RosterExtensionMessage);
        if problem.Some? {
          bulkUploadError := problem;
          selectedBulkFile := None;
          return;
        }
        selectedBulkFile := file;
      } else {
        selectedBulkFile := None;
      }
    }

    /** `handleBulkUpload` as written.  Without a file or a class id only the prompt
        to choose a file is shown and nothing is sent.  On failure the error message
        is shown both under the form and in the snackbar, and the file is kept.  On
        success the composed message is shown and the file dropped, but the next
        statement looks up the element "bulk-student-upload-input", which no element
        of the page is: the file input carries no id.  Setting `value` on the null it
        gets throws a TypeError (whose text, `thrown`, the browser chooses) inside the
        `try`, so the reload is skipped and the `catch` replaces the success with
        that text, under the form and in an error snackbar. */
    method BulkUpload(outcome: Outcome<UploadResponse>, thrown: string)
      requires Valid()
      modifies this
      ensures Valid() && added == old(added)
      ensures old(selectedBulkFile).None? || !Truthy(classId) ==>
        View() == old(View()).(bulkUploadError := Some(ChooseFileMessage)) && uploads == old(uploads)
      ensures old(selectedBulkFile).Some? && Truthy(classId) ==>
        uploads == old(uploads) + [old(selectedBulkFile).value]
      ensures old(selectedBulkFile).Some? && Truthy(classId) && outcome.Succeeded? ==>
        View() == old(View()).(bulkUploadError := Some(FailureMessage(NullInputFailure(thrown), DefaultUploadError)),
                               snackbar := Show(FailureMessage(NullInputFailure(thrown), DefaultUploadError), Error),
                               selectedBulkFile := None)
      ensures old(selectedBulkFile).Some? && Truthy(classId) && outcome.Failed? ==>
        View() == old(View()).(bulkUploadError := Some(FailureMessage(outcome.err, DefaultUploadError)),
                               snackbar := Show(FailureMessage(outcome.err, DefaultUploadError), Error))
    {
      if selectedBulkFile.None? || !Truthy(classId) {
        bulkUploadError := Some(ChooseFileMessage);
        return;
      }
      uploads := uploads + [selectedBulkFile.value];
      match outcome
      case Succeeded(response) =>
        snackbar, selectedBulkFile := Show(SuccessMessage(response), Success), None;
        // the input reset throws, and the catch takes over
        var shown := FailureMessage(NullInputFailure(thrown), DefaultUploadError);
        bulkUploadError, snackbar := Some(shown), Show(shown, Error);
      case Failed(err) =>
        var shown := FailureMessage(err, DefaultUploadError);
        bulkUploadError, snackbar := Some(shown), Show(shown, Error);
    }

    /** `handleBulkUpload` as evidently intended, with the input reset succeeding:
        on success the composed message is shown, the file dropped, and the reload
        clears the page error before it fetches.  The other cases are as written. */
    method BulkUploadIntended(outcome: Outcome<UploadResponse>)
      requires Valid()
      modifies this
      ensures Valid() && added == old(added)
      ensures old(selectedBulkFile).None? || !Truthy(classId) ==>
        View() == old(View()).(bulkUploadError := Some(ChooseFileMessage)) && uploads == old(uploads)
      ensures old(selectedBulkFile).Some? && Truthy(classId) ==>
        uploads == old(uploads) + [old(selectedBulkFile).value]
      ensures old(selectedBulkFile).Some? && Truthy(classId) && outcome.Succeeded? ==>
        View() == old(View()).(snackbar := Show(SuccessMessage(outcome.value), Success),
                               selectedBulkFile := None, bulkUploadError := None, error := None)
      ensures old(selectedBulkFile).Some? && Truthy(classId) && outcome.Failed? ==>
        View() == old(View()).(bulkUploadError := Some(FailureMessage(outcome.err, DefaultUploadError)),
                               snackbar := Show(FailureMessage(outcome.err, DefaultUploadError), Error))
    {
      if selectedBulkFile.None? || !Truthy(classId) {
        bulkUploadError := Some(ChooseFileMessage);
        return;
      }
      uploads := uploads + [selectedBulkFile.value];
      match outcome
      case Succeeded(response) =>
        // the reload that follows clears the page error before it fetches
        snackbar, selectedBulkFile, bulkUploadError, error :=
          Show(SuccessMessage(response), Success), None, None, None;
      case Failed(err) =>
        var shown := FailureMessage(err, DefaultUploadError);
        bulkUploadError, snackbar := Some(shown), Show(shown, Error);
    }
  }

  /** The TypeError thrown inside the `try`: it has no `response`, only a message. */
  function NullInputFailure(thrown: string): Failure {
    Failure(None, Some(thrown))
  }

  /** Choosing a file that passes the check and uploading it, as written: the file
      is sent and dropped, but the page then reports an error, with the TypeError's
      text (or the default failure text) under the form and in an error snackbar,
      where a success was meant. */
  method UploadScenario(file: File, thrown: string) returns (p: Page)
    requires Validate(file, RosterExtensions, RosterExtensionMessage).None?
    ensures p.Valid() && p.uploads == [file] && p.selectedBulkFile.None?
    ensures p.snackbar.severity == Error && p.bulkUploadError == Some(p.snackbar.message)
    ensures thrown != "" ==> p.snackbar.message == thrown
    ensures thrown == "" ==> p.snackbar.message == DefaultUploadError
  {
    p := new Page(Some("c1"), []);
    p.BulkFileChange(Some(file));
    p.BulkUpload(Succeeded(UploadResponse(None, None)), thrown);
  }

  /** The same upload as intended: the file is sent and dropped, and the snackbar
      reports the default success. */
  method IntendedUploadScenario(file: File) returns (p: Page)
    requires Validate(file, RosterExtensions, RosterExtensionMessage).None?
    ensures p.Valid() && p.uploads == [file]
    ensures p.selectedBulkFile.None? && p.bulkUploadError.None?
    ensures p.snackbar == Show(DefaultUploadSuccess, Success)
  {
    p := new Page(Some("c1"), []);
    p.BulkFileChange(Some(file));
    p.BulkUploadIntended(Succeeded(UploadResponse(None, None)));
  }
}
