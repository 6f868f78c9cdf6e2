/** The check both upload forms run on a chosen file
    (src/components/teacher/ClassStudents.jsx and src/components/admin/BulkCreateUsers.jsx):
    the name must end in one of the accepted extensions, compared without regard to
    ASCII case (the regular expressions carry the `i` flag), and the size may not
    exceed 5 MiB.  The extension is checked first. */
module FileCheck {
  import opened Js

  /** A chosen file: its name and its size in bytes. */
  datatype File = File(name: string, size: nat)

  /** `5 * 1024 * 1024`. */
  const MaxUploadBytes: nat := 5 * 1024 * 1024

  /** The extensions the class roster upload accepts (`/\.(xlsx|xls|csv)$/i`). */
  const RosterExtensions: seq<string> := [".xlsx", ".xls", ".csv"]
  /** The extensions the user import accepts (`/\.(xlsx|xls)$/i`). */
  const UserExtensions: seq<string> := [".xlsx", ".xls"]

  const RosterExtensionMessage := "Chỉ chấp nhận file Excel (.xlsx, .xls) hoặc CSV (.csv)."
  const UserExtensionMessage := "Chỉ chấp nhận file Excel (.xlsx, .xls)."

  /** `Kích thước file không được vượt quá ${maxSize / 1024 / 1024}MB.`, which reads
      "... 5MB.". */
  function SizeMessage(): (r: string)
    ensures r == "Kích thước file không được vượt quá 5MB."
  {
    "Kích thước file không được vượt quá " + NatToString(MaxUploadBytes / 1024 / 1024) + "MB."
  }

  /** The regular expression's case folding, which for the letters of these
      extensions is ASCII upper to lower case. */
  function Lower(c: char): (r: char)
    ensures 'A' <= c <= 'Z' ==> r as int == c as int + 32 && 'a' <= r <= 'z'
    ensures !('A' <= c <= 'Z') ==> r == c
  {
    if 'A' <= c <= 'Z' then (c as int + 32) as char else c
  }

  predicate SameIgnoringCase(a: string, b: string) {
    |a| == |b| && forall i :: 0 <= i < |a| ==> Lower(a[i]) == Lower(b[i])
  }

  /** `name` ends with `ext`, ignoring case. */
  predicate EndsWithIgnoringCase(name: string, ext: string) {
    |ext| <= |name| && SameIgnoringCase(name[|name| - |ext|..], ext)
  }

  /** The regular expression matches: the name ends with one of the extensions. */
  predicate HasExtension(name: string, exts: seq<string>)
    ensures HasExtension(name, exts) ==> exists i :: 0 <= i < |exts| && |exts[i]| <= |name|
  {
    exists i :: 0 <= i < |exts| && EndsWithIgnoringCase(name, exts[i])
  }

  /** The outcome of the check: None when the file is accepted, otherwise the error
      shown.  A wrong extension is reported whatever the size; only a file with an
      accepted extension is checked for size. */
  function Validate(file: File, exts: seq<string>, extensionMessage: string): (r: Option<string>)
    ensures r.None? <==> HasExtension(file.name, exts) && file.size <= MaxUploadBytes
    ensures !HasExtension(file.name, exts) ==> r == Some(extensionMessage)
    ensures HasExtension(file.name, exts) && file.size > MaxUploadBytes ==> r == Some(SizeMessage())
  {
    if !HasExtension(file.name, exts) then Some(extensionMessage)
    else if file.size > MaxUploadBytes then Some(SizeMessage())
    else None
  }

  /** A name with an accepted extension: exactly 5 MiB is accepted, one byte more is
      refused with the size message. */
  lemma SizeLimitIsInclusive(name: string, exts: seq<string>, message: string)
    requires HasExtension(name, exts)
    ensures Validate(File(name, MaxUploadBytes), exts, message).None?
    ensures Validate(File(name, MaxUploadBytes + 1), exts, message) == Some(SizeMessage())
  {
  }

  /** Appending an extension, in any mix of case, to any name makes it acceptable. */
  lemma ExtensionAnyCase(stem: string, ext: string, exts: seq<string>, i: nat)
    requires i < |exts| && SameIgnoringCase(ext, exts[i])
    ensures HasExtension(stem + ext, exts)
  {
    var name := stem + ext;
    assert name[|name| - |ext|..] == ext;
  }

  /** The spreadsheet upload of a roster takes "LIST.CSV"; the user import refuses it,
      and refuses it for its extension whatever its size. */
  lemma CsvOnlyForRoster(size: nat)
    ensures Validate(File("LIST.CSV", size), RosterExtensions, RosterExtensionMessage).None?
            <==> size <= MaxUploadBytes
    ensures Validate(File("LIST.CSV", size), UserExtensions, UserExtensionMessage)
            == Some(UserExtensionMessage)
  {
    var name := "LIST.CSV";
    assert name[|name| - 4..] == ".CSV";
    assert EndsWithIgnoringCase(name, RosterExtensions[2]);
    assert !EndsWithIgnoringCase(name, UserExtensions[0]) by {
      assert Lower(name[|name| - 5..][4]) != Lower(UserExtensions[0][4]);
    }
    assert !EndsWithIgnoringCase(name, UserExtensions[1]) by {
      assert Lower(name[|name| - 4..][3]) != Lower(UserExtensions[1][3]);
    }
  }

  /** Every name the user import accepts, the roster upload accepts too. */
  lemma UserExtensionsAreRosterExtensions(file: File)
    requires Validate(file, UserExtensions, UserExtensionMessage).None?
    ensures Validate(file, RosterExtensions, RosterExtensionMessage).None?
  {
    var i :| 0 <= i < |UserExtensions| && EndsWithIgnoringCase(file.name, UserExtensions[i]);
    assert RosterExtensions[i] == UserExtensions[i];
  }
}
