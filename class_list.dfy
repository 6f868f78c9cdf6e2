/** The teacher's class table (src/components/teacher/ClassList.jsx): which classes a
    page shows, how much blank space pads a short last page, and the pagination
    controls. */
module ClassList {
  import opened Js

  /** A class as listed: its enrolled students may be absent from the response. */
  datatype ClassItem = ClassItem(id: int, name: string, students: Option<seq<int>>)

  /** The page sizes the pager offers, and the one it starts with. */
  const RowsPerPageOptions: seq<nat> := [5, 10, 25]
  const InitialRowsPerPage: nat := 5
  /** The height of one table row in pixels. */
  const RowHeight := 53

  /** `Array.prototype.slice(start, end)` for non-negative bounds: both are cut down
      to the length, and a range that is empty or reversed gives no elements. */
  function Slice<T>(s: seq<T>, start: nat, end: nat): (r: seq<T>)
    ensures |r| == if start < end && start < |s| then (if end < |s| then end else |s|) - start else 0
    ensures start + |r| <= |s| || |r| == 0
    ensures forall i :: 0 <= i < |r| ==> r[i] == s[start + i]
  {
    var hi := if end < |s| then end else |s|;
    if start < hi then s[start..hi] else []
  }

  /** `classes.slice(page * rowsPerPage, page * rowsPerPage + rowsPerPage)`: the
      classes of the page, in order, never more than a page's worth. */
  function PageRows(classes: seq<ClassItem>, page: nat, rowsPerPage: nat): (r: seq<ClassItem>)
    ensures |r| <= rowsPerPage
    ensures |r| == 0 || page * rowsPerPage + |r| <= |classes|
    ensures forall i :: 0 <= i < |r| ==> r[i] == classes[page * rowsPerPage + i]
    ensures page * rowsPerPage < |classes| && rowsPerPage > 0 ==> |r| > 0
    ensures page * rowsPerPage + rowsPerPage <= |classes| ==> |r| == rowsPerPage
  {
    Slice(classes, page * rowsPerPage, page * rowsPerPage + rowsPerPage)
  }

  /** `page > 0 ? Math.max(0, (1 + page) * rowsPerPage - classes.length) : 0`. */
  function EmptyRows(length: nat, page: nat, rowsPerPage: nat): (r: nat)
    ensures page == 0 ==> r == 0
  {
    if page > 0 && (1 + page) * rowsPerPage - length > 0 then (1 + page) * rowsPerPage - length else 0
  }

  /** On any page after the first that still has classes, the shown classes and the
      padding add up to exactly one page. */
  lemma RowsFillPage(classes: seq<ClassItem>, page: nat, rowsPerPage: nat)
    requires page > 0 && page * rowsPerPage < |classes|
    ensures |PageRows(classes, page, rowsPerPage)| + EmptyRows(|classes|, page, rowsPerPage) == rowsPerPage
  {
    assert (1 + page) * rowsPerPage == page * rowsPerPage + rowsPerPage;
  }

  /** A page past the last class shows no class and pads at least a full page. */
  lemma PastLastPage(classes: seq<ClassItem>, page: nat, rowsPerPage: nat)
    requires page > 0 && page * rowsPerPage >= |classes|
    ensures |PageRows(classes, page, rowsPerPage)| == 0
    ensures EmptyRows(|classes|, page, rowsPerPage) >= rowsPerPage
  {
    assert (1 + page) * rowsPerPage == page * rowsPerPage + rowsPerPage;
  }

  /** Consecutive pages pick up where the previous one stopped: every class is on the
      page its index falls in, at its offset there. */
  lemma EveryClassOnItsPage(classes: seq<ClassItem>, rowsPerPage: nat, k: nat)
    requires rowsPerPage > 0 && k < |classes|
    ensures k % rowsPerPage < |PageRows(classes, k / rowsPerPage, rowsPerPage)|
    ensures PageRows(classes, k / rowsPerPage, rowsPerPage)[k % rowsPerPage] == classes[k]
  {
    var page := k / rowsPerPage;
    assert page * rowsPerPage + k % rowsPerPage == k;
  }

  /** `classItem.Students?.length || 0`. */
  function StudentCount(c: ClassItem): (r: nat)
    ensures c.students.None? ==> r == 0
    ensures c.students.Some? ==> r == |c.students.value|
  {
    match c.students
    case None => 0
    case Some(ids) => |ids|
  }

  /** The rows of the table body: one per class, striped on even indices; or the
      placeholder row when the page has no class; then one blank row as tall as the
      padding, when there is padding. */
  datatype Row = Placeholder | ClassRow(name: string, studentCount: nat, striped: bool) | Blank(height: int)

  function ClassRows(shown: seq<ClassItem>): (r: seq<Row>)
    ensures |r| == |shown|
    ensures forall i :: 0 <= i < |r| ==>
      r[i] == ClassRow(shown[i].name, StudentCount(shown[i]), i % 2 == 0)
  {
    seq(|shown|, i requires 0 <= i < |shown| =>
      ClassRow(shown[i].name, StudentCount(shown[i]), i % 2 == 0))
  }

  function Body(classes: seq<ClassItem>, page: nat, rowsPerPage: nat): (r: seq<Row>)
    ensures |r| == (if PageRows(classes, page, rowsPerPage) == [] then 1
                    else |PageRows(classes, page, rowsPerPage)|)
                   + (if EmptyRows(|classes|, page, rowsPerPage) > 0 then 1 else 0)
    ensures PageRows(classes, page, rowsPerPage) == [] <==> r[0] == Placeholder
    ensures PageRows(classes, page, rowsPerPage) != [] ==>
      r[..|PageRows(classes, page, rowsPerPage)|] == ClassRows(PageRows(classes, page, rowsPerPage))
    ensures EmptyRows(|classes|, page, rowsPerPage) > 0 ==>
      r[|r| - 1] == Blank(RowHeight * EmptyRows(|classes|, page, rowsPerPage))
  {
    var shown := PageRows(classes, page, rowsPerPage);
    var empty := EmptyRows(|classes|, page, rowsPerPage);
    (if shown == [] then [Placeholder] else ClassRows(shown))
      + (if empty > 0 then [Blank(RowHeight * empty)] else [])
  }

  /** The table's pagination state. */
  class ClassTable {
    var classes: seq<ClassItem>
    var page: nat
    var rowsPerPage: nat

    ghost predicate Valid()
      reads this
    {
      rowsPerPage in RowsPerPageOptions
    }

    function Rows(): seq<Row>
      reads this
    {
      Body(classes, page, rowsPerPage)
    }

    constructor (classes: seq<ClassItem>)
      ensures Valid() && this.classes == classes && page == 0 && rowsPerPage == InitialRowsPerPage
    {
      this.classes := classes;
      page, rowsPerPage := 0, InitialRowsPerPage;
    }

    /** The pager's previous/next buttons. */
    method ChangePage(newPage: nat)
      requires Valid()
      modifies this`page
      ensures Valid() && page == newPage
    {
      page := newPage;
    }

    /** The page-size menu: its value, the decimal text of one of the options, is read
        with `parseInt(value, 10)`, and the table goes back to the first page, where
        there is no padding. */
    method ChangeRowsPerPage(option: nat)
      requires Valid() && option in RowsPerPageOptions
      modifies this`page, this`rowsPerPage
      ensures Valid() && page == 0 && rowsPerPage == option
      ensures Some(rowsPerPage as int) == ParseInt(NatToString(option))
      ensures EmptyRows(|classes|, page, rowsPerPage) == 0
    {
      var parsed := ParseInt(NatToString(option));
      ParseIntOfNatToString(option);
      rowsPerPage := parsed.value as nat;
      page := 0;
    }
  }

  /** Twelve classes at five per page: the third page shows the last two classes and
      pads three rows. */
  method ThirdPageScenario(classes: seq<ClassItem>) returns (t: ClassTable)
    requires |classes| == 12
    ensures t.Valid()
    ensures PageRows(t.classes, t.page, t.rowsPerPage) == classes[10..]
    ensures EmptyRows(|t.classes|, t.page, t.rowsPerPage) == 3
  {
    t := new ClassTable(classes);
    t.ChangePage(2);
  }
}
