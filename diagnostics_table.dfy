/**
 * The lab-request table: which requests a user sees, under the search box and
 * the status filter, and which action each row offers.
 */
module DiagnosticsTable {
  import opened Wrappers
  import opened JsValues

  /** The fields of a lab request the table filters on. */
  datatype LabRequestRow = LabRequestRow(
    id: string,
    doctorId: string,
    testType: string,
    status: string,
    patientName: Option<string>)

  /** The signed-in user, as `useUser` gives it. */
  datatype User = User(id: string, role: string)

  // ---------------------------------------------------------------------------
  // Filtering, in general
  // ---------------------------------------------------------------------------

  /** `rows.filter(p)` */
  function Keep<T>(rows: seq<T>, p: T -> bool): (r: seq<T>)
    ensures |r| <= |rows|
    ensures forall x :: x in r ==> x in rows && p(x)
    ensures forall x :: x in rows && p(x) ==> x in r
  {
    if rows == [] then [] else (if p(rows[0]) then [rows[0]] else []) + Keep(rows[1..], p)
  }

  /** `a` is `b` with some elements left out, the rest in their order. */
  predicate IsSubsequence<T(==)>(a: seq<T>, b: seq<T>)
    decreases |b|
  {
    || a == []
    || (b != [] && (IsSubsequence(a, b[1..]) || (a[0] == b[0] && IsSubsequence(a[1..], b[1..]))))
  }

  lemma {:induction false} SubsequenceReflexive<T>(a: seq<T>)
    ensures IsSubsequence(a, a)
  {
    if a != [] {
      SubsequenceReflexive(a[1..]);
    }
  }

  /** Taking a subsequence twice still gives a subsequence. */
  lemma {:induction false} SubsequenceTransitive<T>(a: seq<T>, b: seq<T>, c: seq<T>)
    requires IsSubsequence(a, b) && IsSubsequence(b, c)
    ensures IsSubsequence(a, c)
    decreases |c|
  {
    if a != [] {
      if IsSubsequence(b, c[1..]) {
        SubsequenceTransitive(a, b, c[1..]);
      } else if IsSubsequence(a, b[1..]) {
        SubsequenceTransitive(a, b[1..], c[1..]);
      } else {
        SubsequenceTransitive(a[1..], b[1..], c[1..]);
      }
    }
  }

  /** A filter keeps an order-preserving selection of its input. */
  lemma {:induction false} KeepIsSubsequence<T>(rows: seq<T>, p: T -> bool)
    ensures IsSubsequence(Keep(rows, p), rows)
  {
    if rows != [] {
      KeepIsSubsequence(rows[1..], p);
      var kept := Keep(rows, p);
      if p(rows[0]) {
        assert kept[0] == rows[0] && kept[1..] == Keep(rows[1..], p);
      } else {
        assert kept == Keep(rows[1..], p);
      }
    }
  }

  /** A filter that every row passes keeps every row. */
  lemma {:induction false} KeepAll<T>(rows: seq<T>, p: T -> bool)
    requires forall x :: x in rows ==> p(x)
    ensures Keep(rows, p) == rows
  {
    if rows != [] {
      KeepAll(rows[1..], p);
    }
  }

  // ---------------------------------------------------------------------------
  // The table's filters
  // ---------------------------------------------------------------------------

  predicate IsDoctor(user: Option<User>) {
    user.Some? && user.value.role == "doctor"
  }

  /** `roleFilteredRequests`: a doctor sees the requests assigned to them; anyone else, or no user yet, sees all. */
  function RoleFiltered(rows: seq<LabRequestRow>, user: Option<User>): (r: seq<LabRequestRow>)
    ensures IsDoctor(user) ==> forall x :: x in r ==> x.doctorId == user.value.id
    ensures IsDoctor(user) ==> forall x :: x in rows && x.doctorId == user.value.id ==> x in r
    ensures !IsDoctor(user) ==> r == rows
  {
    if IsDoctor(user) then Keep(rows, (x: LabRequestRow) => x.doctorId == user.value.id) else rows
  }

  /** `matchesSearch`: the query, ignoring case, occurs in the test type, the patient's name or the id. */
  predicate MatchesSearch(row: LabRequestRow, query: string) {
    var q := ToLower(query);
    || Includes(ToLower(row.testType), q)
    || (row.patientName.Some? && Includes(ToLower(row.patientName.value), q))
    || Includes(ToLower(row.id), q)
  }

  /** `matchesStatus` */
  predicate MatchesStatus(row: LabRequestRow, statusFilter: string) {
    statusFilter == "all" || row.status == statusFilter
  }

  /** `filteredRequests` */
  function Visible(rows: seq<LabRequestRow>, user: Option<User>, query: string, statusFilter: string): (r: seq<LabRequestRow>)
    ensures forall x :: x in r <==> x in RoleFiltered(rows, user) && MatchesSearch(x, query) && MatchesStatus(x, statusFilter)
    // what is shown keeps the order it was fetched in
    ensures IsSubsequence(r, RoleFiltered(rows, user)) && IsSubsequence(r, rows)
  {
    var r := Keep(RoleFiltered(rows, user), (x: LabRequestRow) => MatchesSearch(x, query) && MatchesStatus(x, statusFilter));
    KeepIsSubsequence(RoleFiltered(rows, user), (x: LabRequestRow) => MatchesSearch(x, query) && MatchesStatus(x, statusFilter));
    assert IsSubsequence(RoleFiltered(rows, user), rows) by {
      if IsDoctor(user) {
        KeepIsSubsequence(rows, (x: LabRequestRow) => x.doctorId == user.value.id);
      } else {
        SubsequenceReflexive(rows);
      }
    }
    SubsequenceTransitive(r, RoleFiltered(rows, user), rows);
    r
  }

  /** The empty query and the "all" filter hide nothing: the table shows exactly the role-filtered list. */
  lemma {:induction false} NoFilterShowsAll(rows: seq<LabRequestRow>, user: Option<User>)
    ensures Visible(rows, user, "", "all") == RoleFiltered(rows, user)
  {
    forall x | x in RoleFiltered(rows, user)
      ensures MatchesSearch(x, "") && MatchesStatus(x, "all")
    {
      IncludesEmptyAndSelf(ToLower(x.testType));
    }
    KeepAll(RoleFiltered(rows, user), (x: LabRequestRow) => MatchesSearch(x, "") && MatchesStatus(x, "all"));
  }

  /** The empty query excludes nothing: only the status filter applies. */
  lemma {:induction false} EmptyQueryMatchesEverything(row: LabRequestRow)
    ensures MatchesSearch(row, "")
  {
    IncludesEmptyAndSelf(ToLower(row.testType));
  }

  // ---------------------------------------------------------------------------
  // Row actions
  // ---------------------------------------------------------------------------

  datatype RowAction = ViewResults | SubmitResult | EditOrDelete

  /** The menu of a row: results once completed, otherwise submission for a doctor, edit/delete for anyone else. */
  function ActionFor(row: LabRequestRow, user: Option<User>): (a: RowAction)
    ensures a == ViewResults <==> row.status == "completed"
    ensures a == SubmitResult <==> row.status != "completed" && IsDoctor(user)
    ensures a == EditOrDelete <==> row.status != "completed" && !IsDoctor(user)
  {
    if row.status == "completed" then ViewResults
    else if IsDoctor(user) then SubmitResult
    else EditOrDelete
  }
}
