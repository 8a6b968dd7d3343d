/**
 * The request list: the requests newest first, ten to a page, with the
 * affected employee, the requester, the category and a status badge in
 * every row.
 */
module RequestList {
  import opened Types
  import opened Collections
  import opened Lookups
  import opened Pagination

  // ---------------------------------------------------------------------
  // Newest first

  /** Each request was created no earlier than the one after it. */
  predicate NewestFirst(rs: seq<Request>)
  {
    forall i :: 0 < i < |rs| ==> rs[i - 1].createdAt >= rs[i].createdAt
  }

  /** Neighbourwise descending means descending: no request is older than a later one. */
  lemma {:induction false} NewestFirstPairs(rs: seq<Request>, i: nat, j: nat)
    requires NewestFirst(rs) && i <= j < |rs|
    ensures rs[i].createdAt >= rs[j].createdAt
  {
    if i < j {
      NewestFirstPairs(rs, i, j - 1);
    }
  }

  /** Insert a request after every request not older than it: the step of a stable sort on `b - a`. */
  function InsertNewest(r: Request, s: seq<Request>): (out: seq<Request>)
    requires NewestFirst(s)
    ensures NewestFirst(out) && |out| == |s| + 1
    ensures out[|out| - 1] == r || (|s| > 0 && out[|out| - 1] == s[|s| - 1])
  {
    if |s| == 0 then [r]
    else if s[|s| - 1].createdAt >= r.createdAt then s + [r]
    else
      var front := InsertNewest(r, s[..|s| - 1]);
      assert front[|front| - 1].createdAt >= s[|s| - 1].createdAt by {
        if |s| > 1 && front[|front| - 1] != r {
          assert s[|s| - 2].createdAt >= s[|s| - 1].createdAt;
        }
      }
      front + [s[|s| - 1]]
  }

  /** Inserting adds exactly the one request. */
  lemma {:induction false} InsertNewestPerm(r: Request, s: seq<Request>)
    requires NewestFirst(s)
    ensures multiset(InsertNewest(r, s)) == multiset(s) + multiset{r}
  {
    if |s| > 0 && s[|s| - 1].createdAt < r.createdAt {
      InsertNewestPerm(r, s[..|s| - 1]);
      assert s == s[..|s| - 1] + [s[|s| - 1]];
    }
  }

  /** `[...requests].sort((a, b) => b.createdAt - a.createdAt)`, stable as the language's sort is. */
  function SortNewestFirst(rs: seq<Request>): (out: seq<Request>)
    ensures NewestFirst(out) && |out| == |rs|
  {
    if |rs| == 0 then []
    else InsertNewest(rs[|rs| - 1], SortNewestFirst(rs[..|rs| - 1]))
  }

  /** The sorted list holds exactly the requests it was given. */
  lemma {:induction false} SortNewestFirstPerm(rs: seq<Request>)
    ensures multiset(SortNewestFirst(rs)) == multiset(rs)
  {
    if |rs| > 0 {
      SortNewestFirstPerm(rs[..|rs| - 1]);
      InsertNewestPerm(rs[|rs| - 1], SortNewestFirst(rs[..|rs| - 1]));
      assert rs == rs[..|rs| - 1] + [rs[|rs| - 1]];
    }
  }

  /** A list already newest first is shown in its own order. */
  lemma {:induction false} SortKeepsNewestFirst(rs: seq<Request>)
    requires NewestFirst(rs)
    ensures SortNewestFirst(rs) == rs
  {
    if |rs| > 0 {
      var front := rs[..|rs| - 1];
      assert NewestFirst(front);
      SortKeepsNewestFirst(front);
      assert rs == front + [rs[|rs| - 1]];
    }
  }

  /** The rows of a page: the page's slice of the sorted list. */
  function DisplayedRows(rs: seq<Request>, page: int): seq<Request>
  {
    PageRows(SortNewestFirst(rs), page)
  }

  /** A page holds at most ten rows, newest first. */
  lemma DisplayedRowsSorted(rs: seq<Request>, page: int)
    requires page >= 1
    ensures |DisplayedRows(rs, page)| <= ItemsPerPage && NewestFirst(DisplayedRows(rs, page))
  {
    var sorted := SortNewestFirst(rs);
    var rows := DisplayedRows(rs, page);
    var start := (page - 1) * ItemsPerPage;
    PageRowsShape(sorted, page);
    forall k | 0 < k < |rows|
      ensures rows[k - 1].createdAt >= rows[k].createdAt
    {
      assert rows[k - 1] == sorted[start + k - 1];
    }
  }

  /** Every row shown is one of the requests given. */
  lemma DisplayedRowsFromInput(rs: seq<Request>, page: int)
    requires page >= 1
    ensures forall k :: 0 <= k < |DisplayedRows(rs, page)| ==> DisplayedRows(rs, page)[k] in multiset(rs)
  {
    var sorted := SortNewestFirst(rs);
    var rows := DisplayedRows(rs, page);
    var start := (page - 1) * ItemsPerPage;
    PageRowsShape(sorted, page);
    SortNewestFirstPerm(rs);
    forall k | 0 <= k < |rows|
      ensures rows[k] in multiset(rs)
    {
      assert rows[k] == sorted[start + k];
      assert rows[k] in multiset(sorted);
    }
  }

  /** The pages up to the total show the whole sorted list, which holds each request as often as the input does. */
  lemma PagesShowEveryRequest(rs: seq<Request>)
    ensures PagesUpTo(SortNewestFirst(rs), TotalPages(|rs|)) == SortNewestFirst(rs)
    ensures multiset(SortNewestFirst(rs)) == multiset(rs)
  {
    PagesCoverList(SortNewestFirst(rs));
    SortNewestFirstPerm(rs);
  }

  // ---------------------------------------------------------------------
  // Cells

  /**
   * `getEmployeeName`: "N/A" without an id, the employee's full name when
   * there is one, and "ID: " and the id otherwise.
   */
  function EmployeeName(id: Option<string>, es: seq<Employee>): (r: string)
    ensures r != ""
    ensures id.None? || id.value == "" ==> r == "N/A"
    ensures id.Some? && id.value != "" ==>
      r == "ID: " + id.value || (EmployeeIndex(es, id.value).Some? && r == es[EmployeeIndex(es, id.value).value].fullName)
    ensures id.Some? && id.value != "" && EmployeeIndex(es, id.value).Some? && es[EmployeeIndex(es, id.value).value].fullName != "" ==>
      r == es[EmployeeIndex(es, id.value).value].fullName
  {
    if id.None? || id.value == "" then "N/A"
    else match FindEmployee(es, id.value)
      case Some(e) => if e.fullName != "" then e.fullName else "ID: " + id.value
      case None => "ID: " + id.value
  }

  /**
   * `request.employeeId || request.targetEmployeeId`: the onboarding or
   * offboarding employee, else the employee an access request targets.
   */
  function AffectedEmployeeId(r: Request): (id: Option<string>)
    ensures id == r.employeeId || id == r.targetEmployeeId
    ensures r.employeeId.Some? && r.employeeId.value != "" ==> id == r.employeeId
    ensures !(r.employeeId.Some? && r.employeeId.value != "") ==> id == r.targetEmployeeId
    ensures id.None? || id.value == "" ==> r.employeeId.None? || r.employeeId.value == ""
  {
    if r.employeeId.Some? && r.employeeId.value != "" then r.employeeId else r.targetEmployeeId
  }

  /** An access request for an existing employee names only its target, so that is who the row shows. */
  lemma AccessRequestShowsTarget(r: Request, es: seq<Employee>, e: Employee)
    requires r.employeeId.None? && r.targetEmployeeId == Some(e.id) && e.id != ""
    requires FindEmployee(es, e.id) == Some(e) && e.fullName != ""
    ensures EmployeeName(AffectedEmployeeId(r), es) == e.fullName
  {
  }

  /** The requester cell as written: the requester's user id is looked up among the employees. */
  function RequesterCellAsWritten(r: Request, es: seq<Employee>): string
  {
    EmployeeName(Some(r.requesterId), es)
  }

  /**
   * Requester ids are user ids, which no employee carries in the fixtures:
   * the cell then shows the raw id even when the user has a name.
   */
  lemma RequesterShownAsRawId(r: Request, es: seq<Employee>)
    requires r.requesterId != ""
    requires forall k :: 0 <= k < |es| ==> es[k].id != r.requesterId
    ensures RequesterCellAsWritten(r, es) == "ID: " + r.requesterId
  {
  }

  /** A concrete row: Anna Puig's employee record is "emp_001", her user "user_001". */
  lemma RequesterOfSampleRow()
    ensures RequesterCellAsWritten(
      Request("REQ009", Access, None, Some("emp_001"), None, "user_001", Pending, 0, 0, None, None, NoDetails),
      [Employee("emp_001", "Anna Puig", "12345678A", "Informàtica", "Desenvolupador/a", Active, None, None)])
      == "ID: user_001"
  {
    RequesterShownAsRawId(
      Request("REQ009", Access, None, Some("emp_001"), None, "user_001", Pending, 0, 0, None, None, NoDetails),
      [Employee("emp_001", "Anna Puig", "12345678A", "Informàtica", "Desenvolupador/a", Active, None, None)]);
  }

  /** The requester cell looked up where the id lives: the user's name, else login, else "ID: " and the id. */
  function RequesterCell(r: Request, us: seq<User>): (cell: string)
    ensures FindUser(us, r.requesterId).None? ==> cell == "ID: " + r.requesterId
    ensures FindUser(us, r.requesterId).Some? ==>
      var u := FindUser(us, r.requesterId).value;
      cell == (if u.name.Some? && u.name.value != "" then u.name.value
               else if u.samAccountName != "" then u.samAccountName else "ID: " + r.requesterId)
  {
    match FindUser(us, r.requesterId)
    case None => "ID: " + r.requesterId
    case Some(u) => StringOr(u.name, if u.samAccountName != "" then u.samAccountName else "ID: " + r.requesterId)
  }

  /** With the lookup among users, a named requester is shown by name. */
  lemma RequesterShownByName(r: Request, us: seq<User>, u: User)
    requires FindUser(us, r.requesterId) == Some(u) && u.name.Some? && u.name.value != ""
    ensures RequesterCell(r, us) == u.name.value
  {
  }

  /** The category column. */
  function TypeCell(t: RequestType): string
  {
    match t
    case Onboarding => "Alta"
    case Offboarding => "Baixa"
    case Access => "Accés"
  }

  // ---------------------------------------------------------------------
  // Status badge

  datatype BadgeVariant = DefaultBadge | SecondaryBadge | DestructiveBadge

  function StatusVariant(s: RequestStatus): BadgeVariant
  {
    match s
    case Approved => DefaultBadge
    case Completed => DefaultBadge
    case Rejected => DestructiveBadge
    case Cancelled => DestructiveBadge
    case _ => SecondaryBadge
  }

  /** Approved and completed requests get the plain badge, rejected and cancelled the destructive one, every other status the secondary one. */
  lemma VariantCases(s: RequestStatus)
    ensures StatusVariant(s) == DefaultBadge <==> s == Approved || s == Completed
    ensures StatusVariant(s) == DestructiveBadge <==> s == Rejected || s == Cancelled
    ensures StatusVariant(s) == SecondaryBadge <==> !(s in {Approved, Completed, Rejected, Cancelled})
    ensures StatusVariant(s) == DestructiveBadge ==> IsTerminal(s)
  {
  }

  /** The badge colours `getStatusColorClass` picks from. */
  datatype BadgeColor = Green | Red | Yellow | Blue | Orange | Purple

  function StatusColor(s: RequestStatus): BadgeColor
  {
    match s
    case Approved => Green
    case Completed => Green
    case Rejected => Red
    case Cancelled => Red
    case Pending => Yellow
    case InProgress => Blue
    case PendingHRProcessing => Blue
    case PendingITProcessing => Blue
    case PendingManagerApproval => Orange
    case PendingFinalValidation => Purple
  }

  /** The classes drawn for each colour. */
  function ColorClasses(c: BadgeColor): string
  {
    match c
    case Green => "bg-green-500/20 text-green-700 border-green-400"
    case Red => "bg-red-500/20 text-red-700 border-red-400"
    case Yellow => "bg-yellow-500/20 text-yellow-700 border-yellow-400"
    case Blue => "bg-blue-500/20 text-blue-700 border-blue-400"
    case Orange => "bg-orange-500/20 text-orange-700 border-orange-400"
    case Purple => "bg-purple-500/20 text-purple-700 border-purple-400"
  }

  /** The colour agrees with the variant: green exactly for the plain badge, red exactly for the destructive one. */
  lemma ColorMatchesVariant(s: RequestStatus)
    ensures StatusVariant(s) == DefaultBadge <==> StatusColor(s) == Green
    ensures StatusVariant(s) == DestructiveBadge <==> StatusColor(s) == Red
  {
  }

  /** `formatStatusForDisplay`: every status has its own label. */
  function StatusLabel(s: RequestStatus): string
  {
    match s
    case Pending => "Pendent"
    case PendingManagerApproval => "Pendent Aprov. Gestor"
    case PendingHRProcessing => "Pendent RRHH"
    case PendingITProcessing => "Pendent IT"
    case PendingFinalValidation => "Pendent Valid. Final"
    case InProgress => "En Curs"
    case Approved => "Aprovada"
    case Rejected => "Rebutjada"
    case Completed => "Completada"
    case Cancelled => "Cancel·lada"
  }

  // ---------------------------------------------------------------------
  // Page state

  class View {
    var currentPage: int

    constructor ()
      ensures currentPage == 1
    {
      currentPage := 1;
    }

    method Previous()
      modifies this
      ensures currentPage == PreviousPage(old(currentPage))
    {
      currentPage := PreviousPage(currentPage);
    }

    method Next(rs: seq<Request>)
      modifies this
      ensures currentPage == NextPage(old(currentPage), TotalPages(|rs|))
    {
      currentPage := NextPage(currentPage, TotalPages(|rs|));
    }
  }
}
