/**
 * The approvals table: the rows of the current page, the requester names,
 * the approve/reject dialog and the call it makes to the page's
 * `onApprovalAction` callback. The list itself changes no table; resolving
 * an approval is the callback's business and is not part of this model.
 */
module ApprovalList {
  import opened Types
  import opened Pagination
  import opened Lookups

  datatype ActionKind = Approve | Reject

  /** The request status the dialog's action stands for. */
  function RequestStatusFor(kind: ActionKind): (s: RequestStatus)
    ensures s == Approved || s == Rejected
    ensures s == Approved <==> kind == Approve
  {
    if kind == Approve then Approved else Rejected
  }

  /** `user?.name || user?.samAccountName || "N/A"` for the user with that id. */
  function UserName(userId: string, users: seq<User>): (r: string)
    ensures FindUser(users, userId).None? ==> r == "N/A"
    ensures FindUser(users, userId).Some? ==>
      var u := FindUser(users, userId).value;
      && (u.name.Some? && u.name.value != "" ==> r == u.name.value)
      && (!(u.name.Some? && u.name.value != "") && u.samAccountName != "" ==> r == u.samAccountName)
      && (!(u.name.Some? && u.name.value != "") && u.samAccountName == "" ==> r == "N/A")
    ensures r != ""
  {
    match FindUser(users, userId)
    case None => "N/A"
    case Some(u) => StringOr(u.name, if u.samAccountName != "" then u.samAccountName else "N/A")
  }

  /** The type badge of a row. */
  function RequestTypeLabel(t: RequestType): string
  {
    match t
    case Onboarding => "Alta d'Empleat"
    case Offboarding => "Baixa d'Empleat"
    case Access => "Sol·licitud d'Accés"
  }

  datatype Row = Row(approval: Approval, request: Request)

  /** The rendered rows: an approval whose request is not found renders nothing. */
  function Rows(shown: seq<Approval>, requests: seq<Request>): (rows: seq<Row>)
    ensures |rows| <= |shown|
    ensures forall k :: 0 <= k < |rows| ==>
      rows[k].approval in shown && rows[k].request.id == rows[k].approval.requestId
      && FindRequest(requests, rows[k].approval.requestId) == Some(rows[k].request)
  {
    if |shown| == 0 then []
    else
      var rest := Rows(shown[1..], requests);
      match FindRequest(requests, shown[0].requestId)
      case Some(q) => [Row(shown[0], q)] + rest
      case None => rest
  }

  predicate HasRow(rows: seq<Row>, a: Approval)
  {
    exists k :: 0 <= k < |rows| && rows[k].approval == a
  }

  /** A row list with one more row in front has a row for `a` when that row is for `a` or the rest has one. */
  lemma HasRowCons(r: Row, rest: seq<Row>, a: Approval)
    ensures HasRow([r] + rest, a) <==> r.approval == a || HasRow(rest, a)
  {
    var rows := [r] + rest;
    if HasRow(rest, a) {
      var k :| 0 <= k < |rest| && rest[k].approval == a;
      assert rows[k + 1].approval == a;
    }
    if HasRow(rows, a) {
      var k :| 0 <= k < |rows| && rows[k].approval == a;
      if k > 0 {
        assert rest[k - 1].approval == a;
      }
    }
    if r.approval == a {
      assert rows[0].approval == a;
    }
  }

  /** Exactly the approvals whose request exists get a row. */
  lemma {:induction false} RowsExactlyFound(shown: seq<Approval>, requests: seq<Request>, a: Approval)
    ensures HasRow(Rows(shown, requests), a) <==> a in shown && FindRequest(requests, a.requestId).Some?
  {
    if |shown| > 0 {
      RowsExactlyFound(shown[1..], requests, a);
      assert a in shown <==> a == shown[0] || a in shown[1..];
      match FindRequest(requests, shown[0].requestId)
      case Some(q) =>
        HasRowCons(Row(shown[0], q), Rows(shown[1..], requests), a);
      case None =>
    }
  }

  // ---------------------------------------------------------------------
  // The callback call

  /** The approve/reject dialog's subject. */
  datatype ActionDetails = ActionDetails(approval: Approval, request: Request, kind: ActionKind)

  /** The arguments of one `onApprovalAction` call. */
  datatype ApprovalCall = ApprovalCall(
    approvalId: string,
    newApprovalStatus: string,
    requestId: string,
    newRequestStatus: RequestStatus,
    comments: string)

  /** The values the callback's approval-status parameter is declared to take. */
  predicate DeclaredApprovalStatus(s: string)
  {
    s == "approved" || s == "rejected"
  }

  /** The dialog's action kind as a string: the value the handler passes as the approval status. */
  function ActionString(kind: ActionKind): string
  {
    if kind == Approve then "approve" else "reject"
  }

  /** The call as written: the action kind itself goes where an approval status is declared. */
  function CallAsWritten(d: ActionDetails, comment: string): (c: ApprovalCall)
    ensures c.approvalId == d.approval.id && c.requestId == d.request.id && c.comments == comment
    ensures c.newApprovalStatus == "approve" <==> c.newRequestStatus == Approved
    ensures c.newRequestStatus == RequestStatusFor(d.kind)
  {
    ApprovalCall(d.approval.id, ActionString(d.kind), d.request.id, RequestStatusFor(d.kind), comment)
  }

  /** The approval status passed as written is never one the callback declares. */
  lemma AsWrittenStatusUndeclared(d: ActionDetails, comment: string)
    ensures !DeclaredApprovalStatus(CallAsWritten(d, comment).newApprovalStatus)
  {
    var s := CallAsWritten(d, comment).newApprovalStatus;
    assert |s| == 6 || |s| == 7;
    assert s == "approve" || s == "reject";
    assert s[|s| - 1] == 'e' || s[|s| - 1] == 't';
  }

  /** The approval status the declaration asks for. */
  function DecisionString(kind: ActionKind): (s: string)
    ensures DeclaredApprovalStatus(s)
    ensures s == "approved" <==> kind == Approve
  {
    if kind == Approve then "approved" else "rejected"
  }

  /** The corrected call: the approval status is the declared past participle of the action. */
  function Call(d: ActionDetails, comment: string): (c: ApprovalCall)
    ensures c.approvalId == d.approval.id && c.requestId == d.request.id && c.comments == comment
    ensures DeclaredApprovalStatus(c.newApprovalStatus)
    ensures c.newApprovalStatus == "approved" <==> c.newRequestStatus == Approved
    ensures c.newRequestStatus == RequestStatusFor(d.kind)
  {
    ApprovalCall(d.approval.id, DecisionString(d.kind), d.request.id, RequestStatusFor(d.kind), comment)
  }

  /** Both calls agree on everything except the approval status. */
  lemma CallsDifferOnlyInStatus(d: ActionDetails, comment: string)
    ensures CallAsWritten(d, comment).(newApprovalStatus := "") == Call(d, comment).(newApprovalStatus := "")
    ensures CallAsWritten(d, comment) != Call(d, comment)
  {
    AsWrittenStatusUndeclared(d, comment);
  }

  // ---------------------------------------------------------------------
  // Component state

  class ApprovalListView {
    const approvals: seq<Approval>
    var currentPage: int
    var comment: string
    var pending: Option<ActionDetails>

    constructor(approvals: seq<Approval>)
      ensures this.approvals == approvals && currentPage == 1 && comment == "" && pending.None?
    {
      this.approvals := approvals;
      currentPage := 1;
      comment := "";
      pending := None;
    }

    function Shown(): seq<Approval>
      reads this
    {
      PageRows(approvals, currentPage)
    }

    method Previous()
      modifies this
      ensures currentPage == PreviousPage(old(currentPage))
      ensures comment == old(comment) && pending == old(pending)
    {
      currentPage := PreviousPage(currentPage);
    }

    method Next()
      modifies this
      ensures currentPage == NextPage(old(currentPage), TotalPages(|approvals|))
      ensures comment == old(comment) && pending == old(pending)
    {
      currentPage := NextPage(currentPage, TotalPages(|approvals|));
    }

    /** The dialog's text area. */
    method SetComment(text: string)
      modifies this
      ensures comment == text && pending == old(pending) && currentPage == old(currentPage)
    {
      comment := text;
    }

    /** Open the dialog for an action, pre-filling the comment with the approval's own or "". */
    method OpenActionDialog(approval: Approval, request: Request, kind: ActionKind)
      modifies this
      ensures pending == Some(ActionDetails(approval, request, kind))
      ensures comment == StringOr(approval.comments, "")
      ensures currentPage == old(currentPage)
    {
      pending := Some(ActionDetails(approval, request, kind));
      comment := StringOr(approval.comments, "");
    }

    /**
     * Confirm the dialog: without an open dialog nothing happens; otherwise
     * the callback is called once, as written (the action kind in place of
     * the approval status), and the dialog and the comment are reset.
     */
    method ExecuteAction() returns (call: Option<ApprovalCall>)
      modifies this
      ensures old(pending).None? ==> call.None? && pending == old(pending) && comment == old(comment)
      ensures old(pending).Some? ==> call == Some(CallAsWritten(old(pending).value, old(comment))) && pending.None? && comment == ""
      ensures call.Some? ==> !DeclaredApprovalStatus(call.value.newApprovalStatus)
      ensures currentPage == old(currentPage)
    {
      if pending.None? {
        return None;
      }
      AsWrittenStatusUndeclared(pending.value, comment);
      call := Some(CallAsWritten(pending.value, comment));
      pending := None;
      comment := "";
    }
  }
}
