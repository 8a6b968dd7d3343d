/**
 * Transferring a request to another department: the request's assigned
 * department and update time are rewritten in place, its status may be
 * rewritten, and a transfer notice is prepended.
 */
module RequestTransferControls {
  import opened Types
  import opened Constants
  import opened IdGenerator
  import opened DataStore
  import opened Lookups

  const NotificationPrefix: string := "notif_transfer"

  /**
   * The status after the transfer. `shown` is the request as the page
   * rendered it (its type and status decide), `oldDept` the department the
   * table held before the write and `current` the table's status.
   */
  function TransferredStatus(shown: Request, oldDept: Option<string>, selected: string, current: RequestStatus): RequestStatus
  {
    if HandedToHR(shown, oldDept, selected) then PendingHRProcessing
    else if ResetOnTransfer(shown.status) then Pending
    else current
  }

  /** An onboarding request moved from Informàtica to Recursos Humans. */
  predicate HandedToHR(shown: Request, oldDept: Option<string>, selected: string)
  {
    shown.rtype == Onboarding && oldDept == Some(DeptIT) && selected == DeptHR
  }

  /** The two waiting statuses a transfer sends back to pending. */
  predicate ResetOnTransfer(s: RequestStatus)
  {
    s == PendingManagerApproval || s == PendingFinalValidation
  }

  /** The table's record after the three field writes. */
  function Transferred(q: Request, shown: Request, selected: string, now: Timestamp): Request
  {
    q.(assignedDepartment := Some(selected), updatedAt := now,
       status := TransferredStatus(shown, q.assignedDepartment, selected, q.status))
  }

  /**
   * A transfer writes the department and the update time and leaves the
   * type, summary, details, requester and ids alone. An onboarding request
   * moved from Informàtica to Recursos Humans becomes pendingHRProcessing;
   * otherwise a request shown as pending manager approval or final
   * validation goes back to pending, and any other status is kept.
   */
  lemma TransferFields(q: Request, shown: Request, selected: string, now: Timestamp)
    ensures var t := Transferred(q, shown, selected, now);
      && t.assignedDepartment == Some(selected) && t.updatedAt == now
      && t.id == q.id && t.rtype == q.rtype && t.summary == q.summary && t.details == q.details
      && t.requesterId == q.requesterId && t.employeeId == q.employeeId && t.targetEmployeeId == q.targetEmployeeId
      && t.createdAt == q.createdAt && t.requestTypeDefinitionId == q.requestTypeDefinitionId
      && (HandedToHR(shown, q.assignedDepartment, selected) ==> t.status == PendingHRProcessing)
      && (!HandedToHR(shown, q.assignedDepartment, selected) && ResetOnTransfer(shown.status) ==> t.status == Pending)
      && (!HandedToHR(shown, q.assignedDepartment, selected) && !ResetOnTransfer(shown.status) ==> t.status == q.status)
  {
  }

  /** There is no guard for closed requests: a completed onboarding moved from Informàtica to Recursos Humans reopens. */
  lemma CompletedOnboardingReopens(q: Request, selected: string, now: Timestamp)
    requires q.rtype == Onboarding && q.status == Completed && q.assignedDepartment == Some(DeptIT) && selected == DeptHR
    ensures Transferred(q, q, selected, now).status == PendingHRProcessing
    ensures !IsTerminal(Transferred(q, q, selected, now).status)
  {
  }

  /** A transfer never produces a status outside {pendingHRProcessing, pending} unless it keeps the old one. */
  lemma TransferredStatusRange(shown: Request, oldDept: Option<string>, selected: string, current: RequestStatus)
    ensures var s := TransferredStatus(shown, oldDept, selected, current);
      s == PendingHRProcessing || s == Pending || s == current
  {
  }

  function TransferNotification(id: string, shown: Request, oldDept: Option<string>, selected: string, now: Timestamp)
    : NotificationItem
  {
    NotificationItem(id, "Sol·licitud Transferida",
                     "La sol·licitud \"" + StringOr(shown.summary, shown.id) + "\" ha estat transferida de "
                       + StringOr(oldDept, "N/A") + " a " + selected + ".",
                     now, false, Some("/requests/" + shown.id))
  }

  /** Nothing to do: no department selected, or the one the shown request already has. */
  predicate NoChange(shown: Request, selected: string)
  {
    selected == "" || Some(selected) == shown.assignedDepartment
  }

  datatype TransferOutcome = Unchanged | NotFound | Done

  /** The requests table after a transfer of the request with the shown id. */
  function TransferTable(rs: seq<Request>, shown: Request, selected: string, now: Timestamp): seq<Request>
  {
    match RequestIndex(rs, shown.id)
    case Some(i) => rs[i := Transferred(rs[i], shown, selected, now)]
    case None => rs
  }

  /** Only the first request with the shown id changes; every other request is kept. */
  lemma TransferOnlyTarget(rs: seq<Request>, shown: Request, selected: string, now: Timestamp)
    ensures var after := TransferTable(rs, shown, selected, now);
      && |after| == |rs|
      && (RequestIndex(rs, shown.id).None? ==> after == rs)
      && (RequestIndex(rs, shown.id).Some? ==>
            var i := RequestIndex(rs, shown.id).value;
            && after[i] == Transferred(rs[i], shown, selected, now)
            && forall j :: 0 <= j < |rs| && j != i ==> after[j] == rs[j])
  {
  }

  /**
   * `handleTransfer`. An empty or unchanged selection and an unknown
   * request id change nothing; otherwise the request is rewritten and one
   * transfer notice is prepended.
   */
  method HandleTransfer(st: Store, ids: IdGen, shown: Request, selected: string, now: nat)
    returns (outcome: TransferOutcome)
    modifies st`requests, st`notifications, ids
    ensures NoChange(shown, selected) <==> outcome == Unchanged
    ensures !NoChange(shown, selected) && RequestIndex(old(st.requests), shown.id).None? <==> outcome == NotFound
    ensures outcome != Done ==> unchanged(st) && unchanged(ids)
    ensures outcome == Done ==>
      && RequestIndex(old(st.requests), shown.id).Some?
      && var i := RequestIndex(old(st.requests), shown.id).value;
      && st.requests == TransferTable(old(st.requests), shown, selected, now)
      && st.notifications
         == [TransferNotification(MockId(NotificationPrefix, Count(old(ids.counters), NotificationPrefix) + 1, now),
                                  shown, old(st.requests)[i].assignedDepartment, selected, now)]
          + old(st.notifications)
      && Count(ids.counters, NotificationPrefix) == Count(old(ids.counters), NotificationPrefix) + 1
      && OthersKept(old(ids.counters), ids.counters, {NotificationPrefix})
  {
    if selected == "" || Some(selected) == shown.assignedDepartment {
      return Unchanged;
    }
    var i := RequestIndex(st.requests, shown.id);
    if i.None? {
      return NotFound;
    }
    var oldDept := st.requests[i.value].assignedDepartment;
    st.requests := st.requests[i.value := Transferred(st.requests[i.value], shown, selected, now)];
    var id := ids.Next(NotificationPrefix, now);
    st.notifications := [TransferNotification(id, shown, oldDept, selected, now)] + st.notifications;
    outcome := Done;
  }
}
