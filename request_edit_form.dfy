/**
 * The request edit form: only the summary of an existing request can be
 * changed; saving also stamps the update time, and a request that is no
 * longer in the table is reported instead of saved.
 */
module RequestEditForm {
  import opened Types
  import opened DataStore
  import opened Lookups

  /** The schema: a summary of at least five characters. */
  predicate ValidSummary(summary: string)
  {
    |summary| >= 5
  }

  /** The value the form starts with: the stored summary, or empty. */
  function DefaultSummary(r: Request): (s: string)
    ensures s == "" <==> r.summary.None? || r.summary == Some("")
    ensures s != "" ==> r.summary == Some(s)
  {
    StringOr(r.summary, "")
  }

  /** The read-only caption of a request's category. */
  function TypeLabel(t: RequestType): string
  {
    match t
    case Onboarding => "Alta d'Empleat"
    case Offboarding => "Baixa d'Empleat"
    case Access => "Sol·licitud d'Accés"
  }

  datatype SubmitOutcome = InvalidInput | Saved | NotFound

  /** The requests table after saving a summary for that id at that time. */
  function EditTable(rs: seq<Request>, id: string, summary: string, now: Timestamp): seq<Request>
  {
    match RequestIndex(rs, id)
    case Some(i) => rs[i := rs[i].(summary := Some(summary), updatedAt := now)]
    case None => rs
  }

  /**
   * Only the first request with the id changes, and only in its summary and
   * update time; every other field and every other request is kept.
   */
  lemma EditOnlySummary(rs: seq<Request>, id: string, summary: string, now: Timestamp)
    ensures var after := EditTable(rs, id, summary, now);
      && |after| == |rs|
      && (RequestIndex(rs, id).None? ==> after == rs)
      && (RequestIndex(rs, id).Some? ==>
            var i := RequestIndex(rs, id).value;
            && after[i].summary == Some(summary) && after[i].updatedAt == now
            && after[i].(summary := rs[i].summary, updatedAt := rs[i].updatedAt) == rs[i]
            && forall j :: 0 <= j < |rs| && j != i ==> after[j] == rs[j])
  {
  }

  /** The first request carrying an id is the one `findIndex` returns. */
  lemma IndexOfFirst(rs: seq<Request>, id: string, i: nat)
    requires i < |rs| && rs[i].id == id
    requires forall j :: 0 <= j < i ==> rs[j].id != id
    ensures RequestIndex(rs, id) == Some(i)
  {
  }

  /** Saving again the same summary at the same time changes nothing more. */
  lemma EditIdempotent(rs: seq<Request>, id: string, summary: string, now: Timestamp)
    ensures EditTable(EditTable(rs, id, summary, now), id, summary, now) == EditTable(rs, id, summary, now)
  {
    var after := EditTable(rs, id, summary, now);
    if RequestIndex(rs, id).Some? {
      var i := RequestIndex(rs, id).value;
      IndexOfFirst(after, id, i);
    }
  }

  /** Saving a request's own summary untouched only moves its update time. */
  lemma UntouchedSaveOnlyStamps(rs: seq<Request>, k: nat, now: Timestamp)
    requires k < |rs| && RequestIndex(rs, rs[k].id) == Some(k) && rs[k].summary.Some?
    ensures EditTable(rs, rs[k].id, DefaultSummary(rs[k]), now) == rs[k := rs[k].(updatedAt := now)]
  {
  }

  /**
   * `onSubmit`: an invalid summary changes nothing; a request still in the
   * table gets the new summary and the update time; a missing one is
   * reported and nothing changes.
   */
  method Submit(st: Store, request: Request, summary: string, now: Timestamp) returns (outcome: SubmitOutcome)
    modifies st`requests
    ensures !ValidSummary(summary) ==> outcome == InvalidInput && st.requests == old(st.requests)
    ensures ValidSummary(summary) && RequestIndex(old(st.requests), request.id).None? ==>
      outcome == NotFound && st.requests == old(st.requests)
    ensures ValidSummary(summary) && RequestIndex(old(st.requests), request.id).Some? ==> outcome == Saved
    ensures st.requests == (if ValidSummary(summary) then EditTable(old(st.requests), request.id, summary, now) else old(st.requests))
  {
    if !ValidSummary(summary) {
      return InvalidInput;
    }
    var index := RequestIndex(st.requests, request.id);
    if index.None? {
      return NotFound;
    }
    var i := index.value;
    st.requests := st.requests[i := st.requests[i].(summary := Some(summary), updatedAt := now)];
    outcome := Saved;
  }
}
