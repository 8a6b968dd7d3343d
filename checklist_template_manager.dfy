/**
 * The checklist template list: a copy of the checklist table, paged ten at
 * a time, with a delete that is refused while a request type still names
 * the template.
 */
module ChecklistTemplateManager {
  import opened Types
  import opened Collections
  import opened Pagination
  import opened DataStore
  import opened Lookups

  /** The request types whose checklist is the given template. */
  function UsedBy(rts: seq<RequestTypeDefinition>, templateId: string): (r: seq<RequestTypeDefinition>)
    ensures forall k :: 0 <= k < |r| ==> r[k] in rts && r[k].checklistTemplateId == templateId
    ensures forall k :: 0 <= k < |rts| && rts[k].checklistTemplateId == templateId ==> rts[k] in r
  {
    Filter(rts, (rt: RequestTypeDefinition) => rt.checklistTemplateId == templateId)
  }

  /** The guard is a non-empty `UsedBy`: some request type names the template. */
  lemma UsedByNonEmpty(rts: seq<RequestTypeDefinition>, templateId: string)
    ensures |UsedBy(rts, templateId)| > 0 <==> exists k :: 0 <= k < |rts| && rts[k].checklistTemplateId == templateId
  {
    var r := UsedBy(rts, templateId);
    if |r| > 0 {
      assert r[0] in rts;
      var k :| 0 <= k < |rts| && rts[k] == r[0];
    }
  }

  /** `splice(findIndex(...), 1)` on the global table, when the id is found. */
  function WithoutTemplate(cls: seq<ChecklistTemplate>, id: string): (r: seq<ChecklistTemplate>)
    ensures ChecklistIndex(cls, id).None? ==> r == cls
    ensures ChecklistIndex(cls, id).Some? ==> r == RemoveAt(cls, ChecklistIndex(cls, id).value)
  {
    match ChecklistIndex(cls, id)
    case Some(i) => RemoveAt(cls, i)
    case None => cls
  }

  /** The managed copy after the delete: every entry with that id goes. */
  function Remaining(ms: seq<ChecklistTemplate>, id: string): seq<ChecklistTemplate>
  {
    Filter(ms, (t: ChecklistTemplate) => t.id != id)
  }

  /** No entry of the managed copy keeps the id; every other entry stays. */
  lemma RemainingExactly(ms: seq<ChecklistTemplate>, id: string, t: ChecklistTemplate)
    ensures t in Remaining(ms, id) <==> t in ms && t.id != id
  {
  }

  predicate UniqueIds(cls: seq<ChecklistTemplate>)
  {
    forall i, j :: 0 <= i < j < |cls| ==> cls[i].id != cls[j].id
  }

  /**
   * When the list mirrors a table of distinct ids, the filtered list and
   * the spliced table agree, and a lone row deleted from page p > 1 sends
   * the view to the new last page.
   */
  lemma DeleteKeepsMirror(cls: seq<ChecklistTemplate>, id: string, page: int)
    requires UniqueIds(cls) && ChecklistIndex(cls, id).Some?
    ensures Remaining(cls, id) == WithoutTemplate(cls, id)
    ensures UniqueIds(WithoutTemplate(cls, id))
    ensures |PageRows(cls, page)| == 1 && page > 1 ==> PageAfterDelete(cls, page) == TotalPages(|WithoutTemplate(cls, id)|)
  {
    var k := ChecklistIndex(cls, id).value;
    FilterDropsOne(cls, (t: ChecklistTemplate) => t.id != id, k);
    if |PageRows(cls, page)| == 1 && page > 1 {
      PageAfterDeleteLandsOnLastPage(cls, page);
    }
  }

  datatype DeleteOutcome = Blocked(usedBy: seq<RequestTypeDefinition>) | Deleted

  class Manager {
    var managed: seq<ChecklistTemplate>
    var currentPage: int

    /** The effect on mount copies the global table. */
    constructor(st: Store)
      ensures managed == st.checklists && currentPage == 1
    {
      managed := st.checklists;
      currentPage := 1;
    }

    function Shown(): seq<ChecklistTemplate>
      reads this
    {
      PageRows(managed, currentPage)
    }

    method Previous()
      modifies this
      ensures currentPage == PreviousPage(old(currentPage)) && managed == old(managed)
    {
      currentPage := PreviousPage(currentPage);
    }

    method Next()
      modifies this
      ensures currentPage == NextPage(old(currentPage), TotalPages(|managed|)) && managed == old(managed)
    {
      currentPage := NextPage(currentPage, TotalPages(|managed|));
    }

    /**
     * `handleDeleteTemplate`: refused, with the request types that use it,
     * while any request type names the template; otherwise the template
     * leaves the global table and the managed copy, and the page steps back
     * when its last row went.
     */
    method DeleteTemplate(st: Store, template: ChecklistTemplate) returns (outcome: DeleteOutcome)
      modifies st`checklists, this
      ensures outcome.Blocked? <==> |UsedBy(st.requestTypes, template.id)| > 0
      ensures outcome.Blocked? ==> outcome.usedBy == UsedBy(st.requestTypes, template.id)
      ensures outcome.Blocked? ==> unchanged(st) && managed == old(managed) && currentPage == old(currentPage)
      ensures outcome.Deleted? ==> st.checklists == WithoutTemplate(old(st.checklists), template.id)
      ensures outcome.Deleted? ==> managed == Remaining(old(managed), template.id)
      ensures outcome.Deleted? ==> currentPage == PageAfterDelete(old(managed), old(currentPage))
    {
      var usedBy := UsedBy(st.requestTypes, template.id);
      if |usedBy| > 0 {
        return Blocked(usedBy);
      }
      var index := ChecklistIndex(st.checklists, template.id);
      if index.Some? {
        st.checklists := st.checklists[..index.value] + st.checklists[index.value + 1..];
      }
      var shown := PageRows(managed, currentPage);
      managed := Filter(managed, (t: ChecklistTemplate) => t.id != template.id);
      if |shown| == 1 && currentPage > 1 {
        currentPage := currentPage - 1;
      }
      outcome := Deleted;
    }
  }
}
