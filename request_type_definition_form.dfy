/**
 * The request-type form: its schema and defaults, an in-place update in edit
 * mode, and in create mode an append under a typed or generated id, refused
 * when a typed id is already taken.
 */
module RequestTypeDefinitionForm {
  import opened Types
  import opened DataStore
  import opened Lookups
  import opened IdGenerator

  const RequestTypePrefix := "rtdef"

  /**
   * The form's values. `appliesTo` comes from a select over the four
   * categories, so it is one of them by construction.
   */
  datatype DefinitionInput = DefinitionInput(
    id: string,
    name: string,
    description: Option<string>,
    appliesTo: AppliesTo,
    checklistTemplateId: string,
    isEnabled: bool)

  /** The schema: a name of at least three characters and a chosen checklist template. */
  predicate ValidInput(data: DefinitionInput)
  {
    |data.name| >= 3 && |data.checklistTemplateId| >= 1
  }

  /** The values the form starts with, for a definition being edited or for a new one. */
  function Defaults(d: Option<RequestTypeDefinition>): (data: DefinitionInput)
    ensures d.None? ==> data.appliesTo == AppliesOther && data.isEnabled && data.id == "" && data.name == ""
    ensures d.Some? ==> data.appliesTo == d.value.appliesTo && data.isEnabled == d.value.isEnabled
    ensures data.description.Some?
  {
    match d
    case None => DefinitionInput("", "", Some(""), AppliesOther, "", true)
    case Some(x) => DefinitionInput(x.id, x.name, Some(StringOr(x.description, "")), x.appliesTo, x.checklistTemplateId, x.isEnabled)
  }

  datatype SubmitOutcome = InvalidInput | Updated | DuplicateId | Created(id: string)

  /** The spread update: every editable field comes from the form; the id stays. */
  function Edited(stored: RequestTypeDefinition, data: DefinitionInput): RequestTypeDefinition
  {
    stored.(name := data.name, description := data.description, appliesTo := data.appliesTo,
      checklistTemplateId := data.checklistTemplateId, isEnabled := data.isEnabled)
  }

  function EditTable(rts: seq<RequestTypeDefinition>, id: string, data: DefinitionInput): seq<RequestTypeDefinition>
  {
    match RequestTypeIndex(rts, id)
    case Some(i) => rts[i := Edited(rts[i], data)]
    case None => rts
  }

  /** Only the first definition with the id changes, to the form's fields under its own id; an unknown id changes nothing. */
  lemma EditOnlyTarget(rts: seq<RequestTypeDefinition>, id: string, data: DefinitionInput)
    ensures var after := EditTable(rts, id, data);
      && |after| == |rts|
      && (RequestTypeIndex(rts, id).None? ==> after == rts)
      && (RequestTypeIndex(rts, id).Some? ==>
            var i := RequestTypeIndex(rts, id).value;
            && after[i] == RequestTypeDefinition(id, data.name, data.description, data.appliesTo,
                 data.checklistTemplateId, data.isEnabled)
            && forall j :: 0 <= j < |rts| && j != i ==> after[j] == rts[j])
  {
  }

  /**
   * Saving an opened definition untouched changes nothing, except that an
   * absent description comes back as an empty one.
   */
  lemma UntouchedEdit(rts: seq<RequestTypeDefinition>, d: RequestTypeDefinition)
    requires RequestTypeIndex(rts, d.id).Some? && rts[RequestTypeIndex(rts, d.id).value] == d
    ensures d.description.None? ==> EditTable(rts, d.id, Defaults(Some(d))) == rts[RequestTypeIndex(rts, d.id).value := d.(description := Some(""))]
    ensures d.description.Some? ==> EditTable(rts, d.id, Defaults(Some(d))) == rts
  {
  }

  predicate IdTaken(rts: seq<RequestTypeDefinition>, id: string)
  {
    exists k :: 0 <= k < |rts| && rts[k].id == id
  }

  /** Only a typed id is checked against the table. */
  function CreateOutcome(rts: seq<RequestTypeDefinition>, data: DefinitionInput, generated: string): SubmitOutcome
  {
    var id := ManualOr(data.id, generated);
    if IdTaken(rts, id) && data.id != "" then DuplicateId else Created(id)
  }

  function NewDefinition(id: string, data: DefinitionInput): RequestTypeDefinition
  {
    RequestTypeDefinition(id, data.name, data.description, data.appliesTo, data.checklistTemplateId, data.isEnabled)
  }

  function AfterCreate(rts: seq<RequestTypeDefinition>, data: DefinitionInput, generated: string): seq<RequestTypeDefinition>
  {
    match CreateOutcome(rts, data, generated)
    case Created(id) => rts + [NewDefinition(id, data)]
    case _ => rts
  }

  /**
   * A typed id already in the table is refused and nothing changes;
   * otherwise exactly one definition carrying the form's fields is appended.
   */
  lemma CreateCases(rts: seq<RequestTypeDefinition>, data: DefinitionInput, generated: string)
    ensures CreateOutcome(rts, data, generated) == DuplicateId <==> data.id != "" && IdTaken(rts, data.id)
    ensures CreateOutcome(rts, data, generated) == DuplicateId ==> AfterCreate(rts, data, generated) == rts
    ensures CreateOutcome(rts, data, generated) != DuplicateId ==>
      var after := AfterCreate(rts, data, generated);
      && |after| == |rts| + 1 && after[..|rts|] == rts
      && after[|rts|].id == (if data.id != "" then data.id else generated)
      && after[|rts|].name == data.name && after[|rts|].checklistTemplateId == data.checklistTemplateId
      && after[|rts|].appliesTo == data.appliesTo && after[|rts|].isEnabled == data.isEnabled
      && after[|rts|].description == data.description
  {
  }

  /**
   * `onSubmit`: invalid input changes nothing; editing updates in place;
   * creating draws an "rtdef" id only when none was typed, then appends or
   * refuses as `CreateOutcome` says.
   */
  method Submit(st: Store, ids: IdGen, definition: Option<RequestTypeDefinition>, data: DefinitionInput, now: nat)
    returns (outcome: SubmitOutcome)
    modifies st`requestTypes, ids
    ensures !ValidInput(data) ==> outcome == InvalidInput && st.requestTypes == old(st.requestTypes)
    ensures !ValidInput(data) || definition.Some? ==> ids.counters == old(ids.counters)
    ensures ValidInput(data) && definition.Some? ==>
      outcome == Updated && st.requestTypes == EditTable(old(st.requestTypes), definition.value.id, data)
    ensures ValidInput(data) && definition.None? ==>
      outcome == CreateOutcome(old(st.requestTypes), data, MockId(RequestTypePrefix, Count(old(ids.counters), RequestTypePrefix) + 1, now))
    ensures ValidInput(data) && definition.None? ==>
      st.requestTypes == AfterCreate(old(st.requestTypes), data, MockId(RequestTypePrefix, Count(old(ids.counters), RequestTypePrefix) + 1, now))
    ensures ValidInput(data) && definition.None? && data.id == "" ==>
      Count(ids.counters, RequestTypePrefix) == Count(old(ids.counters), RequestTypePrefix) + 1
    ensures data.id != "" ==> ids.counters == old(ids.counters)
    ensures OthersKept(old(ids.counters), ids.counters, {RequestTypePrefix})
  {
    if !ValidInput(data) {
      return InvalidInput;
    }
    if definition.Some? {
      var index := RequestTypeIndex(st.requestTypes, definition.value.id);
      if index.Some? {
        st.requestTypes := st.requestTypes[index.value := Edited(st.requestTypes[index.value], data)];
      }
      return Updated;
    }
    var id := ids.ManualOrNext(data.id, RequestTypePrefix, now);
    if data.id != "" && exists k :: 0 <= k < |st.requestTypes| && st.requestTypes[k].id == id {
      return DuplicateId;
    }
    st.requestTypes := st.requestTypes + [NewDefinition(id, data)];
    outcome := Created(id);
  }
}
