/**
 * The access-level form: a rename in edit mode, and in create mode an
 * append refused whenever the id is already taken. The form invites a
 * blank id to be generated, but the schema as written rejects a blank id.
 */
module AccessLevelForm {
  import opened Types
  import opened DataStore
  import opened Lookups
  import opened IdGenerator

  const AccessLevelPrefix := "alvl"

  datatype AccessLevelInput = AccessLevelInput(id: string, name: string)

  /** A character of `[a-zA-Z0-9_]`. */
  predicate IdChar(c: char)
  {
    ('a' <= c <= 'z') || ('A' <= c <= 'Z') || ('0' <= c <= '9') || c == '_'
  }

  predicate IdChars(s: string)
  {
    forall i :: 0 <= i < |s| ==> IdChar(s[i])
  }

  /** The schema as written: the id is required and matches `^[a-zA-Z0-9_]+$`; the name has at least three characters. */
  predicate ValidInputAsWritten(data: AccessLevelInput)
    ensures ValidInputAsWritten(data) ==> data.id != ""
  {
    |data.id| >= 1 && IdChars(data.id) && |data.name| >= 3
  }

  /**
   * As written, no valid input has a blank id, so the `|| generateMockId`
   * fallback never runs: the id saved is always the one typed.
   */
  lemma BlankIdRejectedAsWritten(name: string, generated: string)
    ensures !ValidInputAsWritten(AccessLevelInput("", name))
    ensures forall data :: ValidInputAsWritten(data) ==> ManualOr(data.id, generated) == data.id
  {
  }

  /** The schema the form's blank-to-generate hint calls for: a blank id, or one matching the pattern; it admits every input the written schema does. */
  predicate ValidInput(data: AccessLevelInput)
    ensures ValidInputAsWritten(data) ==> ValidInput(data)
  {
    (data.id == "" || IdChars(data.id)) && |data.name| >= 3
  }

  /** The two schemas agree on every typed id; they differ only in accepting a blank one. */
  lemma SchemasAgreeOnTypedIds(data: AccessLevelInput)
    ensures data.id != "" ==> (ValidInput(data) <==> ValidInputAsWritten(data))
    ensures data.id == "" ==> (ValidInput(data) <==> |data.name| >= 3) && !ValidInputAsWritten(data)
  {
  }

  datatype SubmitOutcome = InvalidInput | Updated | DuplicateId | Created(id: string)

  /** The access-level table after renaming the level with that id. */
  function Renamed(ls: seq<AccessLevel>, id: string, name: string): seq<AccessLevel>
  {
    match AccessLevelIndex(ls, id)
    case Some(i) => ls[i := ls[i].(name := name)]
    case None => ls
  }

  /** A rename changes only the name of the first level with the id; an unknown id changes nothing. */
  lemma RenameOnlyTarget(ls: seq<AccessLevel>, id: string, name: string)
    ensures var after := Renamed(ls, id, name);
      && |after| == |ls|
      && (AccessLevelIndex(ls, id).None? ==> after == ls)
      && (AccessLevelIndex(ls, id).Some? ==>
            var i := AccessLevelIndex(ls, id).value;
            && after[i] == AccessLevel(id, name)
            && forall j :: 0 <= j < |ls| && j != i ==> after[j] == ls[j])
  {
  }

  predicate IdTaken(ls: seq<AccessLevel>, id: string)
  {
    exists k :: 0 <= k < |ls| && ls[k].id == id
  }

  /** Unlike the other catalogue forms, the id is checked whether it was typed or generated. */
  function CreateOutcome(ls: seq<AccessLevel>, data: AccessLevelInput, generated: string): SubmitOutcome
  {
    var id := ManualOr(data.id, generated);
    if IdTaken(ls, id) then DuplicateId else Created(id)
  }

  function AfterCreate(ls: seq<AccessLevel>, data: AccessLevelInput, generated: string): seq<AccessLevel>
  {
    match CreateOutcome(ls, data, generated)
    case Created(id) => ls + [AccessLevel(id, data.name)]
    case _ => ls
  }

  predicate UniqueIds(ls: seq<AccessLevel>)
  {
    forall i, j :: 0 <= i < j < |ls| ==> ls[i].id != ls[j].id
  }

  /**
   * A taken id is refused and nothing changes; otherwise exactly one level is
   * appended, and distinct ids stay distinct without any condition on where
   * the id came from.
   */
  lemma CreateCases(ls: seq<AccessLevel>, data: AccessLevelInput, generated: string)
    ensures CreateOutcome(ls, data, generated) == DuplicateId <==> IdTaken(ls, ManualOr(data.id, generated))
    ensures CreateOutcome(ls, data, generated) == DuplicateId ==> AfterCreate(ls, data, generated) == ls
    ensures CreateOutcome(ls, data, generated) != DuplicateId ==>
      var after := AfterCreate(ls, data, generated);
      && |after| == |ls| + 1 && after[..|ls|] == ls
      && after[|ls|] == AccessLevel(ManualOr(data.id, generated), data.name)
    ensures UniqueIds(ls) ==> UniqueIds(AfterCreate(ls, data, generated))
  {
    var after := AfterCreate(ls, data, generated);
    if UniqueIds(ls) && CreateOutcome(ls, data, generated).Created? {
      forall i | 0 <= i < |ls|
        ensures after[i].id != after[|ls|].id
      {
        assert after[i] == ls[i];
      }
    }
  }

  /** With the corrected schema a blank id is accepted and the level is created under the generated id. */
  lemma BlankIdGenerates(ls: seq<AccessLevel>, name: string, generated: string)
    requires |name| >= 3 && !IdTaken(ls, generated)
    ensures ValidInput(AccessLevelInput("", name))
    ensures CreateOutcome(ls, AccessLevelInput("", name), generated) == Created(generated)
    ensures AfterCreate(ls, AccessLevelInput("", name), generated) == ls + [AccessLevel(generated, name)]
  {
  }

  /**
   * `onSubmit` with the schema as written: invalid input, a blank id
   * included, changes nothing; editing renames in place; creating keeps the
   * typed id (the `|| generateMockId` fallback never draws a counter), then
   * appends or refuses as `CreateOutcome` says.
   */
  method Submit(st: Store, ids: IdGen, level: Option<AccessLevel>, data: AccessLevelInput, now: nat)
    returns (outcome: SubmitOutcome)
    modifies st`accessLevels, ids
    ensures !ValidInputAsWritten(data) ==> outcome == InvalidInput && st.accessLevels == old(st.accessLevels)
    ensures ValidInputAsWritten(data) && level.Some? ==>
      outcome == Updated && st.accessLevels == Renamed(old(st.accessLevels), level.value.id, data.name)
    ensures ValidInputAsWritten(data) && level.None? ==>
      outcome == CreateOutcome(old(st.accessLevels), data, MockId(AccessLevelPrefix, Count(old(ids.counters), AccessLevelPrefix) + 1, now))
    ensures ValidInputAsWritten(data) && level.None? ==>
      st.accessLevels == AfterCreate(old(st.accessLevels), data, MockId(AccessLevelPrefix, Count(old(ids.counters), AccessLevelPrefix) + 1, now))
    ensures ValidInputAsWritten(data) && level.None? ==>
      (outcome == DuplicateId <==> IdTaken(old(st.accessLevels), data.id))
    ensures ids.counters == old(ids.counters)
  {
    if !ValidInputAsWritten(data) {
      return InvalidInput;
    }
    if level.Some? {
      var index := AccessLevelIndex(st.accessLevels, level.value.id);
      if index.Some? {
        st.accessLevels := st.accessLevels[index.value := st.accessLevels[index.value].(name := data.name)];
      }
      return Updated;
    }
    var id := ids.ManualOrNext(data.id, AccessLevelPrefix, now);
    if exists k :: 0 <= k < |st.accessLevels| && st.accessLevels[k].id == id {
      return DuplicateId;
    }
    st.accessLevels := st.accessLevels + [AccessLevel(id, data.name)];
    outcome := Created(id);
  }
}
