/**
 * The department form: a rename in edit mode, and in create mode an append
 * under a typed or generated id, refused when a typed id is already taken.
 */
module DepartmentForm {
  import opened Types
  import opened Collections
  import opened DataStore
  import opened Lookups
  import opened IdGenerator

  const DepartmentPrefix := "dept"

  datatype DepartmentInput = DepartmentInput(id: string, name: string)

  /** The schema: the id is free text and may be empty; the name has at least three characters. */
  predicate ValidInput(data: DepartmentInput)
  {
    |data.name| >= 3
  }

  datatype SubmitOutcome = InvalidInput | Updated | DuplicateId | Created(id: string)

  // ---------------------------------------------------------------------
  // Edit

  /** The departments table after renaming the department with that id. */
  function Renamed(ds: seq<Department>, id: string, name: string): seq<Department>
  {
    match DepartmentIndex(ds, id)
    case Some(i) => ds[i := ds[i].(name := name)]
    case None => ds
  }

  /** A rename changes only the name of the first department with the id; an unknown id changes nothing. */
  lemma RenameOnlyTarget(ds: seq<Department>, id: string, name: string)
    ensures var after := Renamed(ds, id, name);
      && |after| == |ds|
      && (DepartmentIndex(ds, id).None? ==> after == ds)
      && (DepartmentIndex(ds, id).Some? ==>
            var i := DepartmentIndex(ds, id).value;
            && after[i] == Department(id, name)
            && forall j :: 0 <= j < |ds| && j != i ==> after[j] == ds[j])
  {
  }

  // ---------------------------------------------------------------------
  // Create

  predicate IdTaken(ds: seq<Department>, id: string)
  {
    exists k :: 0 <= k < |ds| && ds[k].id == id
  }

  /** Only a typed id is checked against the table; a generated one is used as it comes. */
  function CreateOutcome(ds: seq<Department>, data: DepartmentInput, generated: string): SubmitOutcome
  {
    var id := ManualOr(data.id, generated);
    if IdTaken(ds, id) && data.id != "" then DuplicateId else Created(id)
  }

  function AfterCreate(ds: seq<Department>, data: DepartmentInput, generated: string): seq<Department>
  {
    match CreateOutcome(ds, data, generated)
    case Created(id) => ds + [Department(id, data.name)]
    case _ => ds
  }

  /**
   * A typed id already in the table is refused and nothing changes;
   * otherwise exactly one department, with the typed or generated id and the
   * typed name, is appended.
   */
  lemma CreateCases(ds: seq<Department>, data: DepartmentInput, generated: string)
    ensures CreateOutcome(ds, data, generated) == DuplicateId <==> data.id != "" && IdTaken(ds, data.id)
    ensures CreateOutcome(ds, data, generated) == DuplicateId ==> AfterCreate(ds, data, generated) == ds
    ensures CreateOutcome(ds, data, generated) != DuplicateId ==>
      var after := AfterCreate(ds, data, generated);
      && |after| == |ds| + 1 && after[..|ds|] == ds
      && after[|ds|] == Department(if data.id != "" then data.id else generated, data.name)
  {
  }

  predicate UniqueIds(ds: seq<Department>)
  {
    forall i, j :: 0 <= i < j < |ds| ==> ds[i].id != ds[j].id
  }

  /** Distinct ids stay distinct when the id is typed, or when the generated one is not yet taken. */
  lemma CreateKeepsIdsUnique(ds: seq<Department>, data: DepartmentInput, generated: string)
    requires UniqueIds(ds)
    requires data.id != "" || !IdTaken(ds, generated)
    ensures UniqueIds(AfterCreate(ds, data, generated))
  {
    var after := AfterCreate(ds, data, generated);
    if CreateOutcome(ds, data, generated).Created? {
      forall i | 0 <= i < |ds|
        ensures after[i].id != after[|ds|].id
      {
        assert after[i] == ds[i];
      }
    }
  }

  /** A generated id is never checked: a collision with an existing department is appended all the same. */
  lemma GeneratedIdUnchecked(ds: seq<Department>, name: string, generated: string)
    requires IdTaken(ds, generated)
    ensures CreateOutcome(ds, DepartmentInput("", name), generated) == Created(generated)
    ensures !UniqueIds(AfterCreate(ds, DepartmentInput("", name), generated))
  {
    var k :| 0 <= k < |ds| && ds[k].id == generated;
    var after := AfterCreate(ds, DepartmentInput("", name), generated);
    assert after[k].id == after[|ds|].id;
  }

  // ---------------------------------------------------------------------
  // Submit

  /**
   * `onSubmit`: invalid input changes nothing; editing renames in place;
   * creating draws a "dept" id only when none was typed, then appends or
   * refuses as `CreateOutcome` says.
   */
  method Submit(st: Store, ids: IdGen, department: Option<Department>, data: DepartmentInput, now: nat)
    returns (outcome: SubmitOutcome)
    modifies st`departments, ids
    ensures !ValidInput(data) ==> outcome == InvalidInput && st.departments == old(st.departments)
    ensures !ValidInput(data) || department.Some? ==> ids.counters == old(ids.counters)
    ensures ValidInput(data) && department.Some? ==>
      outcome == Updated && st.departments == Renamed(old(st.departments), department.value.id, data.name)
    ensures ValidInput(data) && department.None? ==>
      outcome == CreateOutcome(old(st.departments), data, MockId(DepartmentPrefix, Count(old(ids.counters), DepartmentPrefix) + 1, now))
    ensures ValidInput(data) && department.None? ==>
      st.departments == AfterCreate(old(st.departments), data, MockId(DepartmentPrefix, Count(old(ids.counters), DepartmentPrefix) + 1, now))
    ensures ValidInput(data) && department.None? && data.id == "" ==>
      Count(ids.counters, DepartmentPrefix) == Count(old(ids.counters), DepartmentPrefix) + 1
    ensures data.id != "" ==> ids.counters == old(ids.counters)
    ensures OthersKept(old(ids.counters), ids.counters, {DepartmentPrefix})
  {
    if !ValidInput(data) {
      return InvalidInput;
    }
    if department.Some? {
      var index := DepartmentIndex(st.departments, department.value.id);
      if index.Some? {
        st.departments := st.departments[index.value := st.departments[index.value].(name := data.name)];
      }
      return Updated;
    }
    var id := ids.ManualOrNext(data.id, DepartmentPrefix, now);
    if data.id != "" && exists k :: 0 <= k < |st.departments| && st.departments[k].id == id {
      return DuplicateId;
    }
    st.departments := st.departments + [Department(id, data.name)];
    outcome := Created(id);
  }
}
