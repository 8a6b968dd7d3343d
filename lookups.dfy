/**
 * The lookups the handlers share: `find` and `findIndex` by id over the
 * tables, and the checklist a request type names.
 */
module Lookups {
  import opened Types

  /** `find` of a request type by id: the definition at `RequestTypeIndex`, the first with that id; None exactly when no definition has it. */
  function FindRequestType(rts: seq<RequestTypeDefinition>, id: string): (r: Option<RequestTypeDefinition>)
    ensures r.Some? ==> r.value in rts && r.value.id == id
    ensures r.None? <==> forall i :: 0 <= i < |rts| ==> rts[i].id != id
    ensures r.Some? ==> r.value == rts[RequestTypeIndex(rts, id).value]
  {
    if |rts| == 0 then None
    else if rts[0].id == id then Some(rts[0])
    else FindRequestType(rts[1..], id)
  }

  /** `findIndex` of an employee by id: the first index with that id, None for -1. */
  function EmployeeIndex(es: seq<Employee>, id: string): (r: Option<nat>)
    ensures r.Some? ==> r.value < |es| && es[r.value].id == id && forall j :: 0 <= j < r.value ==> es[j].id != id
    ensures r.None? <==> forall j :: 0 <= j < |es| ==> es[j].id != id
  {
    if |es| == 0 then None
    else if es[0].id == id then Some(0)
    else
      match EmployeeIndex(es[1..], id)
      case None => None
      case Some(i) => Some(i + 1)
  }

  /** `findIndex` of a request by id: the first index with that id, None for -1. */
  function RequestIndex(rs: seq<Request>, id: string): (r: Option<nat>)
    ensures r.Some? ==> r.value < |rs| && rs[r.value].id == id && forall j :: 0 <= j < r.value ==> rs[j].id != id
    ensures r.None? <==> forall j :: 0 <= j < |rs| ==> rs[j].id != id
  {
    if |rs| == 0 then None
    else if rs[0].id == id then Some(0)
    else
      match RequestIndex(rs[1..], id)
      case None => None
      case Some(i) => Some(i + 1)
  }

  /** `find` of a user by id: the user at `UserIndex`, the first with that id; None exactly when no user has it. */
  function FindUser(us: seq<User>, id: string): (r: Option<User>)
    ensures r.Some? ==> r.value in us && r.value.id == id
    ensures r.None? <==> forall i :: 0 <= i < |us| ==> us[i].id != id
    ensures r.Some? ==> r.value == us[UserIndex(us, id).value]
  {
    if |us| == 0 then None
    else if us[0].id == id then Some(us[0])
    else FindUser(us[1..], id)
  }

  /** `findIndex` of an employee by NIF: the first index holding it, None for -1. */
  function NifIndex(es: seq<Employee>, nif: string): (r: Option<nat>)
    ensures r.Some? ==> r.value < |es| && es[r.value].nif == nif && forall j :: 0 <= j < r.value ==> es[j].nif != nif
    ensures r.None? <==> forall j :: 0 <= j < |es| ==> es[j].nif != nif
  {
    if |es| == 0 then None
    else if es[0].nif == nif then Some(0)
    else
      match NifIndex(es[1..], nif)
      case None => None
      case Some(i) => Some(i + 1)
  }

  /** `find` of a request by id: the request at `RequestIndex`. */
  function FindRequest(rs: seq<Request>, id: string): (r: Option<Request>)
    ensures r.Some? <==> RequestIndex(rs, id).Some?
    ensures r.Some? ==> r.value == rs[RequestIndex(rs, id).value] && r.value.id == id
  {
    match RequestIndex(rs, id)
    case None => None
    case Some(i) => Some(rs[i])
  }

  /** `find` of an employee by id: the employee at `EmployeeIndex`. */
  function FindEmployee(es: seq<Employee>, id: string): (r: Option<Employee>)
    ensures r.Some? <==> EmployeeIndex(es, id).Some?
    ensures r.Some? ==> r.value == es[EmployeeIndex(es, id).value] && r.value.id == id
  {
    match EmployeeIndex(es, id)
    case None => None
    case Some(i) => Some(es[i])
  }

  /** `find` of the checklist the request type names: the one at `ChecklistIndex`, the first with that id, if any. */
  function ChecklistFor(rtd: RequestTypeDefinition, checklists: seq<ChecklistTemplate>): (r: Option<ChecklistTemplate>)
    ensures r.Some? ==> r.value in checklists && r.value.id == rtd.checklistTemplateId
    ensures r.None? <==> forall i :: 0 <= i < |checklists| ==> checklists[i].id != rtd.checklistTemplateId
    ensures r.Some? ==> r.value == checklists[ChecklistIndex(checklists, rtd.checklistTemplateId).value]
  {
    if |checklists| == 0 then None
    else if checklists[0].id == rtd.checklistTemplateId then Some(checklists[0])
    else ChecklistFor(rtd, checklists[1..])
  }

  function TemplateCount(rtd: RequestTypeDefinition, checklists: seq<ChecklistTemplate>): nat
  {
    match ChecklistFor(rtd, checklists)
    case Some(cl) => |cl.taskTemplates|
    case None => 0
  }

  /** `findIndex` of a checklist template by id: the first index with that id, None for -1. */
  function ChecklistIndex(cls: seq<ChecklistTemplate>, id: string): (r: Option<nat>)
    ensures r.Some? ==> r.value < |cls| && cls[r.value].id == id && forall j :: 0 <= j < r.value ==> cls[j].id != id
    ensures r.None? <==> forall j :: 0 <= j < |cls| ==> cls[j].id != id
  {
    if |cls| == 0 then None
    else if cls[0].id == id then Some(0)
    else
      match ChecklistIndex(cls[1..], id)
      case None => None
      case Some(i) => Some(i + 1)
  }

  /** `findIndex` of a user by id: the first index with that id, None for -1. */
  function UserIndex(us: seq<User>, id: string): (r: Option<nat>)
    ensures r.Some? ==> r.value < |us| && us[r.value].id == id && forall j :: 0 <= j < r.value ==> us[j].id != id
    ensures r.None? <==> forall j :: 0 <= j < |us| ==> us[j].id != id
  {
    if |us| == 0 then None
    else if us[0].id == id then Some(0)
    else
      match UserIndex(us[1..], id)
      case None => None
      case Some(i) => Some(i + 1)
  }

  /** `findIndex` of a department by id: the first index with that id, None for -1. */
  function DepartmentIndex(ds: seq<Department>, id: string): (r: Option<nat>)
    ensures r.Some? ==> r.value < |ds| && ds[r.value].id == id && forall j :: 0 <= j < r.value ==> ds[j].id != id
    ensures r.None? <==> forall j :: 0 <= j < |ds| ==> ds[j].id != id
  {
    if |ds| == 0 then None
    else if ds[0].id == id then Some(0)
    else
      match DepartmentIndex(ds[1..], id)
      case None => None
      case Some(i) => Some(i + 1)
  }

  /** `findIndex` of a system by id: the first index with that id, None for -1. */
  function SystemIndex(ss: seq<System>, id: string): (r: Option<nat>)
    ensures r.Some? ==> r.value < |ss| && ss[r.value].id == id && forall j :: 0 <= j < r.value ==> ss[j].id != id
    ensures r.None? <==> forall j :: 0 <= j < |ss| ==> ss[j].id != id
  {
    if |ss| == 0 then None
    else if ss[0].id == id then Some(0)
    else
      match SystemIndex(ss[1..], id)
      case None => None
      case Some(i) => Some(i + 1)
  }

  /** `findIndex` of an access level by id: the first index with that id, None for -1. */
  function AccessLevelIndex(ls: seq<AccessLevel>, id: string): (r: Option<nat>)
    ensures r.Some? ==> r.value < |ls| && ls[r.value].id == id && forall j :: 0 <= j < r.value ==> ls[j].id != id
    ensures r.None? <==> forall j :: 0 <= j < |ls| ==> ls[j].id != id
  {
    if |ls| == 0 then None
    else if ls[0].id == id then Some(0)
    else
      match AccessLevelIndex(ls[1..], id)
      case None => None
      case Some(i) => Some(i + 1)
  }

  /** `findIndex` of a request type by id: the first index with that id, None for -1. */
  function RequestTypeIndex(rts: seq<RequestTypeDefinition>, id: string): (r: Option<nat>)
    ensures r.Some? ==> r.value < |rts| && rts[r.value].id == id && forall j :: 0 <= j < r.value ==> rts[j].id != id
    ensures r.None? <==> forall j :: 0 <= j < |rts| ==> rts[j].id != id
  {
    if |rts| == 0 then None
    else if rts[0].id == id then Some(0)
    else
      match RequestTypeIndex(rts[1..], id)
      case None => None
      case Some(i) => Some(i + 1)
  }

  /** With distinct ids, looking up the id of the definition at k finds exactly that definition. */
  lemma {:induction false} FindDistinctRequestType(rts: seq<RequestTypeDefinition>, k: nat)
    requires k < |rts|
    requires forall i, j :: 0 <= i < j < |rts| ==> rts[i].id != rts[j].id
    ensures FindRequestType(rts, rts[k].id) == Some(rts[k])
  {
    if k > 0 {
      assert rts[0].id != rts[k].id;
      FindDistinctRequestType(rts[1..], k - 1);
    }
  }
}

