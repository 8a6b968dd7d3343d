/**
 * Submitting an offboarding request: the input schema, the request itself,
 * the deactivation of the leaving employee, one task per checklist template,
 * one revocation task per distinct system the employee was granted, and the
 * creation notice.
 */
module OffboardingRequestForm {
  import opened Types
  import opened Text
  import opened Collections
  import opened Constants
  import opened IdGenerator
  import opened DataStore
  import opened Lookups

  // ---------------------------------------------------------------------
  // Schema

  /** `lastDay` is a required date picker value; it is None while unset. */
  datatype OffboardingInput = OffboardingInput(
    targetEmployeeId: string,
    requestTypeDefinitionId: string,
    lastDay: Option<Timestamp>,
    reason: string)

  /** Both ids present, a last day chosen and a reason of at least 10 characters. */
  predicate ValidInput(data: OffboardingInput)
  {
    |data.targetEmployeeId| >= 1 && |data.requestTypeDefinitionId| >= 1 && data.lastDay.Some? && |data.reason| >= 10
  }

  /** The id prefixes of the records an offboarding submission creates. */
  const RequestPrefix: string := "req_off"
  const TemplateTaskPrefix: string := "task_off_tpl"
  const RevocationPrefix: string := "task_off_revk"
  const NotificationPrefix: string := "notif_off"

  const OffboardingPrefixes: set<string> := {RequestPrefix, TemplateTaskPrefix, RevocationPrefix, NotificationPrefix}

  lemma PrefixesDistinct()
    ensures RequestPrefix != TemplateTaskPrefix && RequestPrefix != RevocationPrefix && RequestPrefix != NotificationPrefix
    ensures TemplateTaskPrefix != RevocationPrefix && TemplateTaskPrefix != NotificationPrefix
    ensures RevocationPrefix != NotificationPrefix
  {
    assert |RequestPrefix| == 7 && |TemplateTaskPrefix| == 12;
    assert |RevocationPrefix| == 13 && |NotificationPrefix| == 9;
  }

  // ---------------------------------------------------------------------
  // The request and the employee

  function NewRequest(id: string, data: OffboardingInput, requester: User, rtd: RequestTypeDefinition,
                      emp: Employee, lastDay: Timestamp, now: Timestamp): Request
  {
    Request(
      id, Offboarding, Some(rtd.id), Some(data.targetEmployeeId), None, requester.id, Pending, now, now,
      Some(rtd.name + " per a " + emp.fullName), Some(DeptHR),
      NoDetails.(lastDay := Some(lastDay), reason := Some(data.reason), employeeFullName := Some(emp.fullName)))
  }

  /** The new request: type offboarding, pending, for the target employee, assigned to Recursos Humans. */
  lemma NewRequestShape(id: string, data: OffboardingInput, requester: User, rtd: RequestTypeDefinition,
                        emp: Employee, lastDay: Timestamp, now: Timestamp)
    ensures var q := NewRequest(id, data, requester, rtd, emp, lastDay, now);
      && q.id == id && q.rtype == Offboarding && q.status == Pending
      && q.employeeId == Some(data.targetEmployeeId) && q.targetEmployeeId.None?
      && q.assignedDepartment == Some(DeptHR) && q.requesterId == requester.id
      && q.details.lastDay == Some(lastDay) && q.details.reason == Some(data.reason)
      && q.details.requestedAccesses.None?
  {
  }

  function Deactivated(e: Employee, requestId: string): Employee
  {
    e.(status := Inactive, offboardingRequestId := Some(requestId))
  }

  /** The employees table after the handler marks the employee with that id (when found) as leaving. */
  function Deactivate(es: seq<Employee>, id: string, requestId: string): seq<Employee>
  {
    match EmployeeIndex(es, id)
    case Some(i) => es[i := Deactivated(es[i], requestId)]
    case None => es
  }

  /**
   * Only the first employee with that id changes: it becomes inactive and
   * records the offboarding request; all its other fields, and every other
   * employee, stay as they were. An unknown id changes nothing.
   */
  lemma DeactivateOnlyTarget(es: seq<Employee>, id: string, requestId: string)
    ensures var after := Deactivate(es, id, requestId);
      && |after| == |es|
      && (EmployeeIndex(es, id).None? ==> after == es)
      && (EmployeeIndex(es, id).Some? ==>
            var i := EmployeeIndex(es, id).value;
            && after[i].status == Inactive && after[i].offboardingRequestId == Some(requestId)
            && after[i].id == es[i].id && after[i].fullName == es[i].fullName && after[i].nif == es[i].nif
            && after[i].department == es[i].department && after[i].role == es[i].role
            && after[i].onboardingRequestId == es[i].onboardingRequestId
            && forall j :: 0 <= j < |es| && j != i ==> after[j] == es[j])
  {
  }

  method DeactivateEmployee(st: Store, id: string, requestId: string)
    modifies st`employees
    ensures st.employees == Deactivate(old(st.employees), id, requestId)
  {
    var i := EmployeeIndex(st.employees, id);
    if i.Some? {
      st.employees := st.employees[i.value := Deactivated(st.employees[i.value], requestId)];
    }
  }

  // ---------------------------------------------------------------------
  // Template tasks

  function TemplateTask(id: string, requestId: string, cl: ChecklistTemplate, k: nat, emp: Employee,
                        lastDay: Timestamp, now: Timestamp): Task
    requires k < |cl.taskTemplates|
  {
    var t := cl.taskTemplates[k];
    Task(
      id, requestId, Some(cl.id), Some(t.id), t.title + " (Sol: " + requestId + ") per a " + emp.fullName,
      t.description, t.assigneeDepartment, None, TaskPending, None, now, now,
      Some(lastDay), Some(EffectiveOrder(t.order, k)), Some(lastDay))
  }

  /** The tasks of the first k templates, numbering ids from `first`. */
  function TemplateTasks(cl: ChecklistTemplate, k: nat, requestId: string, emp: Employee, lastDay: Timestamp,
                         now: nat, first: nat): (ts: seq<Task>)
    requires k <= |cl.taskTemplates|
    ensures |ts| == k
  {
    if k == 0 then []
    else TemplateTasks(cl, k - 1, requestId, emp, lastDay, now, first)
           + [TemplateTask(MockId(TemplateTaskPrefix, first + k - 1, now), requestId, cl, k - 1, emp, lastDay, now)]
  }

  lemma TemplateTasksSnoc(cl: ChecklistTemplate, k: nat, requestId: string, emp: Employee, lastDay: Timestamp,
                          now: nat, first: nat)
    requires k < |cl.taskTemplates|
    ensures TemplateTasks(cl, k + 1, requestId, emp, lastDay, now, first)
         == TemplateTasks(cl, k, requestId, emp, lastDay, now, first)
          + [TemplateTask(MockId(TemplateTaskPrefix, first + k, now), requestId, cl, k, emp, lastDay, now)]
  {
  }

  /** `lastOrderFromTemplate` once k templates have been processed. */
  function OrderAfter(cl: ChecklistTemplate, k: nat): int
    requires k <= |cl.taskTemplates|
  {
    if k == 0 then 0 else EffectiveOrder(cl.taskTemplates[k - 1].order, k - 1)
  }

  function TemplateTasksFor(cl: Option<ChecklistTemplate>, requestId: string, emp: Employee, lastDay: Timestamp,
                            now: nat, first: nat): seq<Task>
  {
    match cl
    case Some(c) => TemplateTasks(c, |c.taskTemplates|, requestId, emp, lastDay, now, first)
    case None => []
  }

  /** The order the revocation numbering starts after: the last template's order, or 0. */
  function LastOrder(cl: Option<ChecklistTemplate>): int
  {
    match cl
    case Some(c) => OrderAfter(c, |c.taskTemplates|)
    case None => 0
  }

  lemma {:induction false} TemplateTasksAt(cl: ChecklistTemplate, k: nat, requestId: string, emp: Employee,
                                          lastDay: Timestamp, now: nat, first: nat, j: nat)
    requires j < k <= |cl.taskTemplates|
    ensures TemplateTasks(cl, k, requestId, emp, lastDay, now, first)[j]
         == TemplateTask(MockId(TemplateTaskPrefix, first + j, now), requestId, cl, j, emp, lastDay, now)
  {
    var prev := TemplateTasks(cl, k - 1, requestId, emp, lastDay, now, first);
    var last := TemplateTask(MockId(TemplateTaskPrefix, first + k - 1, now), requestId, cl, k - 1, emp, lastDay, now);
    assert TemplateTasks(cl, k, requestId, emp, lastDay, now, first) == prev + [last];
    if j < k - 1 {
      TemplateTasksAt(cl, k - 1, requestId, emp, lastDay, now, first, j);
    }
  }

  /**
   * One pending task per template, in template order: visible from and due
   * on the last day, ordered by the template's order (or its position when
   * that is missing or zero), with the template's department, description
   * and ids.
   */
  lemma TemplateTasksFollowTemplates(cl: ChecklistTemplate, requestId: string, emp: Employee, lastDay: Timestamp,
                                     now: nat, first: nat)
    ensures var ts := TemplateTasks(cl, |cl.taskTemplates|, requestId, emp, lastDay, now, first);
      |ts| == |cl.taskTemplates|
      && forall k :: 0 <= k < |ts| ==>
        && ts[k].status == TaskPending && ts[k].requestId == requestId
        && ts[k].visibleFromDate == Some(lastDay) && ts[k].dueDate == Some(lastDay)
        && ts[k].assigneeDepartment == cl.taskTemplates[k].assigneeDepartment
        && ts[k].description == cl.taskTemplates[k].description
        && ts[k].taskTemplateId == Some(cl.taskTemplates[k].id) && ts[k].checklistTemplateId == Some(cl.id)
        && (cl.taskTemplates[k].order.Some? && cl.taskTemplates[k].order.value != 0 ==> ts[k].order == cl.taskTemplates[k].order)
        && (cl.taskTemplates[k].order.None? || cl.taskTemplates[k].order.value == 0 ==> ts[k].order == Some(k + 1))
        && ts[k].id == MockId(TemplateTaskPrefix, first + k, now)
  {
    forall k | 0 <= k < |cl.taskTemplates| {
      TemplateTasksAt(cl, |cl.taskTemplates|, requestId, emp, lastDay, now, first, k);
    }
  }

  /** Create the tasks of a resolved checklist and report the last template order used. */
  method PushTemplateTasks(st: Store, ids: IdGen, cl: ChecklistTemplate, requestId: string, emp: Employee,
                           lastDay: Timestamp, now: nat) returns (lastOrder: int)
    modifies st`tasks, ids
    ensures st.tasks == old(st.tasks)
      + TemplateTasks(cl, |cl.taskTemplates|, requestId, emp, lastDay, now, Count(old(ids.counters), TemplateTaskPrefix) + 1)
    ensures lastOrder == OrderAfter(cl, |cl.taskTemplates|)
    ensures Count(ids.counters, TemplateTaskPrefix) == Count(old(ids.counters), TemplateTaskPrefix) + |cl.taskTemplates|
    ensures OthersKept(old(ids.counters), ids.counters, {TemplateTaskPrefix})
  {
    ghost var first := Count(ids.counters, TemplateTaskPrefix) + 1;
    ghost var c0 := ids.counters;
    ghost var t0 := st.tasks;
    lastOrder := 0;
    var k := 0;
    while k < |cl.taskTemplates|
      invariant 0 <= k <= |cl.taskTemplates|
      invariant Count(ids.counters, TemplateTaskPrefix) == Count(c0, TemplateTaskPrefix) + k
      invariant OthersKept(c0, ids.counters, {TemplateTaskPrefix})
      invariant st.tasks == t0 + TemplateTasks(cl, k, requestId, emp, lastDay, now, first)
      invariant lastOrder == OrderAfter(cl, k)
    {
      var id := ids.Next(TemplateTaskPrefix, now);
      assert id == MockId(TemplateTaskPrefix, first + k, now);
      lastOrder := EffectiveOrder(cl.taskTemplates[k].order, k);
      ghost var before := TemplateTasks(cl, k, requestId, emp, lastDay, now, first);
      var t := TemplateTask(id, requestId, cl, k, emp, lastDay, now);
      TemplateTasksSnoc(cl, k, requestId, emp, lastDay, now, first);
      AppendSnoc(t0, before, t);
      st.tasks := st.tasks + [t];
      k := k + 1;
    }
  }

  /** The template tasks of the checklist the request type names; none, and order 0, when it is missing. */
  method AttachTemplateTasks(st: Store, ids: IdGen, rtd: RequestTypeDefinition, requestId: string, emp: Employee,
                             lastDay: Timestamp, now: nat, ghost c: map<string, nat>) returns (lastOrder: int)
    requires Count(ids.counters, TemplateTaskPrefix) == Count(c, TemplateTaskPrefix)
    modifies st`tasks, ids
    ensures st.tasks == old(st.tasks)
      + TemplateTasksFor(ChecklistFor(rtd, st.checklists), requestId, emp, lastDay, now, Count(c, TemplateTaskPrefix) + 1)
    ensures lastOrder == LastOrder(ChecklistFor(rtd, st.checklists))
    ensures Count(ids.counters, TemplateTaskPrefix) == Count(c, TemplateTaskPrefix) + TemplateCount(rtd, st.checklists)
    ensures Count(ids.counters, RevocationPrefix) == Count(old(ids.counters), RevocationPrefix)
    ensures OthersKept(old(ids.counters), ids.counters, {TemplateTaskPrefix})
  {
    PrefixesDistinct();
    var cl := ChecklistFor(rtd, st.checklists);
    if cl.Some? {
      lastOrder := PushTemplateTasks(st, ids, cl.value, requestId, emp, lastDay, now);
    } else {
      lastOrder := 0;
      assert st.tasks == old(st.tasks) + [];
    }
  }

  // ---------------------------------------------------------------------
  // Access revocation

  /** A request whose granted systems the offboarding revokes: a completed or approved access request for the employee. */
  predicate Revocable(q: Request, empId: string)
  {
    q.targetEmployeeId == Some(empId) && q.rtype == Access && (q.status == Completed || q.status == Approved)
  }

  function ItemSystems(items: seq<RequestedAccessItem>): (r: seq<string>)
    ensures |r| == |items| && forall i :: 0 <= i < |items| ==> r[i] == items[i].system
  {
    seq(|items|, i requires 0 <= i < |items| => items[i].system)
  }

  /** The systems one request contributes: those of its requested items when it qualifies and lists any. */
  function RequestSystems(q: Request, empId: string): seq<string>
  {
    if Revocable(q, empId) && q.details.requestedAccesses.Some? then ItemSystems(q.details.requestedAccesses.value) else []
  }

  /** Every contributed system name in scan order, repeats included. */
  function AccessSystems(reqs: seq<Request>, empId: string): seq<string>
  {
    if |reqs| == 0 then [] else AccessSystems(reqs[..|reqs| - 1], empId) + RequestSystems(reqs[|reqs| - 1], empId)
  }

  /** The insertion-ordered set the handler fills. */
  function SystemsToRevoke(reqs: seq<Request>, empId: string): seq<string>
  {
    Dedup(AccessSystems(reqs, empId))
  }

  /** A request that grants a system the employee holds. */
  predicate Grants(q: Request, empId: string, s: string)
  {
    Revocable(q, empId) && q.details.requestedAccesses.Some?
      && exists k :: 0 <= k < |q.details.requestedAccesses.value| && q.details.requestedAccesses.value[k].system == s
  }

  lemma {:induction false} AccessSystemsMembers(reqs: seq<Request>, empId: string, s: string)
    ensures s in AccessSystems(reqs, empId) <==> exists i :: 0 <= i < |reqs| && Grants(reqs[i], empId, s)
  {
    if |reqs| > 0 {
      var front := reqs[..|reqs| - 1];
      var q := reqs[|reqs| - 1];
      AccessSystemsMembers(front, empId, s);
      if s in RequestSystems(q, empId) {
        var k :| 0 <= k < |RequestSystems(q, empId)| && RequestSystems(q, empId)[k] == s;
        assert Grants(reqs[|reqs| - 1], empId, s);
      }
      if Grants(q, empId, s) {
        var k :| 0 <= k < |q.details.requestedAccesses.value| && q.details.requestedAccesses.value[k].system == s;
        assert RequestSystems(q, empId)[k] == s;
      }
      if exists i :: 0 <= i < |front| && Grants(front[i], empId, s) {
        var i :| 0 <= i < |front| && Grants(front[i], empId, s);
        assert reqs[i] == front[i];
      }
      if exists i :: 0 <= i < |reqs| && Grants(reqs[i], empId, s) {
        var i :| 0 <= i < |reqs| && Grants(reqs[i], empId, s);
        if i < |front| {
          assert front[i] == reqs[i];
        }
      }
    }
  }

  /**
   * The systems to revoke are exactly the systems named by an item of a
   * completed or approved access request targeting the employee, each once.
   */
  lemma SystemsToRevokeExactly(reqs: seq<Request>, empId: string)
    ensures var sys := SystemsToRevoke(reqs, empId);
      && (forall s :: s in sys <==> exists i :: 0 <= i < |reqs| && Grants(reqs[i], empId, s))
      && (forall a, b :: 0 <= a < b < |sys| ==> sys[a] != sys[b])
  {
    forall s {
      AccessSystemsMembers(reqs, empId, s);
    }
  }

  /** Requests that do not qualify contribute nothing, so appending the new offboarding request changes nothing. */
  lemma AppendUnqualifiedRequest(reqs: seq<Request>, q: Request, empId: string)
    requires !Revocable(q, empId)
    ensures SystemsToRevoke(reqs + [q], empId) == SystemsToRevoke(reqs, empId)
  {
    assert (reqs + [q])[..|reqs|] == reqs;
    assert RequestSystems(q, empId) == [];
    assert AccessSystems(reqs + [q], empId) == AccessSystems(reqs, empId) + [];
    assert AccessSystems(reqs, empId) + [] == AccessSystems(reqs, empId);
  }

  lemma AccessSystemsSnoc(reqs: seq<Request>, empId: string, i: nat)
    requires i < |reqs|
    ensures AccessSystems(reqs[..i + 1], empId) == AccessSystems(reqs[..i], empId) + RequestSystems(reqs[i], empId)
  {
    assert reqs[..i + 1][..i] == reqs[..i];
  }

  /** Add the systems of one request's items to the insertion-ordered set `systems` of the names `done`. */
  method AddItemSystems(systems: seq<string>, ghost done: seq<string>, items: seq<RequestedAccessItem>)
    returns (r: seq<string>)
    requires systems == Dedup(done)
    ensures r == Dedup(done + ItemSystems(items))
  {
    r := systems;
    var j := 0;
    assert ItemSystems(items[..0]) == [];
    assert done + ItemSystems(items[..0]) == done;
    while j < |items|
      invariant 0 <= j <= |items|
      invariant r == Dedup(done + ItemSystems(items[..j]))
    {
      ghost var before := done + ItemSystems(items[..j]);
      assert ItemSystems(items[..j + 1]) == ItemSystems(items[..j]) + [items[j].system];
      assert done + ItemSystems(items[..j + 1]) == before + [items[j].system];
      DedupSnoc(before, items[j].system);
      if items[j].system !in r {
        r := r + [items[j].system];
      }
      j := j + 1;
    }
    assert items[..j] == items;
  }

  /** The Set the handler fills, in insertion order. */
  method CollectSystemsToRevoke(reqs: seq<Request>, empId: string) returns (systems: seq<string>)
    ensures systems == SystemsToRevoke(reqs, empId)
  {
    systems := [];
    var i := 0;
    while i < |reqs|
      invariant 0 <= i <= |reqs|
      invariant systems == Dedup(AccessSystems(reqs[..i], empId))
    {
      AccessSystemsSnoc(reqs, empId, i);
      var q := reqs[i];
      if Revocable(q, empId) && q.details.requestedAccesses.Some? {
        assert RequestSystems(q, empId) == ItemSystems(q.details.requestedAccesses.value);
        assert AccessSystems(reqs[..i + 1], empId)
            == AccessSystems(reqs[..i], empId) + ItemSystems(q.details.requestedAccesses.value);
        systems := AddItemSystems(systems, AccessSystems(reqs[..i], empId), q.details.requestedAccesses.value);
        assert systems == Dedup(AccessSystems(reqs[..i + 1], empId));
      } else {
        assert AccessSystems(reqs[..i + 1], empId) == AccessSystems(reqs[..i], empId) + [];
        assert AccessSystems(reqs[..i + 1], empId) == AccessSystems(reqs[..i], empId);
      }
      i := i + 1;
    }
    assert reqs[..i] == reqs;
  }

  function RevocationTitle(system: string, name: string): string
  {
    "Revocar accés a \"" + system + "\" per a " + name
  }

  function RevocationDescription(system: string, name: string): string
  {
    "Revocar tots els permisos i accessos concedits prèviament al sistema " + system + " per a l'empleat "
      + name + " en procés de baixa."
  }

  function RevocationTask(id: string, requestId: string, system: string, emp: Employee, lastDay: Timestamp,
                          now: Timestamp, order: int): Task
  {
    Task(
      id, requestId, None, None, RevocationTitle(system, emp.fullName),
      Some(RevocationDescription(system, emp.fullName)),
      DeptIT, None, TaskPending, None, now, now, Some(lastDay), Some(order), Some(lastDay))
  }

  /** The revocation tasks of the first n systems, ids numbered from `first`, orders base+1, base+2, … */
  function RevocationTasksUpTo(systems: seq<string>, n: nat, requestId: string, emp: Employee, lastDay: Timestamp,
                               now: nat, first: nat, base: int): (ts: seq<Task>)
    requires n <= |systems|
    ensures |ts| == n
  {
    seq(n, k requires 0 <= k < n => RevocationTaskAt(systems, requestId, emp, lastDay, now, first, base, k))
  }

  /** The revocation task of system k: the (first+k)-th id and order base + k + 1. */
  function RevocationTaskAt(systems: seq<string>, requestId: string, emp: Employee, lastDay: Timestamp,
                            now: nat, first: nat, base: int, k: nat): Task
    requires k < |systems|
  {
    RevocationTask(MockId(RevocationPrefix, first + k, now), requestId, systems[k], emp, lastDay, now, base + k + 1)
  }

  lemma RevocationTasksSnoc(systems: seq<string>, k: nat, requestId: string, emp: Employee, lastDay: Timestamp,
                            now: nat, first: nat, base: int)
    requires k < |systems|
    ensures RevocationTasksUpTo(systems, k + 1, requestId, emp, lastDay, now, first, base)
         == RevocationTasksUpTo(systems, k, requestId, emp, lastDay, now, first, base)
          + [RevocationTaskAt(systems, requestId, emp, lastDay, now, first, base, k)]
  {
  }

  /** One more pushed revocation task extends the pushed prefix by one. */
  lemma RevocationTasksStep(t0: seq<Task>, systems: seq<string>, k: nat, requestId: string, emp: Employee,
                            lastDay: Timestamp, now: nat, first: nat, base: int, order: int)
    requires k < |systems| && order == base + k + 1
    ensures t0 + RevocationTasksUpTo(systems, k, requestId, emp, lastDay, now, first, base)
          + [RevocationTask(MockId(RevocationPrefix, first + k, now), requestId, systems[k], emp, lastDay, now, order)]
         == t0 + RevocationTasksUpTo(systems, k + 1, requestId, emp, lastDay, now, first, base)
  {
    RevocationTasksSnoc(systems, k, requestId, emp, lastDay, now, first, base);
    assert RevocationTaskAt(systems, requestId, emp, lastDay, now, first, base, k)
        == RevocationTask(MockId(RevocationPrefix, first + k, now), requestId, systems[k], emp, lastDay, now, order);
    AppendSnoc(t0, RevocationTasksUpTo(systems, k, requestId, emp, lastDay, now, first, base),
               RevocationTaskAt(systems, requestId, emp, lastDay, now, first, base, k));
  }

  /** One revocation task per system. */
  function RevocationTasks(systems: seq<string>, requestId: string, emp: Employee, lastDay: Timestamp,
                           now: nat, first: nat, base: int): (ts: seq<Task>)
    ensures |ts| == |systems|
  {
    RevocationTasksUpTo(systems, |systems|, requestId, emp, lastDay, now, first, base)
  }

  lemma RevocationTasksAt(systems: seq<string>, n: nat, requestId: string, emp: Employee,
                          lastDay: Timestamp, now: nat, first: nat, base: int, k: nat)
    requires k < n <= |systems|
    ensures RevocationTasksUpTo(systems, n, requestId, emp, lastDay, now, first, base)[k]
         == RevocationTaskAt(systems, requestId, emp, lastDay, now, first, base, k)
  {
  }

  /**
   * Revocation task k is for system k, pending, assigned to Informàtica,
   * visible from and due on the last day, with order base + k + 1.
   */
  lemma RevocationTasksShape(systems: seq<string>, requestId: string, emp: Employee, lastDay: Timestamp,
                             now: nat, first: nat, base: int)
    ensures var ts := RevocationTasks(systems, requestId, emp, lastDay, now, first, base);
      |ts| == |systems|
      && forall k :: 0 <= k < |ts| ==>
        && ts[k].status == TaskPending && ts[k].requestId == requestId && ts[k].assigneeDepartment == DeptIT
        && ts[k].visibleFromDate == Some(lastDay) && ts[k].dueDate == Some(lastDay)
        && ts[k].order == Some(base + k + 1) && ts[k].checklistTemplateId.None?
        && ts[k].id == MockId(RevocationPrefix, first + k, now)
        && ts[k].title == RevocationTitle(systems[k], emp.fullName)
  {
    var ts := RevocationTasks(systems, requestId, emp, lastDay, now, first, base);
    forall k | 0 <= k < |ts|
      ensures && ts[k].status == TaskPending && ts[k].requestId == requestId && ts[k].assigneeDepartment == DeptIT
        && ts[k].visibleFromDate == Some(lastDay) && ts[k].dueDate == Some(lastDay)
        && ts[k].order == Some(base + k + 1) && ts[k].checklistTemplateId.None?
        && ts[k].id == MockId(RevocationPrefix, first + k, now)
        && ts[k].title == RevocationTitle(systems[k], emp.fullName)
    {
      RevocationTasksAt(systems, |systems|, requestId, emp, lastDay, now, first, base, k);
      RevocationTaskAtFields(systems, requestId, emp, lastDay, now, first, base, k);
    }
  }

  /** The fields of revocation task k, before it is placed in the sequence. */
  lemma RevocationTaskAtFields(systems: seq<string>, requestId: string, emp: Employee, lastDay: Timestamp,
                               now: nat, first: nat, base: int, k: nat)
    requires k < |systems|
    ensures var t := RevocationTaskAt(systems, requestId, emp, lastDay, now, first, base, k);
      && t.status == TaskPending && t.requestId == requestId && t.assigneeDepartment == DeptIT
      && t.visibleFromDate == Some(lastDay) && t.dueDate == Some(lastDay)
      && t.order == Some(base + k + 1) && t.checklistTemplateId.None?
      && t.id == MockId(RevocationPrefix, first + k, now)
      && t.title == RevocationTitle(systems[k], emp.fullName)
  {
  }

  /** One revocation task, with the next id of its prefix. */
  method PushRevocationTask(st: Store, ids: IdGen, system: string, requestId: string, emp: Employee,
                            lastDay: Timestamp, now: nat, order: int, ghost n: nat)
    requires Count(ids.counters, RevocationPrefix) + 1 == n
    modifies st`tasks, ids
    ensures st.tasks == old(st.tasks) + [RevocationTask(MockId(RevocationPrefix, n, now), requestId, system,
                                                        emp, lastDay, now, order)]
    ensures Count(ids.counters, RevocationPrefix) == n
    ensures OthersKept(old(ids.counters), ids.counters, {RevocationPrefix})
  {
    var id := ids.Next(RevocationPrefix, now);
    st.tasks := st.tasks + [RevocationTask(id, requestId, system, emp, lastDay, now, order)];
  }

  method PushRevocationTasks(st: Store, ids: IdGen, systems: seq<string>, requestId: string, emp: Employee,
                             lastDay: Timestamp, now: nat, base: int, ghost c: map<string, nat>)
    requires Count(ids.counters, RevocationPrefix) == Count(c, RevocationPrefix)
    modifies st`tasks, ids
    ensures st.tasks == old(st.tasks)
      + RevocationTasks(systems, requestId, emp, lastDay, now, Count(c, RevocationPrefix) + 1, base)
    ensures Count(ids.counters, RevocationPrefix) == Count(c, RevocationPrefix) + |systems|
    ensures OthersKept(old(ids.counters), ids.counters, {RevocationPrefix})
  {
    ghost var first := Count(c, RevocationPrefix) + 1;
    ghost var c0 := ids.counters;
    ghost var t0 := st.tasks;
    var order := base;
    var k := 0;
    while k < |systems|
      invariant 0 <= k <= |systems|
      invariant order == base + k
      invariant Count(ids.counters, RevocationPrefix) == Count(c0, RevocationPrefix) + k
      invariant OthersKept(c0, ids.counters, {RevocationPrefix})
      invariant st.tasks == t0 + RevocationTasksUpTo(systems, k, requestId, emp, lastDay, now, first, base)
    {
      order := order + 1;
      RevocationTasksStep(t0, systems, k, requestId, emp, lastDay, now, first, base, order);
      PushRevocationTask(st, ids, systems[k], requestId, emp, lastDay, now, order, first + k);
      k := k + 1;
    }
  }

  /** Scan the requests for granted systems and create one revocation task for each. */
  method RevokeAccesses(st: Store, ids: IdGen, requestId: string, emp: Employee, lastDay: Timestamp, now: nat,
                        base: int, ghost c: map<string, nat>)
    requires Count(ids.counters, RevocationPrefix) == Count(c, RevocationPrefix)
    modifies st`tasks, ids
    ensures st.tasks == old(st.tasks)
      + RevocationTasks(SystemsToRevoke(st.requests, emp.id), requestId, emp, lastDay, now, Count(c, RevocationPrefix) + 1, base)
    ensures Count(ids.counters, RevocationPrefix) == Count(c, RevocationPrefix) + |SystemsToRevoke(st.requests, emp.id)|
    ensures OthersKept(old(ids.counters), ids.counters, {RevocationPrefix})
  {
    var systems := CollectSystemsToRevoke(st.requests, emp.id);
    PushRevocationTasks(st, ids, systems, requestId, emp, lastDay, now, base, c);
  }

  // ---------------------------------------------------------------------
  // The submit handler

  function OffboardingNotification(id: string, requestId: string, rtd: RequestTypeDefinition, emp: Employee,
                                   now: Timestamp): NotificationItem
  {
    NotificationItem(
      id, "Nova Sol·licitud de Baixa Creada",
      "S'ha creat una sol·licitud de baixa (" + rtd.name + ") per a " + emp.fullName + " (Sol·licitud: " + requestId
        + "). L'empleat ha estat marcat com a inactiu.",
      now, false, Some("/requests/" + requestId))
  }

  datatype SubmitOutcome = InvalidInput | NoCurrentUser | UnknownRequestType | UnknownEmployee | Created(requestId: string)

  method OpenRequest(st: Store, ids: IdGen, user: User, rtd: RequestTypeDefinition, emp: Employee,
                     data: OffboardingInput, lastDay: Timestamp, now: nat) returns (requestId: string)
    modifies st`requests, ids
    ensures requestId == MockId(RequestPrefix, Count(old(ids.counters), RequestPrefix) + 1, now)
    ensures st.requests == old(st.requests) + [NewRequest(requestId, data, user, rtd, emp, lastDay, now)]
    ensures Count(ids.counters, RequestPrefix) == Count(old(ids.counters), RequestPrefix) + 1
    ensures OthersKept(old(ids.counters), ids.counters, {RequestPrefix})
  {
    requestId := ids.Next(RequestPrefix, now);
    st.requests := st.requests + [NewRequest(requestId, data, user, rtd, emp, lastDay, now)];
  }

  method Announce(st: Store, ids: IdGen, requestId: string, rtd: RequestTypeDefinition, emp: Employee, now: nat,
                  ghost c: map<string, nat>)
    requires Count(ids.counters, NotificationPrefix) == Count(c, NotificationPrefix)
    modifies st`notifications, ids
    ensures st.notifications
         == [OffboardingNotification(MockId(NotificationPrefix, Count(c, NotificationPrefix) + 1, now), requestId, rtd, emp, now)]
          + old(st.notifications)
    ensures Count(ids.counters, NotificationPrefix) == Count(c, NotificationPrefix) + 1
    ensures Count(ids.counters, TemplateTaskPrefix) == Count(old(ids.counters), TemplateTaskPrefix)
    ensures Count(ids.counters, RevocationPrefix) == Count(old(ids.counters), RevocationPrefix)
    ensures OthersKept(old(ids.counters), ids.counters, {NotificationPrefix})
  {
    PrefixesDistinct();
    var id := ids.Next(NotificationPrefix, now);
    st.notifications := [OffboardingNotification(id, requestId, rtd, emp, now)] + st.notifications;
  }

  /** The tasks an offboarding creates: the template tasks, then one revocation task per system. */
  method AddTasks(st: Store, ids: IdGen, rtd: RequestTypeDefinition, requestId: string, emp: Employee,
                  lastDay: Timestamp, now: nat, ghost c: map<string, nat>)
    requires Count(ids.counters, TemplateTaskPrefix) == Count(c, TemplateTaskPrefix)
    requires Count(ids.counters, RevocationPrefix) == Count(c, RevocationPrefix)
    modifies st`tasks, ids
    ensures st.tasks == old(st.tasks)
      + TemplateTasksFor(ChecklistFor(rtd, st.checklists), requestId, emp, lastDay, now, Count(c, TemplateTaskPrefix) + 1)
      + RevocationTasks(SystemsToRevoke(st.requests, emp.id), requestId, emp, lastDay, now, Count(c, RevocationPrefix) + 1,
                        LastOrder(ChecklistFor(rtd, st.checklists)))
    ensures Count(ids.counters, TemplateTaskPrefix) == Count(c, TemplateTaskPrefix) + TemplateCount(rtd, st.checklists)
    ensures Count(ids.counters, RevocationPrefix) == Count(c, RevocationPrefix) + |SystemsToRevoke(st.requests, emp.id)|
    ensures Count(ids.counters, NotificationPrefix) == Count(old(ids.counters), NotificationPrefix)
    ensures OthersKept(old(ids.counters), ids.counters, {TemplateTaskPrefix, RevocationPrefix})
  {
    PrefixesDistinct();
    var lastOrder := AttachTemplateTasks(st, ids, rtd, requestId, emp, lastDay, now, c);
    RevokeAccesses(st, ids, requestId, emp, lastDay, now, lastOrder, c);
  }

  /** The tasks and the notice, once the request exists and the employee is deactivated. */
  method CloseRequest(st: Store, ids: IdGen, rtd: RequestTypeDefinition, requestId: string, emp: Employee,
                      lastDay: Timestamp, now: nat, ghost c: map<string, nat>)
    requires Count(ids.counters, TemplateTaskPrefix) == Count(c, TemplateTaskPrefix)
    requires Count(ids.counters, RevocationPrefix) == Count(c, RevocationPrefix)
    requires Count(ids.counters, NotificationPrefix) == Count(c, NotificationPrefix)
    modifies st`tasks, st`notifications, ids
    ensures st.tasks == old(st.tasks)
      + TemplateTasksFor(ChecklistFor(rtd, st.checklists), requestId, emp, lastDay, now, Count(c, TemplateTaskPrefix) + 1)
      + RevocationTasks(SystemsToRevoke(st.requests, emp.id), requestId, emp, lastDay, now, Count(c, RevocationPrefix) + 1,
                        LastOrder(ChecklistFor(rtd, st.checklists)))
    ensures st.notifications
         == [OffboardingNotification(MockId(NotificationPrefix, Count(c, NotificationPrefix) + 1, now), requestId, rtd, emp, now)]
          + old(st.notifications)
    ensures Count(ids.counters, TemplateTaskPrefix) == Count(c, TemplateTaskPrefix) + TemplateCount(rtd, st.checklists)
    ensures Count(ids.counters, RevocationPrefix) == Count(c, RevocationPrefix) + |SystemsToRevoke(st.requests, emp.id)|
    ensures Count(ids.counters, NotificationPrefix) == Count(c, NotificationPrefix) + 1
    ensures OthersKept(old(ids.counters), ids.counters, {TemplateTaskPrefix, RevocationPrefix, NotificationPrefix})
  {
    PrefixesDistinct();
    AddTasks(st, ids, rtd, requestId, emp, lastDay, now, c);
    Announce(st, ids, requestId, rtd, emp, now, c);
  }

  /** The successful path, once the user, the request type and the employee are known. */
  method Create(st: Store, ids: IdGen, user: User, rtd: RequestTypeDefinition, emp: Employee, data: OffboardingInput,
                lastDay: Timestamp, now: nat) returns (requestId: string)
    modifies st`requests, st`employees, st`tasks, st`notifications, ids
    ensures requestId == MockId(RequestPrefix, Count(old(ids.counters), RequestPrefix) + 1, now)
    ensures st.requests == old(st.requests) + [NewRequest(requestId, data, user, rtd, emp, lastDay, now)]
    ensures st.employees == Deactivate(old(st.employees), data.targetEmployeeId, requestId)
    ensures st.tasks == old(st.tasks)
      + TemplateTasksFor(ChecklistFor(rtd, st.checklists), requestId, emp, lastDay, now, Count(old(ids.counters), TemplateTaskPrefix) + 1)
      + RevocationTasks(SystemsToRevoke(st.requests, emp.id), requestId, emp, lastDay, now,
                        Count(old(ids.counters), RevocationPrefix) + 1, LastOrder(ChecklistFor(rtd, st.checklists)))
    ensures st.notifications
         == [OffboardingNotification(MockId(NotificationPrefix, Count(old(ids.counters), NotificationPrefix) + 1, now),
                                     requestId, rtd, emp, now)]
          + old(st.notifications)
    ensures Count(ids.counters, RequestPrefix) == Count(old(ids.counters), RequestPrefix) + 1
    ensures Count(ids.counters, TemplateTaskPrefix) == Count(old(ids.counters), TemplateTaskPrefix) + TemplateCount(rtd, st.checklists)
    ensures Count(ids.counters, RevocationPrefix)
         == Count(old(ids.counters), RevocationPrefix) + |SystemsToRevoke(st.requests, emp.id)|
    ensures Count(ids.counters, NotificationPrefix) == Count(old(ids.counters), NotificationPrefix) + 1
    ensures OthersKept(old(ids.counters), ids.counters, OffboardingPrefixes)
  {
    PrefixesDistinct();
    ghost var c := ids.counters;
    requestId := OpenRequest(st, ids, user, rtd, emp, data, lastDay, now);
    DeactivateEmployee(st, data.targetEmployeeId, requestId);
    CloseRequest(st, ids, rtd, requestId, emp, lastDay, now, c);
  }

  /**
   * The submit handler. Input the schema rejects, a missing current user,
   * an unknown request type and an unknown employee change nothing;
   * otherwise the request is appended, the employee deactivated, the
   * template and revocation tasks appended and the notice prepended.
   */
  method Submit(st: Store, ids: IdGen, currentUser: Option<User>, data: OffboardingInput, now: nat)
    returns (outcome: SubmitOutcome)
    modifies st`requests, st`employees, st`tasks, st`notifications, ids
    ensures !ValidInput(data) ==> outcome == InvalidInput
    ensures ValidInput(data) && currentUser.None? ==> outcome == NoCurrentUser
    ensures ValidInput(data) && currentUser.Some? && FindRequestType(st.requestTypes, data.requestTypeDefinitionId).None?
      ==> outcome == UnknownRequestType
    ensures ValidInput(data) && currentUser.Some? && FindRequestType(st.requestTypes, data.requestTypeDefinitionId).Some?
         && FindEmployee(old(st.employees), data.targetEmployeeId).None?
      ==> outcome == UnknownEmployee
    ensures ValidInput(data) && currentUser.Some? && FindRequestType(st.requestTypes, data.requestTypeDefinitionId).Some?
         && FindEmployee(old(st.employees), data.targetEmployeeId).Some?
      ==> outcome.Created?
    ensures !outcome.Created? ==> unchanged(st) && unchanged(ids)
    ensures outcome.Created? ==>
      && ValidInput(data) && currentUser.Some?
      && FindRequestType(st.requestTypes, data.requestTypeDefinitionId).Some?
      && FindEmployee(old(st.employees), data.targetEmployeeId).Some?
      && var rtd := FindRequestType(st.requestTypes, data.requestTypeDefinitionId).value;
      var emp := FindEmployee(old(st.employees), data.targetEmployeeId).value;
      var c := old(ids.counters);
      var reqId := MockId(RequestPrefix, Count(c, RequestPrefix) + 1, now);
      var cl := ChecklistFor(rtd, st.checklists);
      && outcome == Created(reqId)
      && st.requests == old(st.requests) + [NewRequest(reqId, data, currentUser.value, rtd, emp, data.lastDay.value, now)]
      && st.employees == Deactivate(old(st.employees), data.targetEmployeeId, reqId)
      && st.tasks == old(st.tasks)
           + TemplateTasksFor(cl, reqId, emp, data.lastDay.value, now, Count(c, TemplateTaskPrefix) + 1)
           + RevocationTasks(SystemsToRevoke(st.requests, emp.id), reqId, emp, data.lastDay.value, now,
                             Count(c, RevocationPrefix) + 1, LastOrder(cl))
      && st.notifications
         == [OffboardingNotification(MockId(NotificationPrefix, Count(c, NotificationPrefix) + 1, now), reqId, rtd, emp, now)]
          + old(st.notifications)
      && Count(ids.counters, RequestPrefix) == Count(c, RequestPrefix) + 1
      && Count(ids.counters, TemplateTaskPrefix) == Count(c, TemplateTaskPrefix) + TemplateCount(rtd, st.checklists)
      && Count(ids.counters, RevocationPrefix) == Count(c, RevocationPrefix) + |SystemsToRevoke(st.requests, emp.id)|
      && Count(ids.counters, NotificationPrefix) == Count(c, NotificationPrefix) + 1
      && OthersKept(c, ids.counters, OffboardingPrefixes)
  {
    if !ValidInput(data) {
      return InvalidInput;
    }
    if currentUser.None? {
      return NoCurrentUser;
    }
    var rtd := FindRequestType(st.requestTypes, data.requestTypeDefinitionId);
    if rtd.None? {
      return UnknownRequestType;
    }
    var emp := FindEmployee(st.employees, data.targetEmployeeId);
    if emp.None? {
      return UnknownEmployee;
    }
    var reqId := Create(st, ids, currentUser.value, rtd.value, emp.value, data, data.lastDay.value, now);
    outcome := Created(reqId);
  }

  // ---------------------------------------------------------------------
  // Properties of a successful submission

  /**
   * The tasks created: one per template plus one per distinct revoked
   * system. The just-appended offboarding request never contributes a
   * system.
   */
  lemma OffboardingTaskCount(rtd: RequestTypeDefinition, checklists: seq<ChecklistTemplate>, reqs: seq<Request>,
                             q: Request, requestId: string, emp: Employee, lastDay: Timestamp, now: nat,
                             first: nat, firstRevocation: nat)
    requires q.rtype == Offboarding
    ensures var cl := ChecklistFor(rtd, checklists);
      |TemplateTasksFor(cl, requestId, emp, lastDay, now, first)
        + RevocationTasks(SystemsToRevoke(reqs + [q], emp.id), requestId, emp, lastDay, now, firstRevocation, LastOrder(cl))|
      == TemplateCount(rtd, checklists) + |SystemsToRevoke(reqs, emp.id)|
  {
    AppendUnqualifiedRequest(reqs, q, emp.id);
  }

  /**
   * Without a resolvable checklist there are no template tasks, the last
   * template order stays 0 and the revocation tasks are numbered from 1.
   */
  lemma MissingChecklist(rtd: RequestTypeDefinition, checklists: seq<ChecklistTemplate>, systems: seq<string>,
                         requestId: string, emp: Employee, lastDay: Timestamp, now: nat, first: nat, firstRevocation: nat)
    requires ChecklistFor(rtd, checklists).None?
    ensures TemplateTasksFor(ChecklistFor(rtd, checklists), requestId, emp, lastDay, now, first) == []
    ensures LastOrder(ChecklistFor(rtd, checklists)) == 0
    ensures var ts := RevocationTasks(systems, requestId, emp, lastDay, now, firstRevocation, LastOrder(ChecklistFor(rtd, checklists)));
      forall k :: 0 <= k < |ts| ==> ts[k].order == Some(k + 1)
  {
    RevocationTasksShape(systems, requestId, emp, lastDay, now, firstRevocation, 0);
  }
}
