/**
 * The employee form: editing an employee's name, department and role in
 * place, and onboarding a new employee, which registers the employee
 * (reusing the record of an existing employee with the same NIF), opens a
 * pending onboarding request, creates one task per checklist template and
 * prepends a notice.
 */
module EmployeeForm {
  import Collections
  import opened Types
  import opened Text
  import opened Nif
  import opened IdGenerator
  import opened DataStore
  import opened Lookups

  // ---------------------------------------------------------------------
  // Schema

  /** The form values; `requestTypeDefinitionId` is only read when onboarding. */
  datatype EmployeeInput = EmployeeInput(
    fullName: string,
    nif: string,
    department: string,
    role: string,
    requestTypeDefinitionId: string)

  /** The schema shared by both modes: a name of at least 3 characters, a well-formed NIF, a department and a role. */
  predicate ValidBase(data: EmployeeInput)
  {
    |data.fullName| >= 3 && ValidNif(data.nif) && |data.department| >= 1 && |data.role| >= 1
  }

  /** Onboarding additionally requires a chosen request type. */
  predicate ValidOnboarding(data: EmployeeInput)
  {
    ValidBase(data) && |data.requestTypeDefinitionId| >= 1
  }

  /** The request types the onboarding select offers: enabled onboarding definitions, in table order. */
  function OnboardingTypes(rts: seq<RequestTypeDefinition>): (r: seq<RequestTypeDefinition>)
    ensures |r| <= |rts|
    ensures forall i :: 0 <= i < |r| ==> r[i].appliesTo == AppliesOnboarding && r[i].isEnabled && r[i] in rts
    ensures forall x :: x in rts && x.appliesTo == AppliesOnboarding && x.isEnabled ==> x in r
  {
    if |rts| == 0 then []
    else if rts[0].appliesTo == AppliesOnboarding && rts[0].isEnabled then [rts[0]] + OnboardingTypes(rts[1..])
    else OnboardingTypes(rts[1..])
  }

  /** The id prefixes an onboarding draws from, in drawing order. */
  const EmployeePrefix: string := "emp"
  const RequestPrefix: string := "req_onb"
  const TaskPrefix: string := "task_onb"
  const NotificationPrefix: string := "notif_onb"

  const OnboardingPrefixes: set<string> := {EmployeePrefix, RequestPrefix, TaskPrefix, NotificationPrefix}

  lemma PrefixesDistinct()
    ensures EmployeePrefix != RequestPrefix && EmployeePrefix != TaskPrefix && EmployeePrefix != NotificationPrefix
    ensures RequestPrefix != TaskPrefix && RequestPrefix != NotificationPrefix && TaskPrefix != NotificationPrefix
  {
    assert |EmployeePrefix| == 3 && |RequestPrefix| == 7 && |TaskPrefix| == 8 && |NotificationPrefix| == 9;
  }

  // ---------------------------------------------------------------------
  // Editing

  /** The spread update: only the name, department and role are replaced. */
  function Edited(e: Employee, data: EmployeeInput): Employee
  {
    e.(fullName := data.fullName, department := data.department, role := data.role)
  }

  /** The employees table after saving an edit of the employee with that id. */
  function EditTable(es: seq<Employee>, id: string, data: EmployeeInput): seq<Employee>
  {
    match EmployeeIndex(es, id)
    case Some(i) => es[i := Edited(es[i], data)]
    case None => es
  }

  /**
   * Only the first employee with that id changes, and only in its name,
   * department and role; its id, NIF, status and request links are kept,
   * every other employee is kept, and an unknown id changes nothing.
   */
  lemma EditOnlyTarget(es: seq<Employee>, id: string, data: EmployeeInput)
    ensures var after := EditTable(es, id, data);
      && |after| == |es|
      && (EmployeeIndex(es, id).None? ==> after == es)
      && (EmployeeIndex(es, id).Some? ==>
            var i := EmployeeIndex(es, id).value;
            && after[i].fullName == data.fullName && after[i].department == data.department && after[i].role == data.role
            && after[i].id == es[i].id && after[i].nif == es[i].nif && after[i].status == es[i].status
            && after[i].onboardingRequestId == es[i].onboardingRequestId
            && after[i].offboardingRequestId == es[i].offboardingRequestId
            && forall j :: 0 <= j < |es| && j != i ==> after[j] == es[j])
  {
  }

  method SaveEdit(st: Store, id: string, data: EmployeeInput)
    modifies st`employees
    ensures st.employees == EditTable(old(st.employees), id, data)
  {
    var i := EmployeeIndex(st.employees, id);
    if i.Some? {
      st.employees := st.employees[i.value := Edited(st.employees[i.value], data)];
    }
  }

  // ---------------------------------------------------------------------
  // Registering the employee

  function NewEmployee(id: string, data: EmployeeInput): Employee
  {
    Employee(id, data.fullName, data.nif, data.department, data.role, Active, None, None)
  }

  /** The table after registration: the new employee is appended only when its NIF is new. */
  function Registered(es: seq<Employee>, e: Employee): seq<Employee>
  {
    if NifIndex(es, e.nif).None? then es + [e] else es
  }

  /** The id the request refers to: the new id, or that of the first employee already holding the NIF. */
  function RegisteredId(es: seq<Employee>, e: Employee): string
  {
    match NifIndex(es, e.nif)
    case Some(i) => es[i].id
    case None => e.id
  }

  /** No two employees share a NIF. */
  predicate NifsUnique(es: seq<Employee>)
  {
    forall i, j :: 0 <= i < j < |es| ==> es[i].nif != es[j].nif
  }

  /**
   * Registration appends exactly when the NIF is new and otherwise leaves
   * the table as it was; either way the table ends up with an employee that
   * has the registered id and the submitted NIF, and a table without
   * repeated NIFs keeps that property.
   */
  lemma RegistrationByNif(es: seq<Employee>, e: Employee)
    ensures NifIndex(es, e.nif).None? ==> Registered(es, e) == es + [e] && RegisteredId(es, e) == e.id
    ensures NifIndex(es, e.nif).Some? ==> Registered(es, e) == es
    ensures var after := Registered(es, e);
      exists i :: 0 <= i < |after| && after[i].id == RegisteredId(es, e) && after[i].nif == e.nif
    ensures NifsUnique(es) ==> NifsUnique(Registered(es, e))
  {
    var after := Registered(es, e);
    match NifIndex(es, e.nif)
    case Some(i) =>
      assert after[i].id == RegisteredId(es, e);
    case None =>
      assert after[|es|] == e;
  }

  /** Draw the employee id and register the employee; the id is drawn even when the NIF is already known. */
  method RegisterEmployee(st: Store, ids: IdGen, data: EmployeeInput, now: nat) returns (employeeId: string)
    modifies st`employees, ids
    ensures var e := NewEmployee(MockId(EmployeePrefix, Count(old(ids.counters), EmployeePrefix) + 1, now), data);
      && st.employees == Registered(old(st.employees), e)
      && employeeId == RegisteredId(old(st.employees), e)
    ensures Count(ids.counters, EmployeePrefix) == Count(old(ids.counters), EmployeePrefix) + 1
    ensures OthersKept(old(ids.counters), ids.counters, {EmployeePrefix})
  {
    var newId := ids.Next(EmployeePrefix, now);
    var e := NewEmployee(newId, data);
    var existing := NifIndex(st.employees, data.nif);
    if existing.None? {
      st.employees := st.employees + [e];
      employeeId := newId;
    } else {
      employeeId := st.employees[existing.value].id;
    }
  }

  // ---------------------------------------------------------------------
  // The request, its tasks and the notice

  /** `{...data, employeeId}`: the form values, with the resolved employee id. */
  function OnboardingDetails(data: EmployeeInput, employeeId: string): Details
  {
    NoDetails.(fullName := Some(data.fullName), nif := Some(data.nif), role := Some(data.role),
               department := Some(data.department), employeeId := Some(employeeId),
               requestTypeDefinitionId := Some(data.requestTypeDefinitionId))
  }

  /** The requester the form writes for every onboarding. */
  const OnboardingRequester: string := "user_003"

  function NewRequest(id: string, data: EmployeeInput, rtd: RequestTypeDefinition, employeeId: string, now: Timestamp): Request
  {
    Request(id, Onboarding, Some(rtd.id), Some(employeeId), None, OnboardingRequester, Pending, now, now,
            Some(rtd.name + ": " + data.fullName), None, OnboardingDetails(data, employeeId))
  }

  /** The onboarding request: pending, for the resolved employee, requested by user_003, with no department assigned. */
  lemma NewRequestShape(id: string, data: EmployeeInput, rtd: RequestTypeDefinition, employeeId: string, now: Timestamp)
    ensures var q := NewRequest(id, data, rtd, employeeId, now);
      && q.id == id && q.rtype == Onboarding && q.status == Pending
      && q.employeeId == Some(employeeId) && q.requesterId == "user_003" && q.assignedDepartment.None?
      && q.targetEmployeeId.None? && q.requestTypeDefinitionId == Some(rtd.id)
      && q.details.employeeId == Some(employeeId) && q.details.nif == Some(data.nif)
      && q.createdAt == now && q.updatedAt == now
  {
  }

  function TemplateTask(id: string, requestId: string, cl: ChecklistTemplate, t: TaskTemplate, fullName: string,
                        now: Timestamp): Task
  {
    Task(id, requestId, Some(cl.id), Some(t.id), t.title + " per a " + fullName, t.description, t.assigneeDepartment,
         None, TaskPending, None, now, now, None, t.order, None)
  }

  /** The tasks made from the given templates, numbering ids from `first`. */
  function TemplateTasks(cl: ChecklistTemplate, tpls: seq<TaskTemplate>, requestId: string, fullName: string,
                         now: nat, first: nat): (ts: seq<Task>)
    ensures |ts| == |tpls|
  {
    if |tpls| == 0 then []
    else
      TemplateTasks(cl, tpls[..|tpls| - 1], requestId, fullName, now, first)
        + [TemplateTask(MockId(TaskPrefix, first + |tpls| - 1, now), requestId, cl, tpls[|tpls| - 1], fullName, now)]
  }

  lemma TemplateTasksSnoc(cl: ChecklistTemplate, tpls: seq<TaskTemplate>, k: nat, requestId: string, fullName: string,
                          now: nat, first: nat)
    requires k < |tpls|
    ensures TemplateTasks(cl, tpls[..k + 1], requestId, fullName, now, first)
         == TemplateTasks(cl, tpls[..k], requestId, fullName, now, first)
          + [TemplateTask(MockId(TaskPrefix, first + k, now), requestId, cl, tpls[k], fullName, now)]
  {
    assert tpls[..k + 1][..k] == tpls[..k];
  }

  lemma {:induction false} TemplateTasksAt(cl: ChecklistTemplate, tpls: seq<TaskTemplate>, requestId: string,
                                          fullName: string, now: nat, first: nat, k: nat)
    requires k < |tpls|
    ensures TemplateTasks(cl, tpls, requestId, fullName, now, first)[k]
         == TemplateTask(MockId(TaskPrefix, first + k, now), requestId, cl, tpls[k], fullName, now)
  {
    if k < |tpls| - 1 {
      TemplateTasksAt(cl, tpls[..|tpls| - 1], requestId, fullName, now, first, k);
    }
  }

  /** One pending task per template, in template order, copying department, order, description and template ids. */
  lemma TemplateTasksFollowTemplates(cl: ChecklistTemplate, requestId: string, fullName: string, now: nat, first: nat)
    ensures var ts := TemplateTasks(cl, cl.taskTemplates, requestId, fullName, now, first);
      |ts| == |cl.taskTemplates|
      && forall k :: 0 <= k < |ts| ==>
        && ts[k].status == TaskPending && ts[k].requestId == requestId
        && ts[k].assigneeDepartment == cl.taskTemplates[k].assigneeDepartment
        && ts[k].order == cl.taskTemplates[k].order
        && ts[k].description == cl.taskTemplates[k].description
        && ts[k].taskTemplateId == Some(cl.taskTemplates[k].id) && ts[k].checklistTemplateId == Some(cl.id)
        && ts[k].dueDate.None? && ts[k].id == MockId(TaskPrefix, first + k, now)
  {
    forall k | 0 <= k < |cl.taskTemplates| {
      TemplateTasksAt(cl, cl.taskTemplates, requestId, fullName, now, first, k);
    }
  }

  /** The tasks of the checklist the request type names; none when it is missing. */
  function TasksFor(rtd: RequestTypeDefinition, checklists: seq<ChecklistTemplate>, requestId: string, fullName: string,
                    now: nat, first: nat): seq<Task>
  {
    match ChecklistFor(rtd, checklists)
    case Some(cl) => TemplateTasks(cl, cl.taskTemplates, requestId, fullName, now, first)
    case None => []
  }

  /** As many tasks as the checklist has templates, and none without a checklist. */
  lemma TasksForCount(rtd: RequestTypeDefinition, checklists: seq<ChecklistTemplate>, requestId: string, fullName: string,
                      now: nat, first: nat)
    ensures |TasksFor(rtd, checklists, requestId, fullName, now, first)| == TemplateCount(rtd, checklists)
    ensures ChecklistFor(rtd, checklists).None? ==> TasksFor(rtd, checklists, requestId, fullName, now, first) == []
  {
  }

  method PushTemplateTasks(st: Store, ids: IdGen, cl: ChecklistTemplate, requestId: string, fullName: string, now: nat)
    modifies st`tasks, ids
    ensures st.tasks == old(st.tasks)
      + TemplateTasks(cl, cl.taskTemplates, requestId, fullName, now, Count(old(ids.counters), TaskPrefix) + 1)
    ensures Count(ids.counters, TaskPrefix) == Count(old(ids.counters), TaskPrefix) + |cl.taskTemplates|
    ensures OthersKept(old(ids.counters), ids.counters, {TaskPrefix})
  {
    ghost var first := Count(ids.counters, TaskPrefix) + 1;
    ghost var c0 := ids.counters;
    ghost var t0 := st.tasks;
    var k := 0;
    while k < |cl.taskTemplates|
      invariant 0 <= k <= |cl.taskTemplates|
      invariant Count(ids.counters, TaskPrefix) == Count(c0, TaskPrefix) + k
      invariant OthersKept(c0, ids.counters, {TaskPrefix})
      invariant st.tasks == t0 + TemplateTasks(cl, cl.taskTemplates[..k], requestId, fullName, now, first)
    {
      var id := ids.Next(TaskPrefix, now);
      assert id == MockId(TaskPrefix, first + k, now);
      var t := TemplateTask(id, requestId, cl, cl.taskTemplates[k], fullName, now);
      TemplateTasksSnoc(cl, cl.taskTemplates, k, requestId, fullName, now, first);
      ghost var before := TemplateTasks(cl, cl.taskTemplates[..k], requestId, fullName, now, first);
      Collections.AppendSnoc(t0, before, t);
      st.tasks := st.tasks + [t];
      k := k + 1;
    }
    assert cl.taskTemplates[..k] == cl.taskTemplates;
  }

  function OnboardingNotification(id: string, requestId: string, fullName: string, now: Timestamp): NotificationItem
  {
    NotificationItem(id, "Nova Sol·licitud d'Alta Iniciada",
                     "S'ha iniciat el procés d'alta per a " + fullName + " (Sol·licitud: " + requestId + ").",
                     now, false, Some("/requests/" + requestId))
  }

  /** Draw the request id and append the pending onboarding request. */
  method OpenRequest(st: Store, ids: IdGen, rtd: RequestTypeDefinition, data: EmployeeInput, employeeId: string, now: nat)
    returns (requestId: string)
    modifies st`requests, ids
    ensures requestId == MockId(RequestPrefix, Count(old(ids.counters), RequestPrefix) + 1, now)
    ensures st.requests == old(st.requests) + [NewRequest(requestId, data, rtd, employeeId, now)]
    ensures Count(ids.counters, RequestPrefix) == Count(old(ids.counters), RequestPrefix) + 1
    ensures OthersKept(old(ids.counters), ids.counters, {RequestPrefix})
  {
    requestId := ids.Next(RequestPrefix, now);
    st.requests := st.requests + [NewRequest(requestId, data, rtd, employeeId, now)];
  }

  method AttachTasks(st: Store, ids: IdGen, rtd: RequestTypeDefinition, requestId: string, fullName: string, now: nat,
                     ghost c: map<string, nat>)
    requires Count(ids.counters, TaskPrefix) == Count(c, TaskPrefix)
    modifies st`tasks, ids
    ensures st.tasks == old(st.tasks) + TasksFor(rtd, st.checklists, requestId, fullName, now, Count(c, TaskPrefix) + 1)
    ensures Count(ids.counters, TaskPrefix) == Count(c, TaskPrefix) + TemplateCount(rtd, st.checklists)
    ensures OthersKept(old(ids.counters), ids.counters, {TaskPrefix})
  {
    var cl := ChecklistFor(rtd, st.checklists);
    if cl.Some? {
      PushTemplateTasks(st, ids, cl.value, requestId, fullName, now);
    } else {
      assert st.tasks == old(st.tasks) + [];
    }
  }

  method Announce(st: Store, ids: IdGen, requestId: string, fullName: string, now: nat, ghost c: map<string, nat>)
    requires Count(ids.counters, NotificationPrefix) == Count(c, NotificationPrefix)
    modifies st`notifications, ids
    ensures st.notifications
         == [OnboardingNotification(MockId(NotificationPrefix, Count(c, NotificationPrefix) + 1, now), requestId, fullName, now)]
          + old(st.notifications)
    ensures Count(ids.counters, NotificationPrefix) == Count(c, NotificationPrefix) + 1
    ensures OthersKept(old(ids.counters), ids.counters, {NotificationPrefix})
  {
    var id := ids.Next(NotificationPrefix, now);
    st.notifications := [OnboardingNotification(id, requestId, fullName, now)] + st.notifications;
  }

  /** The tasks, then the notice, once the request exists. */
  method CloseRequest(st: Store, ids: IdGen, rtd: RequestTypeDefinition, requestId: string, fullName: string, now: nat,
                      ghost c: map<string, nat>)
    requires Count(ids.counters, TaskPrefix) == Count(c, TaskPrefix)
    requires Count(ids.counters, NotificationPrefix) == Count(c, NotificationPrefix)
    modifies st`tasks, st`notifications, ids
    ensures st.tasks == old(st.tasks) + TasksFor(rtd, st.checklists, requestId, fullName, now, Count(c, TaskPrefix) + 1)
    ensures st.notifications
         == [OnboardingNotification(MockId(NotificationPrefix, Count(c, NotificationPrefix) + 1, now), requestId, fullName, now)]
          + old(st.notifications)
    ensures Count(ids.counters, TaskPrefix) == Count(c, TaskPrefix) + TemplateCount(rtd, st.checklists)
    ensures Count(ids.counters, NotificationPrefix) == Count(c, NotificationPrefix) + 1
    ensures OthersKept(old(ids.counters), ids.counters, {TaskPrefix, NotificationPrefix})
  {
    PrefixesDistinct();
    AttachTasks(st, ids, rtd, requestId, fullName, now, c);
    Announce(st, ids, requestId, fullName, now, c);
  }

  /** The onboarding path once the request type is known. */
  method Onboard(st: Store, ids: IdGen, rtd: RequestTypeDefinition, data: EmployeeInput, now: nat)
    returns (requestId: string, employeeId: string)
    modifies st`employees, st`requests, st`tasks, st`notifications, ids
    ensures var e := NewEmployee(MockId(EmployeePrefix, Count(old(ids.counters), EmployeePrefix) + 1, now), data);
      && st.employees == Registered(old(st.employees), e)
      && employeeId == RegisteredId(old(st.employees), e)
    ensures requestId == MockId(RequestPrefix, Count(old(ids.counters), RequestPrefix) + 1, now)
    ensures st.requests == old(st.requests) + [NewRequest(requestId, data, rtd, employeeId, now)]
    ensures st.tasks == old(st.tasks)
      + TasksFor(rtd, st.checklists, requestId, data.fullName, now, Count(old(ids.counters), TaskPrefix) + 1)
    ensures st.notifications
         == [OnboardingNotification(MockId(NotificationPrefix, Count(old(ids.counters), NotificationPrefix) + 1, now),
                                    requestId, data.fullName, now)]
          + old(st.notifications)
    ensures Count(ids.counters, EmployeePrefix) == Count(old(ids.counters), EmployeePrefix) + 1
    ensures Count(ids.counters, RequestPrefix) == Count(old(ids.counters), RequestPrefix) + 1
    ensures Count(ids.counters, TaskPrefix) == Count(old(ids.counters), TaskPrefix) + TemplateCount(rtd, st.checklists)
    ensures Count(ids.counters, NotificationPrefix) == Count(old(ids.counters), NotificationPrefix) + 1
    ensures OthersKept(old(ids.counters), ids.counters, OnboardingPrefixes)
  {
    PrefixesDistinct();
    ghost var c := ids.counters;
    employeeId := RegisterEmployee(st, ids, data, now);
    requestId := OpenRequest(st, ids, rtd, data, employeeId, now);
    CloseRequest(st, ids, rtd, requestId, data.fullName, now, c);
  }

  datatype SubmitOutcome = InvalidInput | Saved | UnknownRequestType | Onboarded(requestId: string, employeeId: string)

  /**
   * The submit handler. `editing` is the employee passed to the form in edit
   * mode. Input the schema rejects and an unknown request type change
   * nothing; an edit rewrites the name, department and role of that
   * employee; an onboarding registers the employee, appends the request and
   * its tasks and prepends the notice.
   */
  method Submit(st: Store, ids: IdGen, editing: Option<Employee>, data: EmployeeInput, now: nat)
    returns (outcome: SubmitOutcome)
    modifies st`employees, st`requests, st`tasks, st`notifications, ids
    ensures editing.Some? && !ValidBase(data) ==> outcome == InvalidInput
    ensures editing.None? && !ValidOnboarding(data) ==> outcome == InvalidInput
    ensures editing.None? && ValidOnboarding(data) && FindRequestType(st.requestTypes, data.requestTypeDefinitionId).None?
      ==> outcome == UnknownRequestType
    ensures editing.Some? && ValidBase(data) ==> outcome == Saved
    ensures editing.None? && ValidOnboarding(data) && FindRequestType(st.requestTypes, data.requestTypeDefinitionId).Some?
      ==> outcome.Onboarded?
    ensures outcome == InvalidInput || outcome == UnknownRequestType ==> unchanged(st) && unchanged(ids)
    ensures outcome == Saved ==>
      && editing.Some? && ValidBase(data)
      && st.employees == EditTable(old(st.employees), editing.value.id, data)
      && unchanged(st`requests) && unchanged(st`tasks) && unchanged(st`notifications) && unchanged(ids)
    ensures outcome.Onboarded? ==>
      && editing.None? && ValidOnboarding(data)
      && FindRequestType(st.requestTypes, data.requestTypeDefinitionId).Some?
      && var rtd := FindRequestType(st.requestTypes, data.requestTypeDefinitionId).value;
      var c := old(ids.counters);
      var e := NewEmployee(MockId(EmployeePrefix, Count(c, EmployeePrefix) + 1, now), data);
      var reqId := MockId(RequestPrefix, Count(c, RequestPrefix) + 1, now);
      && outcome == Onboarded(reqId, RegisteredId(old(st.employees), e))
      && st.employees == Registered(old(st.employees), e)
      && st.requests == old(st.requests) + [NewRequest(reqId, data, rtd, outcome.employeeId, now)]
      && st.tasks == old(st.tasks) + TasksFor(rtd, st.checklists, reqId, data.fullName, now, Count(c, TaskPrefix) + 1)
      && st.notifications
         == [OnboardingNotification(MockId(NotificationPrefix, Count(c, NotificationPrefix) + 1, now), reqId, data.fullName, now)]
          + old(st.notifications)
      && Count(ids.counters, EmployeePrefix) == Count(c, EmployeePrefix) + 1
      && Count(ids.counters, RequestPrefix) == Count(c, RequestPrefix) + 1
      && Count(ids.counters, TaskPrefix) == Count(c, TaskPrefix) + TemplateCount(rtd, st.checklists)
      && Count(ids.counters, NotificationPrefix) == Count(c, NotificationPrefix) + 1
      && OthersKept(c, ids.counters, OnboardingPrefixes)
  {
    if editing.Some? {
      if !ValidBase(data) {
        return InvalidInput;
      }
      SaveEdit(st, editing.value.id, data);
      return Saved;
    }
    if !ValidOnboarding(data) {
      return InvalidInput;
    }
    var rtd := FindRequestType(st.requestTypes, data.requestTypeDefinitionId);
    if rtd.None? {
      return UnknownRequestType;
    }
    var reqId, empId := Onboard(st, ids, rtd.value, data, now);
    outcome := Onboarded(reqId, empId);
  }
}
