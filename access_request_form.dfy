/**
 * Submitting an access request: the input schema, the approval routing that
 * reads each requested system's `requiresApprovalBy` policy, and the records
 * the submit handler appends (request, approval, tasks) or prepends
 * (notifications).
 */
module AccessRequestForm {
  import opened Types
  import opened Text
  import opened Collections
  import opened Constants
  import opened IdGenerator
  import opened DataStore
  import opened Lookups

  // ---------------------------------------------------------------------
  // Schema

  datatype AccessRequestInput = AccessRequestInput(
    targetEmployeeId: string,
    requestTypeDefinitionId: string,
    requestedAccesses: seq<RequestedAccessItem>)

  predicate ValidItem(item: RequestedAccessItem)
  {
    |item.system| >= 1 && |item.accessLevel| >= 1 && |item.justification| >= 10
  }

  /** The form schema: both ids present and 1 to 5 valid items. */
  predicate ValidInput(data: AccessRequestInput)
  {
    && |data.targetEmployeeId| >= 1
    && |data.requestTypeDefinitionId| >= 1
    && 1 <= |data.requestedAccesses| <= 5
    && forall i :: 0 <= i < |data.requestedAccesses| ==> ValidItem(data.requestedAccesses[i])
  }

  // ---------------------------------------------------------------------
  // Approval routing

  const DefaultApprover: string := "user_005"

  /** The id prefixes of the records a submission creates. */
  const RequestPrefix: string := "req_acc"
  const ApprovalPrefix: string := "appr_acc_multi"
  const ApprovalNotificationPrefix: string := "notif_appr_pend"
  const TaskPrefix: string := "task_acc"
  const CreationNotificationPrefix: string := "notif_acc_create"

  const MultiSystemNote: string :=
    "Aquesta sol·licitud inclou sistemes amb diferents requisits d'aprovació que han de ser revisats pel responsable designat."

  /** The policy string of the item's system when it has a non-empty one (systems are matched by name). */
  function PolicyOf(item: RequestedAccessItem, systems: seq<System>): (r: Option<string>)
    ensures r.Some? ==> r.value != ""
    ensures r.Some? <==> exists i :: 0 <= i < |systems| && systems[i].name == item.system
                                  && systems[i].requiresApprovalBy.Some? && systems[i].requiresApprovalBy.value != ""
                                  && forall j :: 0 <= j < i ==> systems[j].name != item.system
  {
    match Find(systems, (s: System) => s.name == item.system)
    case Some(s) =>
      if s.requiresApprovalBy.Some? && s.requiresApprovalBy.value != "" then s.requiresApprovalBy else None
    case None => None
  }

  /** The policy comes from the first system carrying the item's name. */
  lemma PolicyOfFirst(item: RequestedAccessItem, systems: seq<System>, i: nat)
    requires i < |systems| && systems[i].name == item.system
    requires forall j :: 0 <= j < i ==> systems[j].name != item.system
    ensures PolicyOf(item, systems) ==
      (if systems[i].requiresApprovalBy.Some? && systems[i].requiresApprovalBy.value != ""
       then systems[i].requiresApprovalBy else None)
  {
  }

  predicate HoldsRoleInIT(u: User, role: string)
  {
    role in u.roles && DeptIT in u.departments
  }

  predicate IsITManager(u: User)
  {
    RoleIT in u.roles && RoleManager in u.roles
  }

  /**
   * A "Rol: R" policy: the first user holding R and belonging to Informàtica,
   * else the first IT manager (when its id is non-empty), else user_005.
   * The result is always the id of a qualifying user or the default.
   */
  function ResolveRole(role: string, users: seq<User>): (r: string)
    ensures r == DefaultApprover
         || exists i :: 0 <= i < |users| && users[i].id == r && (HoldsRoleInIT(users[i], role) || IsITManager(users[i]))
    ensures (exists i :: 0 <= i < |users| && HoldsRoleInIT(users[i], role))
         ==> (exists i :: 0 <= i < |users| && users[i].id == r && HoldsRoleInIT(users[i], role)
                && forall j :: 0 <= j < i ==> !HoldsRoleInIT(users[j], role))
    ensures (forall i :: 0 <= i < |users| ==> !HoldsRoleInIT(users[i], role)) ==>
      if exists i :: 0 <= i < |users| && IsITManager(users[i])
      then exists i :: 0 <= i < |users| && IsITManager(users[i]) && (forall j :: 0 <= j < i ==> !IsITManager(users[j]))
             && r == (if users[i].id != "" then users[i].id else DefaultApprover)
      else r == DefaultApprover
  {
    match Find(users, (u: User) => HoldsRoleInIT(u, role))
    case Some(u) => u.id
    case None =>
      match Find(users, (u: User) => IsITManager(u))
      case Some(m) => if m.id != "" then m.id else DefaultApprover
      case None => DefaultApprover
  }

  predicate NamedBy(u: User, name: string)
  {
    u.name == Some(name) || u.samAccountName == name
  }

  /** The approver after one flagged item, given the approver chosen so far. */
  function ResolveApprover(policy: string, users: seq<User>, previous: string): (r: string)
    ensures StartsWith(policy, "Rol:") ==> r == ResolveRole(Substring(policy, 5), users)
    ensures !StartsWith(policy, "Rol:") && StartsWith(policy, "Usuari:") ==>
      (if exists i :: 0 <= i < |users| && NamedBy(users[i], Substring(policy, 8))
       then exists i :: 0 <= i < |users| && NamedBy(users[i], Substring(policy, 8)) && users[i].id == r
              && forall j :: 0 <= j < i ==> !NamedBy(users[j], Substring(policy, 8))
       else r == previous)
    ensures !StartsWith(policy, "Rol:") && !StartsWith(policy, "Usuari:") ==> r == previous
  {
    if StartsWith(policy, "Rol:") then ResolveRole(Substring(policy, 5), users)
    else if StartsWith(policy, "Usuari:") then
      match Find(users, (u: User) => NamedBy(u, Substring(policy, 8)))
      case Some(u) => u.id
      case None => previous
    else previous
  }

  /** The three loop variables of the routing scan. */
  datatype Routing = Routing(needsApproval: bool, policies: set<string>, approver: string)

  const InitialRouting: Routing := Routing(false, {}, DefaultApprover)

  function RouteStep(r: Routing, item: RequestedAccessItem, systems: seq<System>, users: seq<User>): Routing
  {
    match PolicyOf(item, systems)
    case None => r
    case Some(p) => Routing(true, r.policies + {p}, ResolveApprover(p, users, r.approver))
  }

  /** The routing after scanning `items` in list order. */
  function Route(items: seq<RequestedAccessItem>, systems: seq<System>, users: seq<User>): Routing
  {
    if |items| == 0 then InitialRouting
    else RouteStep(Route(items[..|items| - 1], systems, users), items[|items| - 1], systems, users)
  }

  predicate Gated(items: seq<RequestedAccessItem>, systems: seq<System>, i: int)
  {
    0 <= i < |items| && PolicyOf(items[i], systems).Some?
  }

  /** Approval is needed exactly when some requested system carries a policy. */
  lemma {:induction false} RouteNeedsApproval(items: seq<RequestedAccessItem>, systems: seq<System>, users: seq<User>)
    ensures Route(items, systems, users).needsApproval <==> exists i :: Gated(items, systems, i)
  {
    if |items| > 0 {
      var front := items[..|items| - 1];
      RouteNeedsApproval(front, systems, users);
      if exists i :: Gated(front, systems, i) {
        var i :| Gated(front, systems, i);
        assert Gated(items, systems, i);
      }
      if exists i :: Gated(items, systems, i) {
        var i :| Gated(items, systems, i);
        if i < |items| - 1 {
          assert Gated(front, systems, i);
        }
      }
      if PolicyOf(items[|items| - 1], systems).Some? {
        assert Gated(items, systems, |items| - 1);
      }
    }
  }

  /** The collected policies are exactly the policies of the requested systems. */
  lemma {:induction false} RoutePolicies(items: seq<RequestedAccessItem>, systems: seq<System>, users: seq<User>)
    ensures forall p :: (p in Route(items, systems, users).policies
      <==> exists i :: 0 <= i < |items| && PolicyOf(items[i], systems) == Some(p))
  {
    if |items| > 0 {
      var front := items[..|items| - 1];
      RoutePolicies(front, systems, users);
      forall p | p in Route(items, systems, users).policies
        ensures exists i :: 0 <= i < |items| && PolicyOf(items[i], systems) == Some(p)
      {
        if p in Route(front, systems, users).policies {
          var i :| 0 <= i < |front| && PolicyOf(front[i], systems) == Some(p);
          assert items[i] == front[i];
        } else {
          assert PolicyOf(items[|items| - 1], systems) == Some(p);
        }
      }
      forall p | exists i :: 0 <= i < |items| && PolicyOf(items[i], systems) == Some(p)
        ensures p in Route(items, systems, users).policies
      {
        var i :| 0 <= i < |items| && PolicyOf(items[i], systems) == Some(p);
        if i < |items| - 1 {
          assert front[i] == items[i];
        }
      }
    }
  }

  /** Items without a policy leave the routing alone, so a scan with no flagged item keeps user_005. */
  lemma {:induction false} RouteUngated(items: seq<RequestedAccessItem>, systems: seq<System>, users: seq<User>)
    requires forall i :: 0 <= i < |items| ==> PolicyOf(items[i], systems).None?
    ensures Route(items, systems, users) == InitialRouting
  {
    if |items| > 0 {
      RouteUngated(items[..|items| - 1], systems, users);
    }
  }

  /** Items after the last flagged one do not change the routing. */
  lemma {:induction false} RouteTrailingUngated(items: seq<RequestedAccessItem>, k: nat, systems: seq<System>, users: seq<User>)
    requires k <= |items|
    requires forall i :: k <= i < |items| ==> PolicyOf(items[i], systems).None?
    ensures Route(items, systems, users) == Route(items[..k], systems, users)
    decreases |items|
  {
    if |items| > k {
      var front := items[..|items| - 1];
      assert front[..k] == items[..k];
      RouteTrailingUngated(front, k, systems, users);
    } else {
      assert items[..k] == items;
    }
  }

  /**
   * The last flagged item decides the approver from what was chosen before
   * it; when its policy is a role policy, the earlier items do not matter.
   */
  lemma LastFlaggedItemWins(items: seq<RequestedAccessItem>, j: nat, systems: seq<System>, users: seq<User>)
    requires j < |items| && PolicyOf(items[j], systems).Some?
    requires forall i :: j < i < |items| ==> PolicyOf(items[i], systems).None?
    ensures var p := PolicyOf(items[j], systems).value;
      Route(items, systems, users).approver == ResolveApprover(p, users, Route(items[..j], systems, users).approver)
    ensures var p := PolicyOf(items[j], systems).value;
      StartsWith(p, "Rol:") ==> Route(items, systems, users).approver == ResolveRole(Substring(p, 5), users)
  {
    RouteTrailingUngated(items, j + 1, systems, users);
    assert items[..j + 1][..j] == items[..j];
  }

  /** The note is set exactly when more than one distinct policy was collected. */
  function ApprovalNote(r: Routing): (note: Option<string>)
    ensures note.Some? <==> |r.policies| > 1
    ensures note.Some? ==> note.value == MultiSystemNote
  {
    if |r.policies| > 1 then Some(MultiSystemNote) else None
  }

  /** Two different policies always produce the note. */
  lemma TwoPoliciesGiveNote(items: seq<RequestedAccessItem>, systems: seq<System>, users: seq<User>, i: nat, j: nat)
    requires i < |items| && j < |items|
    requires PolicyOf(items[i], systems).Some? && PolicyOf(items[j], systems).Some?
    requires PolicyOf(items[i], systems).value != PolicyOf(items[j], systems).value
    ensures ApprovalNote(Route(items, systems, users)).Some?
  {
    RoutePolicies(items, systems, users);
    var pi := PolicyOf(items[i], systems).value;
    var pj := PolicyOf(items[j], systems).value;
    var ps := Route(items, systems, users).policies;
    assert PolicyOf(items[i], systems) == Some(pi);
    assert PolicyOf(items[j], systems) == Some(pj);
    assert pi in ps && pj in ps;
    assert {pi, pj} <= ps;
    assert |{pi, pj}| == 2;
    SubsetCard({pi, pj}, ps);
  }

  lemma SubsetCard<T>(a: set<T>, b: set<T>)
    requires a <= b
    ensures |a| <= |b|
  {
    assert b == a + (b - a);
  }

  /** The routing scan over the requested items, in list order. */
  method ComputeRouting(items: seq<RequestedAccessItem>, systems: seq<System>, users: seq<User>) returns (r: Routing)
    ensures r == Route(items, systems, users)
  {
    var needs := false;
    var policies: set<string> := {};
    var approver := DefaultApprover;
    var i := 0;
    while i < |items|
      invariant 0 <= i <= |items|
      invariant Routing(needs, policies, approver) == Route(items[..i], systems, users)
    {
      assert items[..i + 1][..i] == items[..i];
      var p := PolicyOf(items[i], systems);
      if p.Some? {
        needs := true;
        policies := policies + {p.value};
        approver := ResolveApprover(p.value, users, approver);
      }
      i := i + 1;
    }
    assert items[..i] == items;
    r := Routing(needs, policies, approver);
  }

  // ---------------------------------------------------------------------
  // Records created by a submission

  /** `${employee?.fullName}` renders a missing employee as "undefined". */
  function EmployeeText(e: Option<Employee>): string
  {
    if e.Some? then e.value.fullName else "undefined"
  }

  /** `employee?.fullName || "l'empleat seleccionat"`. */
  function EmployeeLabel(e: Option<Employee>): (r: string)
    ensures r != ""
  {
    if e.Some? && e.value.fullName != "" then e.value.fullName else "l'empleat seleccionat"
  }

  function InitialStatus(r: Routing): (s: RequestStatus)
    ensures s == PendingManagerApproval <==> r.needsApproval
    ensures s == Pending <==> !r.needsApproval
  {
    if r.needsApproval then PendingManagerApproval else Pending
  }

  function NewRequest(
    id: string, data: AccessRequestInput, requester: User, rtd: RequestTypeDefinition,
    emp: Option<Employee>, r: Routing, now: Timestamp): Request
  {
    Request(
      id, Access, Some(rtd.id), None, Some(data.targetEmployeeId), requester.id, InitialStatus(r), now, now,
      Some(rtd.name + " per a " + EmployeeLabel(emp) + " (" + NatToString(|data.requestedAccesses|) + " sistema/es)"),
      Some(DeptIT),
      NoDetails.(requestedAccesses := Some(data.requestedAccesses), multiSystemApprovalNote := ApprovalNote(r)))
  }

  function NoteComment(note: Option<string>): (c: Option<string>)
    ensures c.Some? <==> note.Some?
    ensures note.Some? ==> c.value == "Nota: " + note.value
  {
    if note.Some? then Some("Nota: " + note.value) else None
  }

  function NewApproval(id: string, requestId: string, r: Routing, now: Timestamp): Approval
  {
    Approval(id, requestId, r.approver, ApprovalPending, NoteComment(ApprovalNote(r)), now, now, None)
  }

  function ApprovalNotification(id: string, requestId: string, emp: Option<Employee>, r: Routing, now: Timestamp): NotificationItem
  {
    var note := ApprovalNote(r);
    NotificationItem(
      id, "Aprovació Requerida",
      "La sol·licitud d'accés \"" + requestId + "\" per a " + EmployeeText(emp) + " requereix la teva aprovació."
        + (if note.Some? then " " + note.value else ""),
      now, false, Some("/approvals"))
  }

  function CreationNotification(
    id: string, requestId: string, rtd: RequestTypeDefinition, emp: Option<Employee>, r: Routing, now: Timestamp): NotificationItem
  {
    NotificationItem(
      id, "Nova Sol·licitud d'Accés Creada",
      "S'ha creat una sol·licitud d'accés (" + rtd.name + ") per a " + EmployeeLabel(emp)
        + " (Sol·licitud: " + requestId + ")." + (if r.needsApproval then " Pendent d'aprovació." else ""),
      now, false, Some("/requests/" + requestId))
  }

  function TemplateTask(
    id: string, requestId: string, cl: ChecklistTemplate, t: TaskTemplate, emp: Option<Employee>, now: Timestamp): Task
  {
    Task(
      id, requestId, Some(cl.id), Some(t.id),
      t.title + " (Sol: " + requestId + ") per a " + EmployeeText(emp),
      t.description, t.assigneeDepartment, None, TaskPending, None, now, now, None, t.order, None)
  }

  /** The tasks made from the given templates of checklist `cl`, numbering ids from `first`. */
  function TemplateTasks(cl: ChecklistTemplate, tpls: seq<TaskTemplate>, requestId: string,
                         emp: Option<Employee>, now: nat, first: nat): (ts: seq<Task>)
    ensures |ts| == |tpls|
  {
    if |tpls| == 0 then []
    else
      TemplateTasks(cl, tpls[..|tpls| - 1], requestId, emp, now, first)
        + [TemplateTask(MockId(TaskPrefix, first + |tpls| - 1, now), requestId, cl, tpls[|tpls| - 1], emp, now)]
  }

  lemma TemplateTasksSnoc(cl: ChecklistTemplate, tpls: seq<TaskTemplate>, k: nat, requestId: string,
                          emp: Option<Employee>, now: nat, first: nat)
    requires k < |tpls|
    ensures TemplateTasks(cl, tpls[..k + 1], requestId, emp, now, first)
         == TemplateTasks(cl, tpls[..k], requestId, emp, now, first)
          + [TemplateTask(MockId(TaskPrefix, first + k, now), requestId, cl, tpls[k], emp, now)]
  {
    assert tpls[..k + 1][..k] == tpls[..k];
  }

  function ChecklistTasks(cl: ChecklistTemplate, requestId: string, emp: Option<Employee>, now: nat, first: nat): (ts: seq<Task>)
    ensures |ts| == |cl.taskTemplates|
  {
    TemplateTasks(cl, cl.taskTemplates, requestId, emp, now, first)
  }

  /** Task k is made from template k with the (first + k)-th id. */
  lemma {:induction false} TemplateTasksAt(cl: ChecklistTemplate, tpls: seq<TaskTemplate>, requestId: string,
                                          emp: Option<Employee>, now: nat, first: nat, k: nat)
    requires k < |tpls|
    ensures TemplateTasks(cl, tpls, requestId, emp, now, first)[k]
         == TemplateTask(MockId(TaskPrefix, first + k, now), requestId, cl, tpls[k], emp, now)
  {
    if k < |tpls| - 1 {
      TemplateTasksAt(cl, tpls[..|tpls| - 1], requestId, emp, now, first, k);
    }
  }

  /** One pending task per template, in template order, copying department, order, description and template ids. */
  lemma ChecklistTasksFollowTemplates(cl: ChecklistTemplate, requestId: string, emp: Option<Employee>, now: nat, first: nat)
    ensures var ts := ChecklistTasks(cl, requestId, emp, now, first);
      |ts| == |cl.taskTemplates|
      && forall k :: 0 <= k < |ts| ==>
        && ts[k].status == TaskPending && ts[k].requestId == requestId
        && ts[k].assigneeDepartment == cl.taskTemplates[k].assigneeDepartment
        && ts[k].order == cl.taskTemplates[k].order
        && ts[k].description == cl.taskTemplates[k].description
        && ts[k].taskTemplateId == Some(cl.taskTemplates[k].id)
        && ts[k].checklistTemplateId == Some(cl.id)
        && ts[k].id == MockId(TaskPrefix, first + k, now)
  {
    forall k | 0 <= k < |cl.taskTemplates| {
      TemplateTasksAt(cl, cl.taskTemplates, requestId, emp, now, first, k);
    }
  }

  /** The generated task ids are pairwise distinct. */
  lemma ChecklistTaskIdsDistinct(cl: ChecklistTemplate, requestId: string, emp: Option<Employee>, now: nat, first: nat)
    ensures var ts := ChecklistTasks(cl, requestId, emp, now, first);
      forall a, b :: 0 <= a < b < |ts| ==> ts[a].id != ts[b].id
  {
    var ts := ChecklistTasks(cl, requestId, emp, now, first);
    forall a, b | 0 <= a < b < |ts|
      ensures ts[a].id != ts[b].id
    {
      ChecklistTaskIdAt(cl, requestId, emp, now, first, a);
      ChecklistTaskIdAt(cl, requestId, emp, now, first, b);
      MockIdDistinct(TaskPrefix, first + a, first + b, now, now);
    }
  }

  lemma ChecklistTaskIdAt(cl: ChecklistTemplate, requestId: string, emp: Option<Employee>, now: nat, first: nat, k: nat)
    requires k < |cl.taskTemplates|
    ensures ChecklistTasks(cl, requestId, emp, now, first)[k].id == MockId(TaskPrefix, first + k, now)
  {
    TemplateTasksAt(cl, cl.taskTemplates, requestId, emp, now, first, k);
  }

  function TasksFor(rtd: RequestTypeDefinition, checklists: seq<ChecklistTemplate>, requestId: string,
                    emp: Option<Employee>, now: nat, first: nat): seq<Task>
  {
    match ChecklistFor(rtd, checklists)
    case Some(cl) => ChecklistTasks(cl, requestId, emp, now, first)
    case None => []
  }

  // ---------------------------------------------------------------------
  // The submit handler

  datatype SubmitOutcome = InvalidInput | NoCurrentUser | UnknownRequestType | Created(requestId: string)

  /** Every prefix a successful submission draws ids from. */
  const SubmissionPrefixes: set<string> :=
    {RequestPrefix, ApprovalPrefix, ApprovalNotificationPrefix, TaskPrefix, CreationNotificationPrefix}

  lemma PrefixesDistinct()
    ensures RequestPrefix != ApprovalPrefix && RequestPrefix != ApprovalNotificationPrefix
    ensures RequestPrefix != TaskPrefix && RequestPrefix != CreationNotificationPrefix
    ensures ApprovalPrefix != ApprovalNotificationPrefix && ApprovalPrefix != TaskPrefix
    ensures ApprovalPrefix != CreationNotificationPrefix && ApprovalNotificationPrefix != TaskPrefix
    ensures ApprovalNotificationPrefix != CreationNotificationPrefix && TaskPrefix != CreationNotificationPrefix
  {
    assert |RequestPrefix| == 7 && |TaskPrefix| == 8 && |ApprovalPrefix| == 14;
    assert |ApprovalNotificationPrefix| == 15 && |CreationNotificationPrefix| == 16;
  }

  /** Create the tasks of a resolved checklist, one generated id per template. */
  method PushChecklistTasks(st: Store, ids: IdGen, cl: ChecklistTemplate, requestId: string, emp: Option<Employee>, now: nat)
    modifies st`tasks, ids
    ensures st.tasks == old(st.tasks) + ChecklistTasks(cl, requestId, emp, now, Count(old(ids.counters), TaskPrefix) + 1)
    ensures Count(ids.counters, TaskPrefix) == Count(old(ids.counters), TaskPrefix) + |cl.taskTemplates|
    ensures OthersKept(old(ids.counters), ids.counters, {TaskPrefix})
  {
    ghost var first := Count(ids.counters, TaskPrefix) + 1;
    ghost var c0 := ids.counters;
    ghost var t0 := st.tasks;
    var k := 0;
    while k < |cl.taskTemplates|
      invariant 0 <= k <= |cl.taskTemplates|
      invariant Count(ids.counters, TaskPrefix) == Count(c0, TaskPrefix) + k
      invariant OthersKept(c0, ids.counters, {TaskPrefix})
      invariant st.tasks == t0 + TemplateTasks(cl, cl.taskTemplates[..k], requestId, emp, now, first)
    {
      var id := ids.Next(TaskPrefix, now);
      assert id == MockId(TaskPrefix, first + k, now);
      var t := TemplateTask(id, requestId, cl, cl.taskTemplates[k], emp, now);
      TemplateTasksSnoc(cl, cl.taskTemplates, k, requestId, emp, now, first);
      ghost var before := TemplateTasks(cl, cl.taskTemplates[..k], requestId, emp, now, first);
      AppendSnoc(t0, before, t);
      st.tasks := st.tasks + [t];
      k := k + 1;
    }
    assert cl.taskTemplates[..k] == cl.taskTemplates;
  }

  /** The approvals table after a submission: one pending approval appended when gated. */
  function ApprovalsAfter(approvals: seq<Approval>, c: map<string, nat>, requestId: string, r: Routing, now: nat): seq<Approval>
  {
    if r.needsApproval then approvals + [NewApproval(MockId(ApprovalPrefix, Count(c, ApprovalPrefix) + 1, now), requestId, r, now)]
    else approvals
  }

  /** The notifications after the approval step: the approval notice prepended when gated. */
  function ApprovalNoticesAfter(notifications: seq<NotificationItem>, c: map<string, nat>, requestId: string,
                                emp: Option<Employee>, r: Routing, now: nat): seq<NotificationItem>
  {
    if r.needsApproval
    then [ApprovalNotification(MockId(ApprovalNotificationPrefix, Count(c, ApprovalNotificationPrefix) + 1, now), requestId, emp, r, now)] + notifications
    else notifications
  }

  /** The notifications after a submission: the creation notice, then the approval notice when gated, then the old list. */
  function NotificationsAfter(notifications: seq<NotificationItem>, c: map<string, nat>, requestId: string,
                              rtd: RequestTypeDefinition, emp: Option<Employee>, r: Routing, now: nat): seq<NotificationItem>
  {
    [CreationNotification(MockId(CreationNotificationPrefix, Count(c, CreationNotificationPrefix) + 1, now), requestId, rtd, emp, r, now)]
      + ApprovalNoticesAfter(notifications, c, requestId, emp, r, now)
  }

  /**
   * The new request: type access, assigned to Informàtica, carrying the
   * requested items, and waiting for a manager exactly when some requested
   * system is gated.
   */
  lemma NewRequestShape(id: string, data: AccessRequestInput, requester: User, rtd: RequestTypeDefinition,
                        emp: Option<Employee>, systems: seq<System>, users: seq<User>, now: Timestamp)
    ensures var q := NewRequest(id, data, requester, rtd, emp, Route(data.requestedAccesses, systems, users), now);
      && q.id == id && q.rtype == Access && q.assignedDepartment == Some(DeptIT)
      && q.targetEmployeeId == Some(data.targetEmployeeId) && q.requesterId == requester.id
      && q.details.requestedAccesses == Some(data.requestedAccesses)
      && (q.status == PendingManagerApproval <==> exists i :: Gated(data.requestedAccesses, systems, i))
      && (q.status == Pending <==> !exists i :: Gated(data.requestedAccesses, systems, i))
  {
    RouteNeedsApproval(data.requestedAccesses, systems, users);
  }

  /**
   * The approvals table after a submission keeps the old rows and gains one
   * pending row for the request exactly when some requested system is gated;
   * its comment carries the note.
   */
  lemma SubmissionApprovals(approvals: seq<Approval>, c: map<string, nat>, requestId: string,
                            items: seq<RequestedAccessItem>, systems: seq<System>, users: seq<User>, now: nat)
    ensures var r := Route(items, systems, users);
      var after := ApprovalsAfter(approvals, c, requestId, r, now);
      && after[..|approvals|] == approvals
      && (|after| == |approvals| + 1 <==> exists i :: Gated(items, systems, i))
      && (|after| == |approvals| <==> !exists i :: Gated(items, systems, i))
      && (|after| > |approvals| ==>
            && after[|approvals|].status == ApprovalPending && after[|approvals|].requestId == requestId
            && after[|approvals|].approverId == r.approver
            && after[|approvals|].comments == NoteComment(ApprovalNote(r)))
  {
    RouteNeedsApproval(items, systems, users);
  }

  /** The notifications after a submission: exactly one more when ungated, two more when gated; the old ones follow. */
  lemma SubmissionNotifications(notifications: seq<NotificationItem>, c: map<string, nat>, requestId: string,
                                rtd: RequestTypeDefinition, emp: Option<Employee>,
                                items: seq<RequestedAccessItem>, systems: seq<System>, users: seq<User>, now: nat)
    ensures var r := Route(items, systems, users);
      var after := NotificationsAfter(notifications, c, requestId, rtd, emp, r, now);
      var added := if exists i :: Gated(items, systems, i) then 2 else 1;
      && |after| == |notifications| + added
      && after[added..] == notifications
      && after[0].href == Some("/requests/" + requestId)
      && (added == 2 ==> after[1].href == Some("/approvals"))
  {
    RouteNeedsApproval(items, systems, users);
    var r := Route(items, systems, users);
    var tail := ApprovalNoticesAfter(notifications, c, requestId, emp, r, now);
    var after := NotificationsAfter(notifications, c, requestId, rtd, emp, r, now);
    assert after[1..] == tail;
    if r.needsApproval {
      assert tail[1..] == notifications;
      assert after[2..] == tail[1..];
    }
  }

  /**
   * Record the approval and its notification when the request is gated;
   * an ungated request draws no id here. `c` is any counter table that
   * agrees with the generator on the two prefixes drawn here.
   */
  method RecordApproval(st: Store, ids: IdGen, requestId: string, emp: Option<Employee>, r: Routing, now: nat,
                        ghost c: map<string, nat>)
    requires Count(ids.counters, ApprovalPrefix) == Count(c, ApprovalPrefix)
    requires Count(ids.counters, ApprovalNotificationPrefix) == Count(c, ApprovalNotificationPrefix)
    modifies st`approvals, st`notifications, ids
    ensures st.approvals == ApprovalsAfter(old(st.approvals), c, requestId, r, now)
    ensures st.notifications == ApprovalNoticesAfter(old(st.notifications), c, requestId, emp, r, now)
    ensures Count(ids.counters, ApprovalPrefix) == Count(c, ApprovalPrefix) + (if r.needsApproval then 1 else 0)
    ensures Count(ids.counters, ApprovalNotificationPrefix)
         == Count(c, ApprovalNotificationPrefix) + (if r.needsApproval then 1 else 0)
    ensures OthersKept(old(ids.counters), ids.counters, {ApprovalPrefix, ApprovalNotificationPrefix})
  {
    if r.needsApproval {
      PrefixesDistinct();
      var apprId := ids.Next(ApprovalPrefix, now);
      st.approvals := st.approvals + [NewApproval(apprId, requestId, r, now)];
      var notifId := ids.Next(ApprovalNotificationPrefix, now);
      st.notifications := [ApprovalNotification(notifId, requestId, emp, r, now)] + st.notifications;
    }
  }

  /** First half of a submission: the request id, the routing, the approval when gated, and the request itself. */
  method OpenRequest(st: Store, ids: IdGen, user: User, rtd: RequestTypeDefinition, data: AccessRequestInput, now: nat)
    returns (requestId: string, emp: Option<Employee>, r: Routing)
    modifies st`requests, st`approvals, st`notifications, ids
    ensures requestId == MockId(RequestPrefix, Count(old(ids.counters), RequestPrefix) + 1, now)
    ensures emp == FindEmployee(st.employees, data.targetEmployeeId)
    ensures r == Route(data.requestedAccesses, st.systems, st.users)
    ensures st.requests == old(st.requests) + [NewRequest(requestId, data, user, rtd, emp, r, now)]
    ensures st.approvals == ApprovalsAfter(old(st.approvals), old(ids.counters), requestId, r, now)
    ensures st.notifications == ApprovalNoticesAfter(old(st.notifications), old(ids.counters), requestId, emp, r, now)
    ensures Count(ids.counters, RequestPrefix) == Count(old(ids.counters), RequestPrefix) + 1
    ensures Count(ids.counters, ApprovalPrefix) == Count(old(ids.counters), ApprovalPrefix) + (if r.needsApproval then 1 else 0)
    ensures Count(ids.counters, ApprovalNotificationPrefix)
         == Count(old(ids.counters), ApprovalNotificationPrefix) + (if r.needsApproval then 1 else 0)
    ensures OthersKept(old(ids.counters), ids.counters, {RequestPrefix, ApprovalPrefix, ApprovalNotificationPrefix})
  {
    PrefixesDistinct();
    ghost var c := ids.counters;
    requestId := ids.Next(RequestPrefix, now);
    emp := FindEmployee(st.employees, data.targetEmployeeId);
    r := ComputeRouting(data.requestedAccesses, st.systems, st.users);
    RecordApproval(st, ids, requestId, emp, r, now, c);
    st.requests := st.requests + [NewRequest(requestId, data, user, rtd, emp, r, now)];
  }

  /** The tasks of the request type's checklist, when it names one that exists. */
  method AttachTasks(st: Store, ids: IdGen, rtd: RequestTypeDefinition, requestId: string, emp: Option<Employee>,
                     now: nat, ghost c: map<string, nat>)
    requires Count(ids.counters, TaskPrefix) == Count(c, TaskPrefix)
    modifies st`tasks, ids
    ensures st.tasks == old(st.tasks) + TasksFor(rtd, st.checklists, requestId, emp, now, Count(c, TaskPrefix) + 1)
    ensures Count(ids.counters, TaskPrefix) == Count(c, TaskPrefix) + TemplateCount(rtd, st.checklists)
    ensures OthersKept(old(ids.counters), ids.counters, {TaskPrefix})
  {
    var cl := ChecklistFor(rtd, st.checklists);
    if cl.Some? {
      PushChecklistTasks(st, ids, cl.value, requestId, emp, now);
    } else {
      assert st.tasks == old(st.tasks) + [];
    }
  }

  /** Prepend the creation notice, drawing one id. */
  method AnnounceCreation(st: Store, ids: IdGen, rtd: RequestTypeDefinition, requestId: string, emp: Option<Employee>,
                          r: Routing, now: nat, ghost c: map<string, nat>)
    requires Count(ids.counters, CreationNotificationPrefix) == Count(c, CreationNotificationPrefix)
    modifies st`notifications, ids
    ensures st.notifications
         == [CreationNotification(MockId(CreationNotificationPrefix, Count(c, CreationNotificationPrefix) + 1, now), requestId, rtd, emp, r, now)]
          + old(st.notifications)
    ensures Count(ids.counters, CreationNotificationPrefix) == Count(c, CreationNotificationPrefix) + 1
    ensures OthersKept(old(ids.counters), ids.counters, {CreationNotificationPrefix})
  {
    var createId := ids.Next(CreationNotificationPrefix, now);
    st.notifications := [CreationNotification(createId, requestId, rtd, emp, r, now)] + st.notifications;
  }

  /**
   * Second half of a submission: the checklist tasks, then the creation
   * notice. `c` is any counter table that agrees with the generator on the
   * two prefixes drawn here (the table before the submission began).
   */
  method CloseRequest(st: Store, ids: IdGen, rtd: RequestTypeDefinition, requestId: string, emp: Option<Employee>, r: Routing,
                      now: nat, ghost c: map<string, nat>)
    requires Count(ids.counters, TaskPrefix) == Count(c, TaskPrefix)
    requires Count(ids.counters, CreationNotificationPrefix) == Count(c, CreationNotificationPrefix)
    modifies st`tasks, st`notifications, ids
    ensures st.tasks == old(st.tasks) + TasksFor(rtd, st.checklists, requestId, emp, now, Count(c, TaskPrefix) + 1)
    ensures st.notifications
         == [CreationNotification(MockId(CreationNotificationPrefix, Count(c, CreationNotificationPrefix) + 1, now), requestId, rtd, emp, r, now)]
          + old(st.notifications)
    ensures Count(ids.counters, TaskPrefix) == Count(c, TaskPrefix) + TemplateCount(rtd, st.checklists)
    ensures Count(ids.counters, CreationNotificationPrefix) == Count(c, CreationNotificationPrefix) + 1
    ensures OthersKept(old(ids.counters), ids.counters, {TaskPrefix, CreationNotificationPrefix})
  {
    PrefixesDistinct();
    AttachTasks(st, ids, rtd, requestId, emp, now, c);
    AnnounceCreation(st, ids, rtd, requestId, emp, r, now, c);
  }

  /**
   * The successful path of the handler, once the user and the request type
   * are known; `emp` is the target employee's record and `r` the routing.
   */
  method Create(st: Store, ids: IdGen, user: User, rtd: RequestTypeDefinition, data: AccessRequestInput, now: nat)
    returns (requestId: string)
    modifies st`requests, st`approvals, st`tasks, st`notifications, ids
    ensures requestId == MockId(RequestPrefix, Count(old(ids.counters), RequestPrefix) + 1, now)
    ensures st.requests == old(st.requests)
      + [NewRequest(requestId, data, user, rtd, FindEmployee(st.employees, data.targetEmployeeId),
                    Route(data.requestedAccesses, st.systems, st.users), now)]
    ensures st.approvals
         == ApprovalsAfter(old(st.approvals), old(ids.counters), requestId, Route(data.requestedAccesses, st.systems, st.users), now)
    ensures st.tasks == old(st.tasks)
      + TasksFor(rtd, st.checklists, requestId, FindEmployee(st.employees, data.targetEmployeeId), now,
                 Count(old(ids.counters), TaskPrefix) + 1)
    ensures st.notifications
         == NotificationsAfter(old(st.notifications), old(ids.counters), requestId, rtd,
                               FindEmployee(st.employees, data.targetEmployeeId),
                               Route(data.requestedAccesses, st.systems, st.users), now)
    ensures Count(ids.counters, RequestPrefix) == Count(old(ids.counters), RequestPrefix) + 1
    ensures Count(ids.counters, ApprovalPrefix) == Count(old(ids.counters), ApprovalPrefix)
      + (if Route(data.requestedAccesses, st.systems, st.users).needsApproval then 1 else 0)
    ensures Count(ids.counters, ApprovalNotificationPrefix) == Count(old(ids.counters), ApprovalNotificationPrefix)
      + (if Route(data.requestedAccesses, st.systems, st.users).needsApproval then 1 else 0)
    ensures Count(ids.counters, TaskPrefix) == Count(old(ids.counters), TaskPrefix) + TemplateCount(rtd, st.checklists)
    ensures Count(ids.counters, CreationNotificationPrefix) == Count(old(ids.counters), CreationNotificationPrefix) + 1
    ensures OthersKept(old(ids.counters), ids.counters, SubmissionPrefixes)
  {
    PrefixesDistinct();
    ghost var c := ids.counters;
    var emp, r;
    requestId, emp, r := OpenRequest(st, ids, user, rtd, data, now);
    CloseRequest(st, ids, rtd, requestId, emp, r, now, c);
  }

  /**
   * The submit handler. Input the schema rejects, a missing current user and
   * an unknown request type change nothing; otherwise one request is
   * appended, one pending approval is appended when some system is gated,
   * one task per checklist template is appended, and the creation
   * notification (preceded by the approval notification when gated) is
   * prepended.
   */
  method Submit(st: Store, ids: IdGen, currentUser: Option<User>, data: AccessRequestInput, now: nat)
    returns (outcome: SubmitOutcome)
    modifies st`requests, st`approvals, st`tasks, st`notifications, ids
    ensures !ValidInput(data) ==> outcome == InvalidInput
    ensures ValidInput(data) && currentUser.None? ==> outcome == NoCurrentUser
    ensures ValidInput(data) && currentUser.Some? && FindRequestType(st.requestTypes, data.requestTypeDefinitionId).None?
      ==> outcome == UnknownRequestType
    ensures ValidInput(data) && currentUser.Some? && FindRequestType(st.requestTypes, data.requestTypeDefinitionId).Some?
      ==> outcome.Created?
    ensures !outcome.Created? ==> unchanged(st) && unchanged(ids)
    ensures outcome.Created? ==>
      && ValidInput(data) && currentUser.Some?
      && FindRequestType(st.requestTypes, data.requestTypeDefinitionId).Some?
      && var rtd := FindRequestType(st.requestTypes, data.requestTypeDefinitionId).value;
      var emp := FindEmployee(st.employees, data.targetEmployeeId);
      var r := Route(data.requestedAccesses, st.systems, st.users);
      var c := old(ids.counters);
      var reqId := MockId(RequestPrefix, Count(c, RequestPrefix) + 1, now);
      && outcome == Created(reqId)
      && st.requests == old(st.requests) + [NewRequest(reqId, data, currentUser.value, rtd, emp, r, now)]
      && st.approvals == ApprovalsAfter(old(st.approvals), c, reqId, r, now)
      && st.tasks == old(st.tasks) + TasksFor(rtd, st.checklists, reqId, emp, now, Count(c, TaskPrefix) + 1)
      && st.notifications == NotificationsAfter(old(st.notifications), c, reqId, rtd, emp, r, now)
      && Count(ids.counters, RequestPrefix) == Count(c, RequestPrefix) + 1
      && Count(ids.counters, ApprovalPrefix) == Count(c, ApprovalPrefix) + (if r.needsApproval then 1 else 0)
      && Count(ids.counters, ApprovalNotificationPrefix) == Count(c, ApprovalNotificationPrefix) + (if r.needsApproval then 1 else 0)
      && Count(ids.counters, TaskPrefix) == Count(c, TaskPrefix) + TemplateCount(rtd, st.checklists)
      && Count(ids.counters, CreationNotificationPrefix) == Count(c, CreationNotificationPrefix) + 1
      && OthersKept(c, ids.counters, SubmissionPrefixes)
  {
    if !ValidInput(data) {
      return InvalidInput;
    }
    if currentUser.None? {
      return NoCurrentUser;
    }
    var found := FindRequestType(st.requestTypes, data.requestTypeDefinitionId);
    if found.None? {
      return UnknownRequestType;
    }
    var reqId := Create(st, ids, currentUser.value, found.value, data, now);
    outcome := Created(reqId);
  }
}
