/**
 * The entity layer of the request-management application: one datatype per
 * record kind held in the in-memory tables, plus the closed status unions.
 * ISO date strings are modelled as integer timestamps; optional TypeScript
 * properties become `Option` fields.
 */
module Types {

  datatype Option<T> = None | Some(value: T)

  /** Value of an optional field, with a default for `undefined`. */
  function GetOr<T>(o: Option<T>, d: T): (r: T)
    ensures o.Some? ==> r == o.value
    ensures o.None? ==> r == d
  {
    match o
    case Some(v) => v
    case None => d
  }

  /** `o || d` for an optional string: the value unless it is absent or empty. */
  function StringOr(o: Option<string>, d: string): (r: string)
    ensures o.Some? && o.value != "" ==> r == o.value
    ensures o.None? || o.value == "" ==> r == d
  {
    if o.Some? && o.value != "" then o.value else d
  }

  /** `order || (index + 1)`: a missing or zero order falls back to the 1-based position. */
  function EffectiveOrder(order: Option<int>, index: nat): (r: int)
    ensures order.Some? && order.value != 0 ==> r == order.value
    ensures order.None? || order.value == 0 ==> r == index + 1
    ensures r != 0
  {
    if order.Some? && order.value != 0 then order.value else index + 1
  }

  type Timestamp = int

  datatype EmployeeStatus = Active | Inactive

  datatype RequestType = Onboarding | Offboarding | Access

  datatype RequestStatus =
    | Pending
    | PendingManagerApproval
    | PendingHRProcessing
    | PendingITProcessing
    | PendingFinalValidation
    | InProgress
    | Approved
    | Rejected
    | Completed
    | Cancelled

  /** The ten request statuses in declaration order. */
  const AllRequestStatuses: seq<RequestStatus> :=
    [Pending, PendingManagerApproval, PendingHRProcessing, PendingITProcessing,
     PendingFinalValidation, InProgress, Approved, Rejected, Completed, Cancelled]

  /** The three statuses after which a request no longer counts as open. */
  predicate IsTerminal(s: RequestStatus)
  {
    s == Completed || s == Cancelled || s == Rejected
  }

  datatype TaskStatus = TaskPending | TaskInProgress | TaskCompleted

  datatype ApprovalStatus = ApprovalPending | ApprovalApproved | ApprovalRejected

  /** `RequestTypeDefinition.appliesTo` allows one more value than `RequestType`. */
  datatype AppliesTo = AppliesOnboarding | AppliesOffboarding | AppliesAccess | AppliesOther

  /** The `appliesTo` value spelled like a request's `type`. */
  function CategoryOf(t: RequestType): (a: AppliesTo)
    ensures a != AppliesOther
  {
    match t
    case Onboarding => AppliesOnboarding
    case Offboarding => AppliesOffboarding
    case Access => AppliesAccess
  }

  /** The request type a category stands for; "other" stands for none. */
  function TypeOfCategory(a: AppliesTo): Option<RequestType>
  {
    match a
    case AppliesOnboarding => Some(Onboarding)
    case AppliesOffboarding => Some(Offboarding)
    case AppliesAccess => Some(Access)
    case AppliesOther => None
  }

  /**
   * The three request types correspond one to one with the categories a
   * definition can apply to other than "other", which no request has.
   */
  lemma CategoriesCorrespond()
    ensures forall t :: TypeOfCategory(CategoryOf(t)) == Some(t)
    ensures forall a :: TypeOfCategory(a).None? <==> a == AppliesOther
    ensures forall a :: TypeOfCategory(a).Some? ==> CategoryOf(TypeOfCategory(a).value) == a
  {
  }

  datatype NavItem = NavItem(
    href: string,
    labelText: string,
    disabled: bool,
    external: bool,
    submenu: Option<seq<NavItem>>,
    allowedRoles: Option<seq<string>>)

  /** An absent `departments` list behaves exactly like an empty one everywhere it is read. */
  datatype User = User(
    id: string,
    samAccountName: string,
    name: Option<string>,
    email: Option<string>,
    avatarUrl: Option<string>,
    roles: seq<string>,
    departments: seq<string>,
    nif: Option<string>)

  datatype Employee = Employee(
    id: string,
    fullName: string,
    nif: string,
    department: string,
    role: string,
    status: EmployeeStatus,
    onboardingRequestId: Option<string>,
    offboardingRequestId: Option<string>)

  datatype RequestedAccessItem = RequestedAccessItem(
    system: string,
    accessLevel: string,
    justification: string)

  /**
   * The open `details` record of a request. Every key is optional; an absent
   * `details` object reads like `NoDetails`. `employeeFullName` and
   * `requestTypeDefinitionId` are extra keys written by the offboarding and
   * onboarding forms.
   */
  datatype Details = Details(
    fullName: Option<string>,
    nif: Option<string>,
    role: Option<string>,
    department: Option<string>,
    lastDay: Option<Timestamp>,
    reason: Option<string>,
    requestedAccesses: Option<seq<RequestedAccessItem>>,
    multiSystemApprovalNote: Option<string>,
    rejectionReason: Option<string>,
    cancellationReason: Option<string>,
    employeeId: Option<string>,
    employeeFullName: Option<string>,
    requestTypeDefinitionId: Option<string>)

  const NoDetails: Details :=
    Details(None, None, None, None, None, None, None, None, None, None, None, None, None)

  datatype Request = Request(
    id: string,
    rtype: RequestType,
    requestTypeDefinitionId: Option<string>,
    employeeId: Option<string>,
    targetEmployeeId: Option<string>,
    requesterId: string,
    status: RequestStatus,
    createdAt: Timestamp,
    updatedAt: Timestamp,
    summary: Option<string>,
    assignedDepartment: Option<string>,
    details: Details)

  datatype TaskTemplate = TaskTemplate(
    id: string,
    title: string,
    description: Option<string>,
    assigneeDepartment: string,
    order: Option<int>)

  datatype ChecklistTemplate = ChecklistTemplate(
    id: string,
    name: string,
    requestTypeIdentifier: string,
    description: Option<string>,
    taskTemplates: seq<TaskTemplate>)

  datatype Task = Task(
    id: string,
    requestId: string,
    checklistTemplateId: Option<string>,
    taskTemplateId: Option<string>,
    title: string,
    description: Option<string>,
    assigneeDepartment: string,
    assigneeId: Option<string>,
    status: TaskStatus,
    observations: Option<string>,
    createdAt: Timestamp,
    updatedAt: Timestamp,
    dueDate: Option<Timestamp>,
    order: Option<int>,
    visibleFromDate: Option<Timestamp>)

  datatype Approval = Approval(
    id: string,
    requestId: string,
    approverId: string,
    status: ApprovalStatus,
    comments: Option<string>,
    createdAt: Timestamp,
    updatedAt: Timestamp,
    approvedAt: Option<Timestamp>)

  datatype Department = Department(id: string, name: string)

  datatype RequestTypeDefinition = RequestTypeDefinition(
    id: string,
    name: string,
    description: Option<string>,
    appliesTo: AppliesTo,
    checklistTemplateId: string,
    isEnabled: bool)

  datatype NotificationItem = NotificationItem(
    id: string,
    title: string,
    description: string,
    createdAt: Timestamp,
    read: bool,
    href: Option<string>)

  datatype System = System(id: string, name: string, requiresApprovalBy: Option<string>)

  datatype AccessLevel = AccessLevel(id: string, name: string)

  /** Every request status occurs exactly once in `AllRequestStatuses`. */
  lemma AllRequestStatusesComplete(s: RequestStatus)
    ensures s in AllRequestStatuses
    ensures |AllRequestStatuses| == 10
    ensures forall i, j :: 0 <= i < j < |AllRequestStatuses| ==> AllRequestStatuses[i] != AllRequestStatuses[j]
  {
  }
}
