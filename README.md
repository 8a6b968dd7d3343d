# Request management (Gestió Sol·licituds) — a Dafny model

The application lets an HR department and an IT department manage employee
onboarding, offboarding and access requests. All of its state is in-memory
tables: employees, application users, requests, tasks, approvals,
notifications, checklist templates, request-type definitions, systems,
departments and access levels. The form and list components mutate those
tables directly.

This project models what those components do to the tables:

- creating requests, which covers:
  - validating the input;
  - routing approvals from each system's `requiresApprovalBy` policy;
  - resolving the approver;
  - one task per checklist template entry;
  - deactivating the employee and creating one revocation task per system on offboarding;
  - notifications;
- the department transfer of a request;
- the approve/reject action of the approvals list;
- editing checklist templates: move, delete and renumber tasks, the task dialog, and saving;
- the create/edit forms of the catalogue tables, with their duplicate-id checks;
- the delete guards of users, departments and checklist templates;
- the role-based navigation filter;
- pagination, the request list's sort and labels, the mock id generator, and the HSL colour parser;
- the sample fixture tables, with scenario lemmas over them.

How the model is organised:

- Entities are datatypes (`Types`).
- The tables are the `seq` fields of one `DataStore.Store` object.
- The per-prefix counters of the id generator are the `map` field of an `IdGenerator.IdGen` object.
- Each handler is a method that `modifies` the store (and the generator).
  Its `ensures` tie the new tables to pure functions of the old ones.
  Lemmas about those functions state what the handler promises.
- Components that keep state (the current page, the dialog, the editor's task
  list, the open submenus, the colour values) are classes whose methods update their fields.
- A zod schema is a predicate. A submission that fails it gets an explicit
  invalid outcome and changes nothing.
- Clock values (`new Date()`, `Date.now()`) are integer parameters. One handler call uses one value.
- ISO date strings are integer timestamps. The fixture's dates are encoded
  as `yyyy·10^8 + month·10^6 + day·10^4 + hhmm`, which preserves their order.

## Model

| member | source | states |
|---|---|---|
| Types.EffectiveOrder | src/components/checklist-templates/ChecklistTemplateForm.tsx:95 | `order \|\| index + 1`: a present non-zero order is kept, a missing or zero one becomes the 1-based position; never 0 |
| Types.CategoryOf | src/types/index.ts:36 | a request's type always names one of the three categories, never "other" |
| Types.CategoriesCorrespond | src/types/index.ts:146 | the three request types and the `appliesTo` values other than "other" correspond one to one, in both directions |
| Types.AllRequestStatusesComplete | src/types/index.ts:38-48 | the request status union has exactly ten pairwise distinct values, and every status is among them |
| DataStore.Store.constructor | lib/sample-data.ts:4-434 | the store starts with exactly the given tables |
| IdGenerator.MockId | src/lib/id-generator.ts:12-23 | the id `generateMockId` formats from a prefix, a counter value and the clock; `MockIdShape` and `MockIdDistinct` state its shape and that distinct counter values never collide |
| IdGenerator.ManualOr | src/components/admin/departments/DepartmentForm.tsx:68 | `manual \|\| generated`: a typed id wins, an empty one falls back to the generated id |
| IdGenerator.IdGen.constructor | src/lib/id-generator.ts:3 | the counter table starts empty |
| IdGenerator.IdGen.Next | src/lib/id-generator.ts:12-23 | a call adds the prefix to the counters (initialised to 0), bumps only that prefix's counter by one, and returns the id built from the bumped value and the clock |
| IdGenerator.IdGen.ManualOrNext | src/components/admin/departments/DepartmentForm.tsx:68 | the generator is called only when no id was typed: a typed id leaves every counter unchanged, otherwise exactly that prefix's counter moves by one |
| IdGenerator.FirstCallUsesOne | src/lib/id-generator.ts:13-19 | the first call for a fresh prefix formats the counter value 1 as "001" |
| IdGenerator.MockIdShape | src/lib/id-generator.ts:22 | an id is the upper-cased prefix, "_", the counter padded with zeros to at least three digits that read back as the counter, "_", and one to six digits of the clock (exactly six once the clock has six digits) |
| IdGenerator.MockIdDistinct | src/lib/id-generator.ts:19-22 | two ids with the same prefix and different counter values differ, whatever the two clock values |
| Text.NatToStringValue | src/lib/id-generator.ts:22 | `toString()` of a number reads back as that number |
| Text.PaddedValue | src/lib/id-generator.ts:22 | `padStart(width, '0')` of a number's digits still reads back as that number |
| Text.UpperKeepsUnderscore | src/lib/id-generator.ts:22 | upper-casing keeps '_' and digits in place |
| Text.SplitJoin | src/components/admin/users/UserForm.tsx:72 | splitting on a separator and joining with it gives the string back |
| Text.StringBeforeAsymmetric | src/components/admin/systems/SystemForm.tsx:65 | the default `sort()` order of strings, element by element with a proper prefix first, never puts two strings before each other |
| Text.StringBeforeTotal | src/components/admin/systems/SystemForm.tsx:65 | of two different strings one is before the other |
| Text.InsertString | src/components/admin/systems/SystemForm.tsx:65 | inserting a string into a list adds one element, and the last element is the inserted string or the old last one |
| Text.InsertStringSorted | src/components/admin/systems/SystemForm.tsx:65 | inserting keeps a list sorted in that order |
| Text.InsertStringPerm | src/components/admin/systems/SystemForm.tsx:65 | inserting adds exactly the one string to the multiset of strings |
| Text.InsertStringAscending | src/components/admin/systems/SystemForm.tsx:65 | inserting a new string into a strictly ascending list keeps it strictly ascending |
| Text.SortStrings | src/components/admin/systems/SystemForm.tsx:65 | the sort returns as many strings as it is given |
| Text.SortStringsSorted | src/components/admin/systems/SystemForm.tsx:65 | the sorted list has no string before its predecessor |
| Text.SortStringsPerm | src/components/admin/systems/SystemForm.tsx:65 | the sorted list holds exactly the strings given, each as often |
| Text.SortStringsMembers | src/components/admin/systems/SystemForm.tsx:65 | a string is in the sorted list exactly when it is in the input |
| Text.SortStringsAscending | src/components/admin/systems/SystemForm.tsx:65 | pairwise distinct strings come out strictly ascending |
| Text.TrimKeepsChars | src/components/admin/users/UserForm.tsx:72 | `trim()` only removes characters: every character of the result occurs in the input |
| Text.Trim | src/components/admin/users/UserForm.tsx:72 | `trim()`: the result is empty or starts and ends with a character outside the ECMAScript white-space and line-terminator set |
| Text.TrimShape | src/components/admin/users/UserForm.tsx:72 | `trim()` returns a slice of its input with only white space before and after it |
| Pagination.TotalPages | src/components/approvals/ApprovalList.tsx:76 | `Math.ceil(n / 10)`: the fewest pages of ten that hold n rows; zero pages exactly for no rows |
| Pagination.PreviousPage | src/components/approvals/ApprovalList.tsx:82 | "previous" goes back one page and never below page 1 |
| Pagination.NextPage | src/components/approvals/ApprovalList.tsx:86 | "next" goes forward one page and never beyond the last page |
| Pagination.PageRowsShape | src/components/approvals/ApprovalList.tsx:77-79 | a page shows at most ten rows, exactly the rows from position (page-1)·10 on; every page up to the total shows at least one row, and a page past the total shows none |
| Pagination.PagesCoverList | src/components/requests/RequestList.tsx:112-116 | pages 1 to the total, read in order, are the whole list: no row skipped or shown twice |
| Pagination.ButtonsStayInRange | src/components/checklist-templates/ChecklistTemplateManager.tsx:50-61 | inside [1, total] the buttons keep the page inside [1, total]; at the ends they do nothing |
| Pagination.LoneRowDeleted | src/components/admin/departments/DepartmentList.tsx:106-107 | when the deleted row was alone on a page p > 1 the list had (p-1)·10 + 1 rows, so there are now p-1 pages |
| Pagination.PageAfterDelete | src/components/checklist-templates/ChecklistTemplateManager.tsx:86-87 | after a delete the page steps back by one exactly when the deleted row was alone on a page after the first, and otherwise stays |
| Pagination.GuardedPageAfterDeleteSame | src/components/admin/users/UserList.tsx:112-113 | the users list's extra `totalPages > 1` test never changes the outcome |
| Pagination.PageAfterDeleteLandsOnLastPage | src/components/admin/departments/DepartmentList.tsx:106-107 | stepping back after deleting a lone row lands on the new last page |
| Nif.ValidNif | src/components/employees/EmployeeForm.tsx:28 | the NIF/NIE pattern `^[XYZ\d]\d{7}[A-Z]$\|^[A-HJ-NP-SUVW]\d{7}[A-J\d]$` as the alternation of two lead classes, seven digits and a control class; `ScanMatchesPattern` ties it to an independent automaton |
| Nif.NifAlternatives | src/components/employees/EmployeeForm.tsx:28 | an accepted NIF has nine characters with seven digits after the lead; the two regex alternatives never overlap: a personal lead (X, Y, Z or a digit) needs an upper-case control letter, an organisation lead needs A-J or a digit; I, O and T never lead |
| Nif.FailedStays | src/components/employees/EmployeeForm.tsx:28 | once the scan of the pattern has failed, no further character makes it match |
| Nif.DigitsScan | src/components/employees/EmployeeForm.tsx:28 | after a lead and k of the seven digits, the scan matches exactly the remaining digits followed by one control character of that alternative |
| Nif.ScanMatchesPattern | src/components/employees/EmployeeForm.tsx:28 | a left-to-right automaton for the regular expression accepts exactly the strings the alternation accepts, on every input |
| Collections.Dedup | src/components/requests/OffboardingRequestForm.tsx:181-187 | what a `Set` filled in list order holds: exactly the elements of the input, each once |
| Collections.DedupSnoc | src/components/requests/OffboardingRequestForm.tsx:185 | `add` of an element already present keeps the set, otherwise appends it at the end of the iteration order |
| Collections.FilterDropsOne | src/components/checklist-templates/ChecklistTemplateManager.tsx:83 | filtering out the one element that fails the test is the same as splicing out its position |
| Lookups.FindRequestType | src/components/requests/AccessRequestForm.tsx:106 | `find` of a request-type definition by id: the definition at the first index holding that id, and nothing exactly when none has it |
| Lookups.EmployeeIndex | src/components/requests/OffboardingRequestForm.tsx:133 | `findIndex` of an employee by id: the first index holding that id; -1 (None) exactly when no employee has it |
| Lookups.RequestIndex | src/components/requests/RequestTransferControls.tsx:40 | `findIndex` of a request by id: the first index holding that id; None exactly when no request has it |
| Lookups.FindUser | src/components/approvals/ApprovalList.tsx:56 | `find` of a user by id: the user at the first index holding that id, and nothing exactly when none has it |
| Lookups.FindRequest | src/components/approvals/ApprovalList.tsx:52 | `find` of a request by id: the request at the first index holding that id |
| Lookups.FindEmployee | src/components/requests/OffboardingRequestForm.tsx:97 | `find` of an employee by id: the employee at the first index holding that id |
| Lookups.ChecklistFor | src/components/requests/AccessRequestForm.tsx:220-222 | the checklist a request type names: the one at the first index holding that id, and nothing exactly when no checklist has it |
| Lookups.ChecklistIndex | src/components/checklist-templates/ChecklistTemplateForm.tsx:152 | `findIndex` of a checklist template by id: first index holding it, None exactly when absent |
| Lookups.UserIndex | src/components/admin/users/UserForm.tsx:82 | `findIndex` of a user by id: first index holding it, None exactly when absent |
| Lookups.DepartmentIndex | src/components/admin/departments/DepartmentForm.tsx:60 | `findIndex` of a department by id: first index holding it, None exactly when absent |
| Lookups.SystemIndex | src/components/admin/systems/SystemForm.tsx:106 | `findIndex` of a system by id: first index holding it, None exactly when absent |
| Lookups.AccessLevelIndex | src/components/admin/access-levels/AccessLevelForm.tsx:57 | `findIndex` of an access level by id: first index holding it, None exactly when absent |
| Lookups.RequestTypeIndex | src/components/admin/request-types/RequestTypeDefinitionForm.tsx:70 | `findIndex` of a request-type definition by id: first index holding it, None exactly when absent |
| Lookups.NifIndex | src/components/employees/EmployeeForm.tsx:109-112 | `findIndex` of an employee by NIF: the first index holding it, None exactly when nobody has it |
| AccessRequestForm.ValidItem | src/components/requests/AccessRequestForm.tsx:42-46 | an item names a system and an access level and has a justification of at least ten characters |
| AccessRequestForm.ValidInput | src/components/requests/AccessRequestForm.tsx:48-54 | the form schema: a target, a request type and one to five valid items; `Submit` refuses exactly the input outside it |
| AccessRequestForm.PolicyOf | src/components/requests/AccessRequestForm.tsx:131-132 | an item's policy is present exactly when the first system with the item's name has a non-empty `requiresApprovalBy` |
| AccessRequestForm.PolicyOfFirst | src/components/requests/AccessRequestForm.tsx:131-132 | the policy is read from the first system carrying the item's name, and is that system's non-empty `requiresApprovalBy` |
| AccessRequestForm.ResolveRole | src/components/requests/AccessRequestForm.tsx:138-144 | a "Rol:" policy picks the first user who holds the role and belongs to "Informàtica"; failing that, the first IT Manager, whose id is taken unless it is empty; failing that, "user_005" |
| AccessRequestForm.ResolveApprover | src/components/requests/AccessRequestForm.tsx:137-149 | "Rol:" policies resolve the role after the five-character prefix; "Usuari:" policies pick the first user whose name or login equals the text after eight characters, and keep the previous approver when nobody matches; any other policy keeps the previous approver |
| AccessRequestForm.RouteNeedsApproval | src/components/requests/AccessRequestForm.tsx:130-133 | the request needs approval exactly when some requested item's system has a policy |
| AccessRequestForm.RoutePolicies | src/components/requests/AccessRequestForm.tsx:127-134 | the collected set of policies holds exactly the policies of the requested items |
| AccessRequestForm.RouteUngated | src/components/requests/AccessRequestForm.tsx:123-128 | when no item has a policy the routing keeps its initial values: no approval, no policies, approver "user_005" |
| AccessRequestForm.RouteTrailingUngated | src/components/requests/AccessRequestForm.tsx:130-151 | items without a policy at the end of the list do not change the routing |
| AccessRequestForm.LastFlaggedItemWins | src/components/requests/AccessRequestForm.tsx:130-151 | the approver is the one resolved for the last item with a policy, starting from the approver left by the items before it |
| AccessRequestForm.ApprovalNote | src/components/requests/AccessRequestForm.tsx:153-155 | the multi-system note is set exactly when more than one distinct policy was collected, and is the fixed text |
| AccessRequestForm.TwoPoliciesGiveNote | src/components/requests/AccessRequestForm.tsx:153-155 | two items with different policies always produce the note |
| AccessRequestForm.ComputeRouting | src/components/requests/AccessRequestForm.tsx:123-151 | the `forEach` loop over the items computes exactly the routing `Route` defines |
| AccessRequestForm.EmployeeLabel | src/components/requests/AccessRequestForm.tsx:204 | the employee's name, or "l'empleat seleccionat", is never empty |
| AccessRequestForm.InitialStatus | src/components/requests/AccessRequestForm.tsx:164-165 | the status is "pendingManagerApproval" exactly when approval is needed, and "pending" otherwise |
| AccessRequestForm.NoteComment | src/components/requests/AccessRequestForm.tsx:174 | the approval comment is present exactly with the note, and is "Nota: " followed by it |
| AccessRequestForm.TemplateTasks | src/components/requests/AccessRequestForm.tsx:225-241 | one task per task template |
| AccessRequestForm.TemplateTasksSnoc | src/components/requests/AccessRequestForm.tsx:225-241 | each further template appends exactly its own task, with the next task id |
| AccessRequestForm.ChecklistTasks | src/components/requests/AccessRequestForm.tsx:224-241 | a checklist yields as many tasks as it has templates |
| AccessRequestForm.TemplateTasksAt | src/components/requests/AccessRequestForm.tsx:226-239 | the k-th task is built from the k-th template with the (first+k)-th task id |
| AccessRequestForm.ChecklistTasksFollowTemplates | src/components/requests/AccessRequestForm.tsx:226-239 | every k-th task is pending, belongs to the new request, copies the k-th template's department, order, description and id and the checklist id, and has its own generated id |
| AccessRequestForm.ChecklistTaskIdsDistinct | src/components/requests/AccessRequestForm.tsx:226 | the generated task ids of one submission are pairwise distinct |
| AccessRequestForm.ChecklistTaskIdAt | src/components/requests/AccessRequestForm.tsx:226 | the k-th task's id uses the counter value first + k |
| AccessRequestForm.PrefixesDistinct | src/components/requests/AccessRequestForm.tsx:120-249 | the five id prefixes a submission draws from are pairwise distinct, so their counters are independent |
| AccessRequestForm.PushChecklistTasks | src/components/requests/AccessRequestForm.tsx:225-241 | the loop appends exactly the checklist's tasks to the tasks table and draws one task id per template, leaving the other counters alone |
| AccessRequestForm.NewRequestShape | src/components/requests/AccessRequestForm.tsx:196-208 | the new request has the new id, type "access", department "Informàtica", the chosen target employee, the current user as requester and the requested items as input; its status is "pendingManagerApproval" exactly when some item is gated and "pending" exactly when none is |
| AccessRequestForm.SubmissionApprovals | src/components/requests/AccessRequestForm.tsx:164-176 | the approvals table keeps its rows and gains one row exactly when some item is gated; that row is pending, names the new request and the resolved approver, and carries the note comment |
| AccessRequestForm.SubmissionNotifications | src/components/requests/AccessRequestForm.tsx:179-193 | the creation notification (linking to the request) is always prepended; an "approval required" one (linking to the approvals page) comes after it exactly when the request is gated; the old list follows unchanged |
| AccessRequestForm.RecordApproval | src/components/requests/AccessRequestForm.tsx:164-194 | a gated request gets its approval row and its approval notification, each with one id drawn; an ungated one changes nothing |
| AccessRequestForm.OpenRequest | src/components/requests/AccessRequestForm.tsx:120-209 | draws the request id, computes the routing, records the approval when gated and appends the new request |
| AccessRequestForm.AttachTasks | src/components/requests/AccessRequestForm.tsx:220-247 | appends the tasks of the checklist the request type names, or none when no checklist has that id |
| AccessRequestForm.AnnounceCreation | src/components/requests/AccessRequestForm.tsx:249-258 | prepends exactly one creation notification with a freshly drawn id |
| AccessRequestForm.CloseRequest | src/components/requests/AccessRequestForm.tsx:220-258 | appends the checklist's tasks and then prepends the creation notification |
| AccessRequestForm.Create | src/components/requests/AccessRequestForm.tsx:118-258 | the whole state change of a valid submission: one request appended, the approval (when gated), the checklist's tasks, the notifications, and exactly the counters of the five prefixes moved |
| AccessRequestForm.Submit | src/components/requests/AccessRequestForm.tsx:42-116 | a submission outside the schema (1 to 5 items, each with a system, an access level and a justification of at least 10 characters), without a current user, or naming an unknown request type changes nothing; every valid submission with a current user and a known request type is created, as `Create` states |
| OffboardingRequestForm.ValidInput | src/components/requests/OffboardingRequestForm.tsx:33-38 | the schema: a target, a request type, a last day and a reason of at least ten characters; `Submit` refuses exactly the input outside it |
| OffboardingRequestForm.PrefixesDistinct | src/components/requests/OffboardingRequestForm.tsx:106-213 | the four id prefixes an offboarding submission draws from are pairwise distinct |
| OffboardingRequestForm.NewRequestShape | src/components/requests/OffboardingRequestForm.tsx:111-127 | the new request has the new id, type "offboarding", status "pending", the target as `employeeId` (no `targetEmployeeId`), department "Recursos Humans", the current user as requester, and the chosen last day and reason in its details |
| OffboardingRequestForm.DeactivateOnlyTarget | src/components/requests/OffboardingRequestForm.tsx:133-138 | only the first employee with the target id changes: it becomes inactive and points at the new request, all its other fields and every other employee are kept; an unknown id changes nothing |
| OffboardingRequestForm.DeactivateEmployee | src/components/requests/OffboardingRequestForm.tsx:133-138 | the in-place update of the employees table is exactly `Deactivate` |
| OffboardingRequestForm.TemplateTasks | src/components/requests/OffboardingRequestForm.tsx:146-165 | the first k templates give k tasks |
| OffboardingRequestForm.TemplateTasksSnoc | src/components/requests/OffboardingRequestForm.tsx:146-165 | each further template appends exactly its own task, with the next task id |
| OffboardingRequestForm.TemplateTasksAt | src/components/requests/OffboardingRequestForm.tsx:147-163 | the j-th task is built from the j-th template with the (first+j)-th id |
| OffboardingRequestForm.TemplateTasksFollowTemplates | src/components/requests/OffboardingRequestForm.tsx:146-165 | every k-th template task is pending, belongs to the new request, is visible from and due on the last day, copies the template's department, description and ids, and has the template's order, or k + 1 when that order is missing or zero |
| OffboardingRequestForm.PushTemplateTasks | src/components/requests/OffboardingRequestForm.tsx:144-165 | the loop appends exactly the template tasks, draws one id per template and returns the order of the last one (0 for none) |
| OffboardingRequestForm.AttachTemplateTasks | src/components/requests/OffboardingRequestForm.tsx:140-171 | with the checklist found its tasks are appended; with none found no task is added and the last order stays 0 |
| OffboardingRequestForm.ItemSystems | src/components/requests/OffboardingRequestForm.tsx:183-185 | the system names of a request's items, in item order |
| OffboardingRequestForm.AccessSystemsMembers | src/components/requests/OffboardingRequestForm.tsx:174-187 | a system name is collected exactly when some access request for this employee with status "completed" or "approved" lists it |
| OffboardingRequestForm.SystemsToRevokeExactly | src/components/requests/OffboardingRequestForm.tsx:174-187 | the systems to revoke are exactly the systems granted to the employee by completed or approved access requests, each once |
| OffboardingRequestForm.AppendUnqualifiedRequest | src/components/requests/OffboardingRequestForm.tsx:174-178 | a request that is not a completed or approved access request for this employee, such as the offboarding request just pushed, adds no system |
| OffboardingRequestForm.AccessSystemsSnoc | src/components/requests/OffboardingRequestForm.tsx:181-187 | scanning one more request adds that request's systems after the ones already seen |
| OffboardingRequestForm.AddItemSystems | src/components/requests/OffboardingRequestForm.tsx:183-185 | the inner loop adds a request's systems to the set |
| OffboardingRequestForm.CollectSystemsToRevoke | src/components/requests/OffboardingRequestForm.tsx:174-187 | the filter and the two loops compute exactly `SystemsToRevoke` |
| OffboardingRequestForm.RevocationTasksUpTo | src/components/requests/OffboardingRequestForm.tsx:191-208 | the first n systems give n revocation tasks |
| OffboardingRequestForm.RevocationTasksSnoc | src/components/requests/OffboardingRequestForm.tsx:191-208 | each further system appends its own revocation task, with the next id and the next order |
| OffboardingRequestForm.RevocationTasks | src/components/requests/OffboardingRequestForm.tsx:190-208 | one revocation task per system to revoke |
| OffboardingRequestForm.RevocationTasksAt | src/components/requests/OffboardingRequestForm.tsx:192-205 | the k-th revocation task is for the k-th system, with the (first+k)-th id and order base + k + 1 |
| OffboardingRequestForm.RevocationTasksShape | src/components/requests/OffboardingRequestForm.tsx:189-208 | every revocation task is pending, belongs to the new request, is assigned to "Informàtica", is visible from and due on the last day, comes from no checklist, and numbers its order on from the last template order |
| OffboardingRequestForm.RevocationTaskAtFields | src/components/requests/OffboardingRequestForm.tsx:192-205 | the revocation task of system k is pending, belongs to the new request, goes to "Informàtica", is visible from and due on the last day, has order base + k + 1, the (first+k)-th revocation id and a title naming the system and the employee |
| OffboardingRequestForm.PushRevocationTask | src/components/requests/OffboardingRequestForm.tsx:192-207 | one step appends one revocation task and draws one id |
| OffboardingRequestForm.PushRevocationTasks | src/components/requests/OffboardingRequestForm.tsx:189-208 | the loop appends exactly the revocation tasks and draws one id per system |
| OffboardingRequestForm.RevokeAccesses | src/components/requests/OffboardingRequestForm.tsx:173-211 | collects the systems and appends one revocation task for each |
| OffboardingRequestForm.OpenRequest | src/components/requests/OffboardingRequestForm.tsx:106-128 | draws the request id and appends the new request |
| OffboardingRequestForm.Announce | src/components/requests/OffboardingRequestForm.tsx:213-222 | prepends exactly one notification with a freshly drawn id |
| OffboardingRequestForm.AddTasks | src/components/requests/OffboardingRequestForm.tsx:140-211 | appends the template tasks followed by the revocation tasks, whose orders continue from the last template order |
| OffboardingRequestForm.CloseRequest | src/components/requests/OffboardingRequestForm.tsx:140-222 | appends all tasks and prepends the notification |
| OffboardingRequestForm.Create | src/components/requests/OffboardingRequestForm.tsx:104-222 | the whole state change of a valid submission: the request appended, the employee deactivated, the template and revocation tasks appended, one notification prepended, exactly the four prefixes' counters moved |
| OffboardingRequestForm.Submit | src/components/requests/OffboardingRequestForm.tsx:33-102 | a submission outside the schema (a target, a request type, a last day, a reason of at least 10 characters), without a current user, with an unknown request type or with an unknown employee changes nothing; every valid submission with a current user, a known request type and a known employee is created, as `Create` states |
| OffboardingRequestForm.OffboardingTaskCount | src/components/requests/OffboardingRequestForm.tsx:146-208 | an offboarding creates as many tasks as the checklist has templates plus the number of distinct systems to revoke |
| OffboardingRequestForm.MissingChecklist | src/components/requests/OffboardingRequestForm.tsx:144-189 | without a checklist there are no template tasks, the last order stays 0, and the revocation tasks are numbered from 1 |
| EmployeeForm.OnboardingTypes | src/components/employees/EmployeeForm.tsx:61-63 | the selectable request types are exactly the enabled definitions that apply to onboarding |
| EmployeeForm.PrefixesDistinct | src/components/employees/EmployeeForm.tsx:99-165 | the four id prefixes an onboarding draws from are pairwise distinct |
| EmployeeForm.ValidBase | src/components/employees/EmployeeForm.tsx:26-31 | the editing schema: a name of at least three characters, a NIF matching `ValidNif`, a department and a role; `Submit` refuses exactly the input outside it |
| EmployeeForm.ValidOnboarding | src/components/employees/EmployeeForm.tsx:33-35 | the onboarding schema: the editing schema plus a chosen request type |
| EmployeeForm.EditTable | src/components/employees/EmployeeForm.tsx:75-83 | the employees table after an edit; `EditOnlyTarget` states what changes and what is kept |
| EmployeeForm.EditOnlyTarget | src/components/employees/EmployeeForm.tsx:74-83 | editing replaces only the full name, department and role of the first employee with the id; id, NIF, status and both request links are kept, other employees are untouched, an unknown id changes nothing |
| EmployeeForm.SaveEdit | src/components/employees/EmployeeForm.tsx:75-83 | the in-place update of the employees table is exactly `EditTable` |
| EmployeeForm.RegistrationByNif | src/components/employees/EmployeeForm.tsx:109-114 | a NIF nobody has appends the new employee and keeps its id; a NIF already present leaves the table unchanged; either way the returned id belongs to an employee with that NIF, and distinct NIFs stay distinct |
| EmployeeForm.RegisterEmployee | src/components/employees/EmployeeForm.tsx:99-114 | draws one employee id (even when it ends up unused) and registers the employee by NIF |
| EmployeeForm.NewRequestShape | src/components/employees/EmployeeForm.tsx:116-128 | the onboarding request has status "pending", the (possibly reused) employee id, requester "user_003", no department, the chosen request type, and the NIF and employee id in its details |
| EmployeeForm.TemplateTasks | src/components/employees/EmployeeForm.tsx:141-157 | one task per template |
| EmployeeForm.TemplateTasksSnoc | src/components/employees/EmployeeForm.tsx:141-157 | each further template appends exactly its own task with the next id |
| EmployeeForm.TemplateTasksAt | src/components/employees/EmployeeForm.tsx:142-155 | the k-th task is built from the k-th template with the (first+k)-th id |
| EmployeeForm.TemplateTasksFollowTemplates | src/components/employees/EmployeeForm.tsx:141-157 | every k-th task is pending, belongs to the request, copies the template's department, order, description and ids, has no due date, and its own id |
| EmployeeForm.TasksForCount | src/components/employees/EmployeeForm.tsx:135-163 | as many tasks as the checklist has templates, and none when the checklist is missing |
| EmployeeForm.PushTemplateTasks | src/components/employees/EmployeeForm.tsx:141-157 | the loop appends exactly the template tasks, one id per template |
| EmployeeForm.OpenRequest | src/components/employees/EmployeeForm.tsx:116-129 | draws the request id and appends the onboarding request |
| EmployeeForm.AttachTasks | src/components/employees/EmployeeForm.tsx:135-163 | appends the checklist's tasks, or none |
| EmployeeForm.Announce | src/components/employees/EmployeeForm.tsx:165-174 | prepends exactly one notification with a freshly drawn id |
| EmployeeForm.CloseRequest | src/components/employees/EmployeeForm.tsx:135-174 | appends the tasks, then prepends the notification |
| EmployeeForm.Onboard | src/components/employees/EmployeeForm.tsx:99-175 | the state change of an onboarding: employee registered by NIF, request appended, tasks appended, one notification prepended, exactly the four prefixes' counters moved |
| EmployeeForm.Submit | src/components/employees/EmployeeForm.tsx:26-97 | input outside the schema (name of at least 3 characters, a valid NIF, a department and a role, plus a request type when creating) or an unknown request type changes nothing; every valid edit is saved, updating only the employee in place; every valid creation with a known request type onboards, as `Onboard` states |
| RequestTransferControls.TransferFields | src/components/requests/RequestTransferControls.tsx:42-52 | a transfer sets the department and the update time and keeps id, type, summary, details, requester, employees, creation time and request type; moving an onboarding request from "Informàtica" to "Recursos Humans" forces "pendingHRProcessing"; otherwise "pendingManagerApproval" and "pendingFinalValidation" (as shown on screen) reset to "pending"; any other status is kept |
| RequestTransferControls.CompletedOnboardingReopens | src/components/requests/RequestTransferControls.tsx:46-52 | there is no terminal-status guard: a completed onboarding request moved from IT to HR becomes "pendingHRProcessing" again |
| RequestTransferControls.TransferredStatusRange | src/components/requests/RequestTransferControls.tsx:46-52 | a transfer's status is "pendingHRProcessing", "pending" or the status it had, nothing else |
| RequestTransferControls.TransferOnlyTarget | src/components/requests/RequestTransferControls.tsx:40-44 | only the first request with the id changes; an unknown id changes nothing |
| RequestTransferControls.HandleTransfer | src/components/requests/RequestTransferControls.tsx:28-80 | an empty selection or the current department changes nothing; an unknown request changes nothing; otherwise the request is transferred in place and exactly one transfer notification, naming the old department, is prepended with one id drawn |
| ApprovalList.RequestStatusFor | src/components/approvals/ApprovalList.tsx:98 | "approve" maps to request status "approved" and "reject" to "rejected", nothing else |
| ApprovalList.RequestTypeLabel | src/components/approvals/ApprovalList.tsx:60-67 | `formatRequestTypeForDisplay`: the label of each of the three request types |
| ApprovalList.UserName | src/components/approvals/ApprovalList.tsx:55-58 | an unknown user shows "N/A"; a known one shows its non-empty name, else its non-empty login, else "N/A"; never empty |
| ApprovalList.Rows | src/components/approvals/ApprovalList.tsx:138-140 | each rendered row pairs a shown approval with the request its id finds |
| ApprovalList.RowsExactlyFound | src/components/approvals/ApprovalList.tsx:138-140 | an approval gets a row exactly when it is on the page and its request is found |
| ApprovalList.AsWrittenStatusUndeclared | src/components/approvals/ApprovalList.tsx:42-100 | the value passed as the new approval status ("approve" or "reject") is not one of the declared values "approved"/"rejected" |
| ApprovalList.DecisionString | src/components/approvals/ApprovalList.tsx:42 | the declared approval status for a decision: "approved" exactly for approve |
| ApprovalList.CallAsWritten | src/components/approvals/ApprovalList.tsx:97-100 | the callback as written receives the approval id, the request id, the comment, the dialog kind as approval status and the mapped request status; "approve" goes with request status "approved" and nothing else |
| ApprovalList.Call | src/components/approvals/ApprovalList.tsx:97-100 | the callback receives the approval id, the request id, the comment, a declared approval status and the mapped request status, consistently |
| ApprovalList.CallsDifferOnlyInStatus | src/components/approvals/ApprovalList.tsx:100 | the call as written and the corrected call agree in everything but the approval status, and they do differ |
| ApprovalList.ApprovalListView.constructor | src/components/approvals/ApprovalList.tsx:71-73 | the view starts on page 1 with an empty comment and no dialog |
| ApprovalList.ApprovalListView.Previous | src/components/approvals/ApprovalList.tsx:81-83 | the page becomes `PreviousPage` of the old one; dialog and comment untouched |
| ApprovalList.ApprovalListView.Next | src/components/approvals/ApprovalList.tsx:85-87 | the page becomes `NextPage` of the old one within the approvals' page count; dialog and comment untouched |
| ApprovalList.ApprovalListView.SetComment | src/components/approvals/ApprovalList.tsx:72 | typing replaces only the comment |
| ApprovalList.ApprovalListView.OpenActionDialog | src/components/approvals/ApprovalList.tsx:89-92 | opening the dialog records the approval, request and action and pre-fills the comment with the approval's comments or "" |
| ApprovalList.ApprovalListView.ExecuteAction | src/components/approvals/ApprovalList.tsx:94-110 | with no dialog open nothing happens and no call is made; otherwise exactly one call is made, the one `CallAsWritten` builds, whose approval status is not a declared one, and the dialog and comment are reset |
| ChecklistTemplateForm.ValidTask | src/components/checklist-templates/ChecklistTemplateForm.tsx:55-61 | a task row has a title of at least three characters and a department |
| ChecklistTemplateForm.ValidTemplate | src/components/checklist-templates/ChecklistTemplateForm.tsx:63-69 | the template schema: a name of at least three characters, a request-type identifier, and valid task rows; `Editor.Submit` refuses exactly the input outside it |
| ChecklistTemplateForm.Renumbered | src/components/checklist-templates/ChecklistTemplateForm.tsx:104-110 | renumbering keeps the number of tasks |
| ChecklistTemplateForm.RenumberedShape | src/components/checklist-templates/ChecklistTemplateForm.tsx:104-110 | after renumbering the task at index i has order i + 1 and the tasks are otherwise unchanged; a list already numbered 1..n is left alone; renumbering twice is renumbering once |
| ChecklistTemplateForm.RenumberedSameTasks | src/components/checklist-templates/ChecklistTemplateForm.tsx:104-110 | renumbering looks only at the tasks, not at their old orders |
| ChecklistTemplateForm.Swap | src/components/checklist-templates/ChecklistTemplateForm.tsx:115-119 | swapping two positions of the copied array keeps its length |
| ChecklistTemplateForm.MoveUpEffect | src/components/checklist-templates/ChecklistTemplateForm.tsx:112-122 | moving up the first task does nothing; otherwise the task and the one above exchange places, the others stay, and the orders become 1..n |
| ChecklistTemplateForm.MoveDownEffect | src/components/checklist-templates/ChecklistTemplateForm.tsx:124-134 | moving down the last task does nothing; otherwise the task and the one below exchange places, the others stay, and the orders become 1..n |
| ChecklistTemplateForm.MoveUpThenDown | src/components/checklist-templates/ChecklistTemplateForm.tsx:112-134 | moving a task up and then down again gives the renumbered original list, and the original list itself when it was already numbered |
| ChecklistTemplateForm.MoveDownThenUp | src/components/checklist-templates/ChecklistTemplateForm.tsx:112-134 | moving a task down and then up again gives the renumbered original list |
| ChecklistTemplateForm.DeleteTaskEffect | src/components/checklist-templates/ChecklistTemplateForm.tsx:258-262 | deleting removes exactly the task at the index, keeps the others in order and renumbers them 1..n-1 |
| ChecklistTemplateForm.MaxOrder | src/components/checklist-templates/ChecklistTemplateForm.tsx:178 | `Math.max` of the orders (a missing order counts as 0): an upper bound that some task attains |
| ChecklistTemplateForm.NewTaskOrder | src/components/checklist-templates/ChecklistTemplateForm.tsx:178 | a new task's order is one more than the largest order, greater than every existing order, and 1 for an empty list |
| ChecklistTemplateForm.NewTaskOrderNumbered | src/components/checklist-templates/ChecklistTemplateForm.tsx:178 | on a list numbered 1..n the new task gets order n + 1 |
| ChecklistTemplateForm.GeneratedLocalPrefixIsUpper | src/lib/id-generator.ts:22 | the generator writes the prefix "task_local" as "TASK_LOCAL_" |
| ChecklistTemplateForm.LocalIdAsWritten | src/components/checklist-templates/ChecklistTemplateForm.tsx:247 | the cancel handler's `startsWith('task_local_')` test: an id it accepts starts with a lower-case 't' |
| ChecklistTemplateForm.LocalId | src/components/checklist-templates/ChecklistTemplateForm.tsx:247 | the corrected local-id test accepts every id the written one does, and also the upper-cased ids the generator writes |
| ChecklistTemplateForm.NewIdAsWritten | src/components/checklist-templates/ChecklistTemplateForm.tsx:146 | the save handler's `task_new_`/`task_local_` test: an id it accepts starts with a lower-case 't' |
| ChecklistTemplateForm.NewId | src/components/checklist-templates/ChecklistTemplateForm.tsx:146 | the corrected save-handler test accepts every id the written one does |
| ChecklistTemplateForm.GeneratedLocalIdMissed | src/components/checklist-templates/ChecklistTemplateForm.tsx:146-247 | every id the new-task dialog generates fails the lower-case `task_local_` and `task_new_` tests as written, and passes the corrected tests |
| ChecklistTemplateForm.SaveEditedRow | src/components/checklist-templates/ChecklistTemplateForm.tsx:212-238 | saving the dialog for row i replaces exactly that row and renumbers 1..n |
| ChecklistTemplateForm.NewTaskSaved | src/components/checklist-templates/ChecklistTemplateForm.tsx:219-238 | saving a new task replaces the placeholder that was appended for it |
| ChecklistTemplateForm.NewTaskCancelKeepsPlaceholder | src/components/checklist-templates/ChecklistTemplateForm.tsx:246-252 | as written, cancelling the new-task dialog leaves the generated placeholder in the list |
| ChecklistTemplateForm.NewTaskCancelRestores | src/components/checklist-templates/ChecklistTemplateForm.tsx:246-252 | with generated local ids recognised, cancelling the new-task dialog restores the list as it was |
| ChecklistTemplateForm.FilledOrders | src/components/checklist-templates/ChecklistTemplateForm.tsx:95 | filling missing orders with `index + 1` keeps the number of tasks |
| ChecklistTemplateForm.InsertByOrder | src/components/checklist-templates/ChecklistTemplateForm.tsx:95 | inserting a task into a list sorted by order keeps it sorted and one longer |
| ChecklistTemplateForm.InsertByOrderPerm | src/components/checklist-templates/ChecklistTemplateForm.tsx:95 | inserting adds exactly that task to the multiset of tasks |
| ChecklistTemplateForm.SortByOrder | src/components/checklist-templates/ChecklistTemplateForm.tsx:95 | the sort yields a list sorted by ascending order of the same length |
| ChecklistTemplateForm.SortByOrderPerm | src/components/checklist-templates/ChecklistTemplateForm.tsx:95 | the sort is a permutation of its input |
| ChecklistTemplateForm.InitialTasksShape | src/components/checklist-templates/ChecklistTemplateForm.tsx:95 | the form's initial task list is the stored tasks with missing orders filled, sorted ascending by order, and every order is present and non-zero |
| ChecklistTemplateForm.NumberedLoadsInPlace | src/components/checklist-templates/ChecklistTemplateForm.tsx:95 | a stored list numbered 1..n loads unchanged |
| ChecklistTemplateForm.InsertAtEnd | src/components/checklist-templates/ChecklistTemplateForm.tsx:95 | a task whose order is at least the last one's is inserted at the end |
| ChecklistTemplateForm.NumberedSorted | src/components/checklist-templates/ChecklistTemplateForm.tsx:95 | a list numbered 1..n is sorted by order |
| ChecklistTemplateForm.SortKeepsSnoc | src/components/checklist-templates/ChecklistTemplateForm.tsx:95 | extending a list the sort leaves alone by a task with the largest order is also left alone |
| ChecklistTemplateForm.SortedNumbered | src/components/checklist-templates/ChecklistTemplateForm.tsx:95 | the sort leaves a list numbered 1..n alone |
| ChecklistTemplateForm.Placeholders | src/components/checklist-templates/ChecklistTemplateForm.tsx:146 | the number of ids to replace among the first k tasks is at most k |
| ChecklistTemplateForm.FinalTasks | src/components/checklist-templates/ChecklistTemplateForm.tsx:144-148 | saving yields one task per form task |
| ChecklistTemplateForm.FinalTasksShape | src/components/checklist-templates/ChecklistTemplateForm.tsx:144-148 | saved tasks are numbered 1..n, keep title, description and department, keep their id unless it is a placeholder id, and a placeholder id is replaced by the next "task" id in list order |
| ChecklistTemplateForm.FinalTaskAtShape | src/components/checklist-templates/ChecklistTemplateForm.tsx:144-148 | saved row i has order i + 1, keeps its title, description and department, and keeps its id unless the id marks a new row, which gets the task id drawn after those of the new rows before it |
| ChecklistTemplateForm.FreshIdsDistinct | src/components/checklist-templates/ChecklistTemplateForm.tsx:146 | two replaced ids in one save never collide |
| ChecklistTemplateForm.GeneratedIdKeptOnSave | src/components/checklist-templates/ChecklistTemplateForm.tsx:144-148 | as written, a row whose id the new-task dialog generated keeps that id when the template is saved |
| ChecklistTemplateForm.GeneratedIdReplacedOnSave | src/components/checklist-templates/ChecklistTemplateForm.tsx:144-148 | with generated local ids recognised, saving gives such a row the next "task" id in list order |
| ChecklistTemplateForm.FinalizeRow | src/components/checklist-templates/ChecklistTemplateForm.tsx:145-147 | one step of the map builds that row's saved task and draws an id only for a placeholder |
| ChecklistTemplateForm.FinalizeTasks | src/components/checklist-templates/ChecklistTemplateForm.tsx:144-148 | the map computes exactly `FinalTasks` and draws one "task" id per placeholder |
| ChecklistTemplateForm.ResolveTemplateId | src/components/checklist-templates/ChecklistTemplateForm.tsx:139 | an edit keeps the template's id, a create uses the typed id or draws one "clt" id when none was typed |
| ChecklistTemplateForm.SavedTableEffect | src/components/checklist-templates/ChecklistTemplateForm.tsx:151-166 | a create appends the template; an edit replaces exactly the template at its id's index, or changes nothing when the id is gone |
| ChecklistTemplateForm.Editor.constructor | src/components/checklist-templates/ChecklistTemplateForm.tsx:84-97 | the editor starts with the loaded task list, no dialog and no row selected |
| ChecklistTemplateForm.Editor.MoveTaskUp | src/components/checklist-templates/ChecklistTemplateForm.tsx:112-122 | the task list becomes `MoveUp` of the old one; nothing else changes |
| ChecklistTemplateForm.Editor.MoveTaskDown | src/components/checklist-templates/ChecklistTemplateForm.tsx:124-134 | the task list becomes `MoveDown` of the old one; nothing else changes |
| ChecklistTemplateForm.Editor.DeleteTaskTemplate | src/components/checklist-templates/ChecklistTemplateForm.tsx:258-262 | the task list becomes `DeleteTask` of the old one; nothing else changes |
| ChecklistTemplateForm.Editor.OpenNewTaskDialog | src/components/checklist-templates/ChecklistTemplateForm.tsx:177-190 | draws one "task_local" id, appends the placeholder ("Nova Tasca", the first department or "IT", the next order) and opens the dialog on it with no row selected |
| ChecklistTemplateForm.Editor.OpenEditTaskDialog | src/components/checklist-templates/ChecklistTemplateForm.tsx:192-197 | opens the dialog on row i, drawing a "task_local" id only for a row without one |
| ChecklistTemplateForm.Editor.EditDraft | src/components/checklist-templates/ChecklistTemplateForm.tsx:199 | typing in the dialog changes only the draft's title, department and description |
| ChecklistTemplateForm.Editor.SaveTaskDialog | src/components/checklist-templates/ChecklistTemplateForm.tsx:199-243 | the dialog saves exactly when a draft exists with a title of at least 3 characters and a department; a refused save changes nothing; a save stores the draft, renumbers and closes the dialog |
| ChecklistTemplateForm.Editor.CancelTaskDialog | src/components/checklist-templates/ChecklistTemplateForm.tsx:246-256 | cancelling closes the dialog and drops the last row exactly when it is the new task's row and its id passes the written lower-case `task_local_` test, so a generated placeholder stays |
| ChecklistTemplateForm.Editor.Submit | src/components/checklist-templates/ChecklistTemplateForm.tsx:136-175 | a template outside the schema changes nothing; otherwise one "task" id is drawn per id the written `task_new_`/`task_local_` test accepts, so generated placeholder ids are kept; a create with a typed id already in use is refused with no table change, and every other save stores the final template as `SavedTable` states |
| ChecklistTemplateForm.StoreTemplate | src/components/checklist-templates/ChecklistTemplateForm.tsx:151-171 | the write to the templates table: refused for a create with a typed id already in use, otherwise `SavedTable` |
| ChecklistTemplateManager.UsedBy | src/components/checklist-templates/ChecklistTemplateManager.tsx:64-66 | exactly the request-type definitions that reference the template |
| ChecklistTemplateManager.UsedByNonEmpty | src/components/checklist-templates/ChecklistTemplateManager.tsx:64-68 | the delete is blocked exactly when some definition references the template |
| ChecklistTemplateManager.WithoutTemplate | src/components/checklist-templates/ChecklistTemplateManager.tsx:78-81 | the first template with the id is spliced out, and nothing changes when there is none |
| ChecklistTemplateManager.RemainingExactly | src/components/checklist-templates/ChecklistTemplateManager.tsx:83 | the managed list keeps exactly the templates with another id |
| ChecklistTemplateManager.DeleteKeepsMirror | src/components/checklist-templates/ChecklistTemplateManager.tsx:78-88 | with unique ids the filtered managed list equals the spliced table, ids stay unique, and deleting a page's lone row lands on the new last page |
| ChecklistTemplateManager.Manager.constructor | src/components/checklist-templates/ChecklistTemplateManager.tsx:41-46 | the view copies the templates table and starts on page 1 |
| ChecklistTemplateManager.Manager.Previous | src/components/checklist-templates/ChecklistTemplateManager.tsx:55-57 | the page becomes `PreviousPage` of the old one |
| ChecklistTemplateManager.Manager.Next | src/components/checklist-templates/ChecklistTemplateManager.tsx:59-61 | the page becomes `NextPage` of the old one |
| ChecklistTemplateManager.Manager.DeleteTemplate | src/components/checklist-templates/ChecklistTemplateManager.tsx:63-88 | blocked, listing the referencing definitions and changing nothing, exactly when the template is in use; otherwise the table loses the template, the managed list drops that id, and the page steps back after a lone row |
| UserList.SystemNames | src/components/admin/users/UserList.tsx:91 | the names of the systems that designate the user, in table order |
| UserList.BlockedExactly | src/components/admin/users/UserList.tsx:67-92 | the delete is blocked exactly when the user requests an unfinished request, is assigned an uncompleted task, is the approver of a pending approval, or is named by a system's "Usuari: " policy |
| UserList.UnnamedUserMatchesUndefined | src/components/admin/users/UserList.tsx:77 | a user without a name is matched by the policy "Usuari: undefined", as the template literal spells a missing name |
| UserList.WithoutUser | src/components/admin/users/UserList.tsx:105-108 | the first user with the id is spliced out, and nothing changes when there is none |
| UserList.WithoutUserShape | src/components/admin/users/UserList.tsx:105-108 | the splice removes one user, adds none, and keeps every user with another id |
| UserList.DeleteKeepsMirror | src/components/admin/users/UserList.tsx:105-110 | with unique ids the filtered managed list equals the spliced table, no user with the id is left, and ids stay unique |
| UserList.View.constructor | src/components/admin/users/UserList.tsx:44-45 | the view holds the given users, or a copy of the users table, and starts on page 1 |
| UserList.View.Previous | src/components/admin/users/UserList.tsx:57-59 | the page becomes `PreviousPage` of the old one |
| UserList.View.Next | src/components/admin/users/UserList.tsx:61-63 | the page becomes `NextPage` of the old one |
| UserList.View.DeleteUser | src/components/admin/users/UserList.tsx:65-114 | a blocked delete reports the dependencies and changes nothing; otherwise the user is spliced from the table, filtered from the view, and the page steps back after a lone row on a page after the first |
| DepartmentList.Uses | src/components/admin/departments/DepartmentList.tsx:66-87 | a department is reported as used by employees, application users, active tasks and active requests exactly when an employee has it, a user lists it, an uncompleted task is assigned to it, or an unfinished request is assigned to it |
| DepartmentList.UsesOrdered | src/components/admin/departments/DepartmentList.tsx:76-87 | the reported uses come in the fixed order employees, users, tasks, requests, each at most once |
| DepartmentList.WithoutDepartment | src/components/admin/departments/DepartmentList.tsx:99-102 | the first department with the id is spliced out, and nothing changes when there is none |
| DepartmentList.DeleteKeepsMirror | src/components/admin/departments/DepartmentList.tsx:99-104 | with unique ids the filtered managed list equals the spliced table, no department with the id is left, and ids stay unique |
| DepartmentList.View.constructor | src/components/admin/departments/DepartmentList.tsx:43-44 | the view holds the given departments, or a copy of the table, and starts on page 1 |
| DepartmentList.View.Previous | src/components/admin/departments/DepartmentList.tsx:57-59 | the page becomes `PreviousPage` of the old one |
| DepartmentList.View.Next | src/components/admin/departments/DepartmentList.tsx:61-63 | the page becomes `NextPage` of the old one |
| DepartmentList.View.DeleteDepartment | src/components/admin/departments/DepartmentList.tsx:65-108 | a department in use is reported and nothing changes (matching is by name); otherwise the department is spliced out by id, filtered from the view, and the page steps back after a lone row |
| UserForm.ValidInput | src/components/admin/users/UserForm.tsx:31-41 | the schema without the e-mail format: login and name of at least three characters, an empty or valid NIF, a non-empty roles text and at least one department; `Submit` refuses exactly the input outside it |
| UserForm.CleanPieces | src/components/admin/users/UserForm.tsx:72 | trimming the pieces and dropping empty ones leaves at most as many pieces, each a clean role |
| UserForm.ParseRoles | src/components/admin/users/UserForm.tsx:72 | every role parsed from the text is non-empty, comma-free and free of surrounding spaces |
| UserForm.ParseSpacedJoin | src/components/admin/users/UserForm.tsx:63-72 | clean roles joined with ", " after leading spaces parse back to the same roles |
| UserForm.RolesRoundTrip | src/components/admin/users/UserForm.tsx:63-72 | a non-empty list of clean roles shown as the form's default text parses back to the same list |
| UserForm.NifValue | src/components/admin/users/UserForm.tsx:73 | the stored NIF is absent exactly when the field is empty, and otherwise is the field's text |
| UserForm.Toggle | src/components/admin/users/UserForm.tsx:224-229 | picking a department flips its membership, keeps every other one, and appends it when it was not selected |
| UserForm.ToggleTwice | src/components/admin/users/UserForm.tsx:224-229 | picking an unselected department twice gives the selection back |
| UserForm.RemoveBadge | src/components/admin/users/UserForm.tsx:253-256 | the badge's remove button drops every occurrence of the name and keeps every other department |
| UserForm.AvatarText | src/components/admin/users/UserForm.tsx:108 | the placeholder avatar text has two characters for a name of two or more, and is "U" for an empty name |
| UserForm.AvatarTextChars | src/components/admin/users/UserForm.tsx:108 | for a non-empty name the text is its first two characters (one for a one-character name), each upper-cased |
| UserForm.EditTable | src/components/admin/users/UserForm.tsx:81-95 | the users table after an edit; `EditOnlyTarget` states what changes and what is kept |
| UserForm.EditOnlyTarget | src/components/admin/users/UserForm.tsx:81-95 | only the first user with the id changes: name, e-mail, NIF, roles and departments come from the form while id, login and avatar are kept; an unknown id changes nothing |
| UserForm.UntouchedEditKeepsUser | src/components/admin/users/UserForm.tsx:58-95 | saving a stored user's own default values unchanged leaves the table as it was |
| UserForm.CreateAllowsDuplicateLogin | src/components/admin/users/UserForm.tsx:98-110 | a create does not check the login, so two users may share one |
| UserForm.Submit | src/components/admin/users/UserForm.tsx:31-113 | invalid input changes nothing; editing overwrites the stored user; creating appends a user whose id is the next "user" mock id, advancing only that counter |
| UserForm.SaveEdit | src/components/admin/users/UserForm.tsx:81-95 | the users table becomes the edited table |
| UserForm.CreateUser | src/components/admin/users/UserForm.tsx:99-110 | the id is the next "user" mock id, the new user is appended, and only the "user" counter advances |
| DepartmentForm.ValidInput | src/components/admin/departments/DepartmentForm.tsx:25-28 | the schema: an optional free-text id and a name of at least three characters; `Submit` refuses exactly the input outside it |
| DepartmentForm.RenameOnlyTarget | src/components/admin/departments/DepartmentForm.tsx:59-64 | a rename changes only the name of the first department with the id; an unknown id changes nothing |
| DepartmentForm.CreateOutcome | src/components/admin/departments/DepartmentForm.tsx:67-78 | only a typed id is checked: it is refused exactly when taken, a generated one is used as it comes; `CreateCases` and `GeneratedIdUnchecked` state the consequences |
| DepartmentForm.CreateCases | src/components/admin/departments/DepartmentForm.tsx:67-78 | a typed id already taken is refused and nothing changes; otherwise exactly one department with the typed or generated id and the typed name is appended |
| DepartmentForm.CreateKeepsIdsUnique | src/components/admin/departments/DepartmentForm.tsx:67-78 | distinct ids stay distinct when the id is typed, or when the generated one is not taken |
| DepartmentForm.GeneratedIdUnchecked | src/components/admin/departments/DepartmentForm.tsx:69 | a generated id that collides with an existing department is appended all the same, leaving duplicate ids |
| DepartmentForm.Submit | src/components/admin/departments/DepartmentForm.tsx:25-81 | invalid input changes nothing; editing renames in place; creating draws a "dept" id only when none was typed, then appends or refuses as `CreateOutcome` says |
| AccessLevelForm.ValidInputAsWritten | src/components/admin/access-levels/AccessLevelForm.tsx:25-28 | the schema as written: an id of `[a-zA-Z0-9_]` characters that may not be blank, and a name of at least three characters; no accepted input has a blank id |
| AccessLevelForm.ValidInput | src/components/admin/access-levels/AccessLevelForm.tsx:99-102 | the schema the blank-to-generate hint calls for: a blank id or one of `[a-zA-Z0-9_]` characters; it admits every input the written schema does |
| AccessLevelForm.BlankIdRejectedAsWritten | src/components/admin/access-levels/AccessLevelForm.tsx:26-67 | under the schema as written no valid input has a blank id, so the generate fallback can never run |
| AccessLevelForm.SchemasAgreeOnTypedIds | src/components/admin/access-levels/AccessLevelForm.tsx:25-102 | the written and the corrected schema agree on every input with a typed id, and differ only in accepting a blank one |
| AccessLevelForm.RenameOnlyTarget | src/components/admin/access-levels/AccessLevelForm.tsx:56-61 | a rename changes only the name of the first level with the id; an unknown id changes nothing |
| AccessLevelForm.CreateOutcome | src/components/admin/access-levels/AccessLevelForm.tsx:66-77 | the id, typed or generated, is refused exactly when some level has it; `CreateCases` states the outcome and the table after it |
| AccessLevelForm.CreateCases | src/components/admin/access-levels/AccessLevelForm.tsx:66-77 | the id, typed or generated, is refused exactly when taken, and then nothing changes; otherwise one level is appended, and distinct ids stay distinct |
| AccessLevelForm.BlankIdGenerates | src/components/admin/access-levels/AccessLevelForm.tsx:67-102 | with the corrected schema a blank id is accepted and the level is appended under the generated id |
| AccessLevelForm.Submit | src/components/admin/access-levels/AccessLevelForm.tsx:50-82 | validated with the schema as written: input it rejects, a blank id included, changes nothing; editing renames in place; creating appends the typed id or refuses it exactly when it is taken; the `generateMockId("alvl")` fallback never runs, so no counter moves |
| RequestTypeDefinitionForm.ValidInput | src/components/admin/request-types/RequestTypeDefinitionForm.tsx:29-36 | the schema: a name of at least three characters and a chosen checklist template; `Submit` refuses exactly the input outside it |
| RequestTypeDefinitionForm.Defaults | src/components/admin/request-types/RequestTypeDefinitionForm.tsx:53-60 | a new definition starts as "other", enabled, with empty id and name; an edited one keeps its target and enabled flag; the description is always present |
| RequestTypeDefinitionForm.EditTable | src/components/admin/request-types/RequestTypeDefinitionForm.tsx:69-81 | the definitions table after an edit; `EditOnlyTarget` states that only the first definition with the id changes |
| RequestTypeDefinitionForm.EditOnlyTarget | src/components/admin/request-types/RequestTypeDefinitionForm.tsx:69-81 | only the first definition with the id changes, to the form's fields under its own id; an unknown id changes nothing |
| RequestTypeDefinitionForm.UntouchedEdit | src/components/admin/request-types/RequestTypeDefinitionForm.tsx:53-81 | saving an opened definition untouched changes nothing except that an absent description comes back empty |
| RequestTypeDefinitionForm.CreateOutcome | src/components/admin/request-types/RequestTypeDefinitionForm.tsx:86-101 | only a typed id is checked and refused when taken; `CreateCases` states the outcome and the table after it |
| RequestTypeDefinitionForm.CreateCases | src/components/admin/request-types/RequestTypeDefinitionForm.tsx:86-101 | a typed id already taken is refused and nothing changes; otherwise exactly one definition carrying the form's fields is appended |
| RequestTypeDefinitionForm.Submit | src/components/admin/request-types/RequestTypeDefinitionForm.tsx:29-106 | invalid input changes nothing; editing updates in place; creating draws an "rtdef" id only when none was typed, then appends or refuses as `CreateOutcome` says |
| SystemForm.KnownRolesMembers | src/components/admin/systems/SystemForm.tsx:60-65 | the sorted role list holds exactly the declared roles and the roles some user holds |
| SystemForm.KnownRolesAscending | src/components/admin/systems/SystemForm.tsx:60-65 | the sorted role list is strictly ascending in the default `sort()` order and as long as the role set |
| SystemForm.RoleEntries | src/components/admin/systems/SystemForm.tsx:65-67 | one "Rol: R" option per role, in the order given |
| SystemForm.UserEntries | src/components/admin/systems/SystemForm.tsx:69-72 | one "Usuari: name-or-login" option per user, in table order |
| SystemForm.LastWithValue | src/components/admin/systems/SystemForm.tsx:74 | finds the last option carrying the value, or reports that none does |
| SystemForm.Representative | src/components/admin/systems/SystemForm.tsx:74 | the option a value-keyed map keeps is one of the options and carries that value |
| SystemForm.DedupByValueShape | src/components/admin/systems/SystemForm.tsx:74 | after keying by value, no two options share a value, exactly the input's values remain, and every option kept was pushed |
| SystemForm.NoApproverFirstAndAlone | src/components/admin/systems/SystemForm.tsx:58-77 | the "nobody" option is first and the only option with an empty value, so the comparator's first two branches place it first |
| SystemForm.OptionsCover | src/components/admin/systems/SystemForm.tsx:60-72 | every declared role and every role a user holds yields a "Rol: R" option, and every user yields a "Usuari: name-or-login" option |
| SystemForm.OptionsExactly | src/components/admin/systems/SystemForm.tsx:58-72 | every option value is empty, a known role's or a user's |
| SystemForm.UserOptionBlocksUserDelete | src/components/admin/systems/SystemForm.tsx:70-71 | a system whose approver is a user's option is exactly what the user list's delete guard matches |
| SystemForm.AddRoles | src/components/admin/systems/SystemForm.tsx:62 | adding one user's roles to the set gives the de-duplicated concatenation |
| SystemForm.CollectRoles | src/components/admin/systems/SystemForm.tsx:60-63 | the role set holds the declared roles, then each new role a user holds, in insertion order |
| SystemForm.PushOptions | src/components/admin/systems/SystemForm.tsx:58-72 | the pushed list is the "nobody" option, one per role, then one per user |
| SystemForm.BuildApproverOptions | src/components/admin/systems/SystemForm.tsx:55-74 | the options are the pushed list, built from the role set sorted as `sort()` orders it, keyed by value |
| SystemForm.Pick | src/components/admin/systems/SystemForm.tsx:203 | picking the selected option clears the approver; picking any other selects it |
| SystemForm.PickTwiceClears | src/components/admin/systems/SystemForm.tsx:203 | picking an unselected option twice leaves nothing selected |
| SystemForm.ValidInput | src/components/admin/systems/SystemForm.tsx:30-34 | the schema: a name of at least three characters, with optional id and approver; `Submit` refuses exactly the input outside it |
| SystemForm.Policy | src/components/admin/systems/SystemForm.tsx:102 | the stored approver is absent exactly when the field is empty, and otherwise is the field |
| SystemForm.EditTable | src/components/admin/systems/SystemForm.tsx:105-109 | the systems table after an edit; `EditOnlyTarget` states that only the first system with the id changes |
| SystemForm.EditOnlyTarget | src/components/admin/systems/SystemForm.tsx:97-109 | only the first system with the id changes, to the record with its own id, the typed name and the typed approver (`requiresApprovalBy \|\| undefined`: a non-empty approver is stored as typed, an empty one dropped); an unknown id changes nothing |
| SystemForm.CreateOutcome | src/components/admin/systems/SystemForm.tsx:96-120 | only a typed id is checked and refused when taken; `CreateCases` states the outcome and the table after it |
| SystemForm.CreateCases | src/components/admin/systems/SystemForm.tsx:97-120 | a typed id already taken is refused and nothing changes; otherwise exactly one system is appended, with the typed or generated id, the typed name and the typed approver, an empty one dropped |
| SystemForm.Submit | src/components/admin/systems/SystemForm.tsx:30-125 | invalid input changes nothing; editing replaces the record in place; creating draws a "sys" id only when none was typed, then appends or refuses as `CreateOutcome` says |
| RequestEditForm.TypeLabel | src/components/requests/RequestEditForm.tsx:78-85 | `formatRequestType`: the label of each of the three request types |
| RequestEditForm.DefaultSummary | src/components/requests/RequestEditForm.tsx:44 | the form starts with the stored summary; it is empty exactly when the request has no summary or an empty one |
| RequestEditForm.ValidSummary | src/components/requests/RequestEditForm.tsx:26-28 | the schema: a summary of at least five characters; `Submit` refuses exactly the summaries outside it |
| RequestEditForm.EditTable | src/components/requests/RequestEditForm.tsx:54-60 | the requests table after saving; `EditOnlySummary` states that only the first request with the id changes, in its summary and update time |
| RequestEditForm.EditOnlySummary | src/components/requests/RequestEditForm.tsx:54-60 | only the first request with the id changes, and only in its summary and update time |
| RequestEditForm.IndexOfFirst | src/components/requests/RequestEditForm.tsx:54 | the lookup returns the first request carrying the id |
| RequestEditForm.EditIdempotent | src/components/requests/RequestEditForm.tsx:54-60 | saving the same summary at the same time again changes nothing more |
| RequestEditForm.UntouchedSaveOnlyStamps | src/components/requests/RequestEditForm.tsx:44-60 | saving a request's own summary untouched only moves its update time |
| RequestEditForm.Submit | src/components/requests/RequestEditForm.tsx:26-74 | a summary shorter than five characters changes nothing; a request still in the table is saved; a missing one is reported and nothing changes |
| SidebarNav.CanAccess | src/components/layout/SidebarNav.tsx:24-31 | `canUserAccess`; `CanAccessCases` states exactly when it grants access |
| SidebarNav.CanAccessCases | src/components/layout/SidebarNav.tsx:24-31 | an entry is reachable exactly when its role list is absent or empty, or a signed-in user holds one of the listed roles |
| SidebarNav.InheritedRoles | src/components/layout/SidebarNav.tsx:50 | a sub-entry's own role list, even an empty one, replaces the parent's; without one it inherits the parent's |
| SidebarNav.EmptyOwnRolesOpen | src/components/layout/SidebarNav.tsx:26-50 | a sub-entry with an empty role list of its own is reachable whatever the parent's list |
| SidebarNav.VisibleSubmenu | src/components/layout/SidebarNav.tsx:47-51 | the visible sub-entries are exactly the reachable ones, no more than the submenu has |
| SidebarNav.VisibleSubmenuAppend | src/components/layout/SidebarNav.tsx:47-51 | filtering a concatenation concatenates the filtered parts, so the submenu keeps its order |
| SidebarNav.ProcessItem | src/components/layout/SidebarNav.tsx:39-59 | one top-level entry of the menu filter; `ProcessItemCases` and `RealLinkParentKept` state when it is kept and how |
| SidebarNav.ProcessItemCases | src/components/layout/SidebarNav.tsx:39-59 | an entry is dropped exactly when it is unreachable or a "#" container left without visible children; a kept entry differs only in its submenu |
| SidebarNav.RealLinkParentKept | src/components/layout/SidebarNav.tsx:46-57 | a reachable parent with a real link stays, with its filtered submenu, even when no child is visible |
| SidebarNav.ProcessedNavItems | src/components/layout/SidebarNav.tsx:35-61 | no entries without a signed-in user, and never more entries than given |
| SidebarNav.ProcessAllShape | src/components/layout/SidebarNav.tsx:38-61 | the kept entries are exactly the processed forms of the entries that survive |
| SidebarNav.ProcessAllAppend | src/components/layout/SidebarNav.tsx:38-61 | entries are decided one by one, so what survives keeps the input order |
| SidebarNav.EmployeeMenu | src/lib/constants.ts:17-94 | a user whose only role is employee sees the dashboard, requests and tasks, and loses the employees, approvals and administration entries |
| SidebarNav.AdminSeesAdministration | src/lib/constants.ts:50-93 | an administrator keeps the administration container with all six pages, which inherit its role list |
| SidebarNav.FullSubmenu | src/components/layout/SidebarNav.tsx:47-51 | filtering sub-entries that are all reachable keeps them all |
| SidebarNav.IsActive | src/components/layout/SidebarNav.tsx:77 | the active-link test; `ActiveCases` states on which paths each entry is active |
| SidebarNav.ActiveCases | src/components/layout/SidebarNav.tsx:77 | "#" is never active; the dashboard and the root only on their exact path; any other entry on every path that starts with its href |
| SidebarNav.Toggled | src/components/layout/SidebarNav.tsx:69-71 | flipping a label's flag negates it, a missing one read as closed, and leaves every other flag as it was |
| SidebarNav.ToggleTwice | src/components/layout/SidebarNav.tsx:69-71 | flipping the same label twice leaves every flag as it was |
| SidebarNav.OpenOnOwnPage | src/components/layout/SidebarNav.tsx:79-80 | being on one of its pages keeps a submenu open, before and after flipping its flag |
| SidebarNav.Sidebar.constructor | src/components/layout/SidebarNav.tsx:19 | every submenu starts closed |
| SidebarNav.Sidebar.ToggleSubmenu | src/components/layout/SidebarNav.tsx:69-71 | the flags become `Toggled` of the old ones: that label's flips, no other changes |
| RequestList.NewestFirstPairs | src/components/requests/RequestList.tsx:110 | a list descending neighbour by neighbour has no request older than a later one |
| RequestList.InsertNewest | src/components/requests/RequestList.tsx:110 | inserting into a newest-first list keeps it newest first, one longer, placing the request after every request not older than it |
| RequestList.InsertNewestPerm | src/components/requests/RequestList.tsx:110 | inserting adds exactly the one request |
| RequestList.SortNewestFirst | src/components/requests/RequestList.tsx:110 | the sorted copy is newest first and as long as the input |
| RequestList.SortNewestFirstPerm | src/components/requests/RequestList.tsx:110 | the sorted copy holds exactly the requests given, each as often |
| RequestList.SortKeepsNewestFirst | src/components/requests/RequestList.tsx:110 | a list already newest first is shown in its own order, as a stable sort leaves it |
| RequestList.DisplayedRowsSorted | src/components/requests/RequestList.tsx:112-115 | a page shows at most ten rows, newest first |
| RequestList.DisplayedRowsFromInput | src/components/requests/RequestList.tsx:113-115 | every row shown is one of the requests given |
| RequestList.PagesShowEveryRequest | src/components/requests/RequestList.tsx:110-116 | the pages up to the total show the whole sorted list, which holds each request as often as the input does |
| RequestList.EmployeeName | src/components/requests/RequestList.tsx:31-35 | never empty; "N/A" without an id; with an id, the full name of the first employee holding it when that name is non-empty, and otherwise "ID: " and the id |
| RequestList.AffectedEmployeeId | src/components/requests/RequestList.tsx:172 | `employeeId \|\| targetEmployeeId`: the employee id of an onboarding or offboarding when it is set and non-empty, otherwise exactly the id of the employee an access request targets; the shown id is empty or missing only when both are |
| RequestList.AccessRequestShowsTarget | src/components/requests/RequestList.tsx:172 | an access request that names only its target employee shows that employee's full name |
| RequestList.RequesterCellAsWritten | src/components/requests/RequestList.tsx:173 | the requester cell as written, the requester id looked up among the employees; `RequesterShownAsRawId` states what it shows for a user id |
| RequestList.RequesterShownAsRawId | src/components/requests/RequestList.tsx:173 | as written, a requester id that no employee carries shows as "ID: " and the id, even when the user has a name |
| RequestList.RequesterOfSampleRow | src/components/requests/RequestList.tsx:173 | as written, a request by "user_001" shows "ID: user_001" although that user is named Anna Puig |
| RequestList.RequesterCell | src/components/requests/RequestList.tsx:173 | looked up among users: the user's name, else the login, else "ID: " and the id |
| RequestList.RequesterShownByName | src/components/requests/RequestList.tsx:173 | with the lookup among users, a named requester is shown by name |
| RequestList.TypeCell | src/components/requests/RequestList.tsx:97-103 | `formatType`: "Alta", "Baixa" and "Accés" for the three categories |
| RequestList.ColorClasses | src/components/requests/RequestList.tsx:57-75 | the class string of each of the six badge colours, as `getStatusColorClass` returns them |
| RequestList.StatusVariant | src/components/requests/RequestList.tsx:37-54 | the status badge variant; `VariantCases` states which statuses get which badge |
| RequestList.VariantCases | src/components/requests/RequestList.tsx:37-54 | approved and completed get the plain badge, rejected and cancelled the destructive one, every other status the secondary one; a destructive badge marks a terminal status |
| RequestList.StatusColor | src/components/requests/RequestList.tsx:56-77 | `getStatusColorClass` as a colour; `ColorMatchesVariant` ties it to the badge variant |
| RequestList.ColorMatchesVariant | src/components/requests/RequestList.tsx:37-77 | the colour is green exactly for the plain badge and red exactly for the destructive one |
| RequestList.StatusLabel | src/components/requests/RequestList.tsx:80-94 | `formatStatusForDisplay`: the Catalan label of each of the ten statuses |
| RequestList.View.constructor | src/components/requests/RequestList.tsx:107 | the list starts on page 1 |
| RequestList.View.Previous | src/components/requests/RequestList.tsx:117-119 | the page becomes `PreviousPage` of the old one |
| RequestList.View.Next | src/components/requests/RequestList.tsx:121-123 | the page becomes `NextPage` of the old one and the total |
| ThemeColorPicker.DefaultsCoverVariables | src/components/debug/ThemeColorPicker.tsx:26-95 | every theme variable has a stylesheet default |
| ThemeColorPicker.ParseHsl | src/components/debug/ThemeColorPicker.tsx:58-64 | a colour parses from exactly three white-space separated words, with the first percent sign of the last two removed; none of the three parts holds white space; `StyleRoundTrip` is its inverse |
| ThemeColorPicker.SplitSpaces | src/components/debug/ThemeColorPicker.tsx:59 | splitting on runs of white space yields at least one piece, none holding white space |
| ThemeColorPicker.SplitSingle | src/components/debug/ThemeColorPicker.tsx:59 | a word without white space is one piece |
| ThemeColorPicker.SplitWord | src/components/debug/ThemeColorPicker.tsx:59 | a word followed by one space splits off as the first piece |
| ThemeColorPicker.RemoveFirstPercent | src/components/debug/ThemeColorPicker.tsx:61 | a text without a percent sign is kept; otherwise exactly one character, the first percent sign, goes |
| ThemeColorPicker.RemoveAppendedPercent | src/components/debug/ThemeColorPicker.tsx:61 | a percent sign appended to a value without one is exactly what goes |
| ThemeColorPicker.StyleRoundTrip | src/components/debug/ThemeColorPicker.tsx:58-63 | what the picker writes to a variable parses back to the same colour |
| ThemeColorPicker.LeadingSpacesIgnored | src/components/debug/ThemeColorPicker.tsx:59 | white space before a colour does not change what parses |
| ThemeColorPicker.TwoPiecesRejected | src/components/debug/ThemeColorPicker.tsx:60-63 | two words are not a colour |
| ThemeColorPicker.PaletteEntryCases | src/components/debug/ThemeColorPicker.tsx:311-318 | a palette value that parses wins; a missing or empty one takes the default's colour; one that does not parse gives black |
| ThemeColorPicker.PaletteColorsShape | src/components/debug/ThemeColorPicker.tsx:308-319 | the colour state holds exactly one entry per variable, each the palette's colour for it |
| ThemeColorPicker.PaletteColorsSnoc | src/components/debug/ThemeColorPicker.tsx:308-319 | one more variable adds exactly its palette entry to the colour state |
| ThemeColorPicker.FillColors | src/components/debug/ThemeColorPicker.tsx:308-319 | the loop over the variables builds exactly `PaletteColors` |
| ThemeColorPicker.Picker.constructor | src/components/debug/ThemeColorPicker.tsx:263-265 | no colours, the first predefined palette selected, the menu closed |
| ThemeColorPicker.Picker.ApplyPalette | src/components/debug/ThemeColorPicker.tsx:307-324 | every theme variable is set from the palette over the defaults, the palette's name is selected and the menu closes |
| ThemeColorPicker.Picker.ChangeColor | src/components/debug/ThemeColorPicker.tsx:297-305 | one variable takes the new colour, every other keeps its own, and the custom palette becomes selected |
| SampleData.ChecklistsNumbered | lib/sample-data.ts:189-275 | every sample checklist numbers its task templates 1..n, so the template editor's renumbering leaves each one as it is |
| SampleData.TemplatesNumbered | lib/sample-data.ts:189-230 | each of the six task-template lists is numbered 1..n in order |
| SampleData.RequestTypesResolve | lib/sample-data.ts:232-415 | every request-type definition names an existing checklist with at least two task templates |
| SampleData.ChecklistsSized | lib/sample-data.ts:232-275 | every sample checklist has at least two task templates |
| SampleData.RequestTypesCategorised | lib/sample-data.ts:358-415 | every request-type definition is enabled and applies to a request category rather than the catch-all |
| SampleData.EmployeeNifsUnique | lib/sample-data.ts:4-16 | the employees' NIFs are pairwise distinct and all of the accepted format |
| SampleData.SystemPolicies | lib/sample-data.ts:417-426 | only erp, crm (a manager) and project_management_tool (a project lead) need approval; every other system has no policy |
| SampleData.SampleApprovers | lib/sample-data.ts:18-24 | with the sample users a manager policy resolves to user_004, and a project-lead policy, which no user holds, falls back to the first IT manager, user_005 |
| SampleData.Req002Routing | lib/sample-data.ts:41-57 | REQ002 asks for CRM, which the access form would route to user_004, whereas the stored approval APP001 names user_005 |
| SampleData.DepartmentSpellings | lib/sample-data.ts:189-326 | checklist tasks name their department "IT" or "RRHH" while departments and requests say "Informàtica" and "Recursos Humans", so no task department equals a department name |
| SampleData.CompletedRequestsDone | lib/sample-data.ts:26-311 | the completed requests are exactly REQ001, REQ003 and REQ008, and every task of theirs is completed |
| SampleData.Req007Record | lib/sample-data.ts:118-134 | REQ007 waits for the final HR validation and is assigned to Recursos Humans |
| SampleData.Req007Tasks | lib/sample-data.ts:304-305 | REQ007 has exactly two tasks: the IT one completed and the RRHH one pending |
| SampleData.RequestTypeIdsDistinct | lib/sample-data.ts:358-415 | no two request-type definitions share an id |
| SampleData.RequestsMatchTheirTypes | lib/sample-data.ts:26-415 | every request names an existing definition that applies to the request's own category |

## Left out

- Simulated latency, toasts, `console.log`, router navigation and date formatting have no effect on the tables. Each handler is one atomic step.
- Clocks: `new Date()` and `Date.now()` are integer parameters, and stored dates are integers rather than ISO strings, so time zones and string formatting are not modelled. The fixtures encode a date as `yyyy·10^8 + month·10^6 + day·10^4 + hhmm`; this keeps the order but is not an instant.
- UserForm.Submit: the e-mail field's `z.string().email()` check is not modelled. The model accepts inputs that zod would reject for a malformed address, because the regular expression behind it is not part of this model.
- SystemForm.BuildApproverOptions: the final `sort` of the options is reduced to its "none first" rule, which `NoApproverFirstAndAlone` proves; the other options stay in the value-keyed order, because their comparator is `localeCompare`, whose result depends on the locale. The earlier `sort()` of the role set is modelled (`KnownRoles`).
- Text.StringBefore: strings are compared by Unicode code point, while `sort()` compares UTF-16 code units; the two orders differ only between a character outside the Basic Multilingual Plane and one in U+E000 to U+FFFF.
- AccessRequestForm.ValidItem, AccessRequestForm.ValidInput, OffboardingRequestForm.ValidInput, EmployeeForm.ValidBase, UserForm.ValidInput, DepartmentForm.ValidInput, SystemForm.ValidInput, AccessLevelForm.ValidInputAsWritten, AccessLevelForm.ValidInput, RequestTypeDefinitionForm.ValidInput, ChecklistTemplateForm.ValidTask, ChecklistTemplateForm.ValidTemplate, RequestEditForm.ValidSummary, UserForm.AvatarText and the prefix cuts in AccessRequestForm.ResolveApprover: a string's length is its number of Unicode scalar values, while zod's `.min(n)`, `.length` and `substring` count UTF-16 code units. The two agree for text in the Basic Multilingual Plane. A character outside it, such as an emoji, counts once here and twice in the program, so a text just below a minimum can pass there and fail here, and a cut after it lands one unit later.
- Text.ToUpper: only ASCII `a`-`z` are upper-cased. That covers every prefix `generateMockId` is called with, and the avatar text of ASCII names. Unicode case mapping of other letters is not modelled.
- ChecklistTemplateForm.SortByOrder: this is a stable insertion sort on `order || 0`, so tasks with equal keys keep their input order. It relies on the JavaScript engine's `sort` being stable, which current engines guarantee. No lemma states the stability itself; the contracts state sortedness and permutation.
- RequestList.SortNewestFirst: this is a stable insertion sort on integer creation times. It relies on the JavaScript engine's `sort` being stable, which current engines guarantee.
- The default branches of `formatRequestType`, `formatType` and `formatStatusForDisplay` are out, because they are unreachable for the declared union types.
- Handlers outside the modelled components: task completion and the status changes it drives, approval resolution (including `approvedAt` and `rejectionReason`), and request cancellation. `ApprovalList` only forwards the action to its callback, whose effect is not part of this model.
- The AI access recommendation flow is out, because it is a foreign call into a language model with non-deterministic output.
- Authentication (the auth context, the login form and the role-gating wrapper) is out: it is local storage and redirects. The signed-in user is a parameter.
- Pure rendering components (header, layout, pages, access-denied and coming-soon screens) are out.
- The employee, system, access-level and request-type list views are out. They only repeat the pagination already modelled in `Pagination`, and their deletes change no table.
- The ThemeColorPicker's reads of computed styles, its writes of CSS variables and its initial-load effect are DOM I/O and are out. `StyleRoundTrip` covers the value it writes.
- ThemeColorPicker: the colour values of the predefined palettes are configuration data and are not included. `ApplyPalette` is proved for every palette.
- Notification descriptions are written without the source's `.trim()`. Instead the model leaves out the space before a missing note or sentence. Every description starts with a fixed word and ends with a fixed sentence, so the two give the same text.
- `sampleNotifications` in the fixtures takes its times from `Date.now()` when the module loads, so its entries are not part of `SampleData`. The store starts with the notifications given to its constructor.
- Fixture observations, recorded rather than changed:
  - emp_007's `onboardingRequestId` names REQ007, which is an access request.
  - APP001 names user_005 as the approver of REQ002, while the access form's routing over the same tables gives user_004 (`SampleData.Req002Routing`).

## Findings

The handlers follow the program as written: `ApprovalListView.ExecuteAction` makes the `CallAsWritten` call, the template editor's cancel and save use `LocalIdAsWritten` and `NewIdAsWritten`, and `AccessLevelForm.Submit` validates with `ValidInputAsWritten`. The corrected definitions sit beside them, with the intended property proved of each.

| source | as written | input that shows it | evidently intended | confidence | as-written member | corrected member |
|---|---|---|---|---|---|---|
| src/components/approvals/ApprovalList.tsx:42,98-100 | `executeAction` passes the dialog kind `'approve'`/`'reject'` as `newApprovalStatus` | any pending action: opening the dialog with "approve" and executing sends `"approve"` | the declared `'approved'`/`'rejected'` | not executed | ApprovalList.AsWrittenStatusUndeclared | ApprovalList.Call |
| src/components/checklist-templates/ChecklistTemplateForm.tsx:146,180,247 with src/lib/id-generator.ts:22 | placeholder tasks get `generateMockId("task_local")`, which is upper-cased to `TASK_LOCAL_…`, while save and cancel test `startsWith('task_local_')` | open the new-task dialog on any list, then cancel: the placeholder stays, and on save its id is kept | cancel removes the placeholder; save replaces generated local ids | not executed | ChecklistTemplateForm.NewTaskCancelKeepsPlaceholder | ChecklistTemplateForm.NewTaskCancelRestores |
| src/components/admin/access-levels/AccessLevelForm.tsx:26,67,99,102 | the schema requires a non-empty id, so the `data.id \|\| generateMockId("alvl")` fallback the form advertises never runs | `AccessLevelInput("", "Lectura")` is rejected | a blank id is accepted and an id is generated | not executed | AccessLevelForm.BlankIdRejectedAsWritten | AccessLevelForm.BlankIdGenerates |
| src/components/requests/RequestList.tsx:173 with src/types/index.ts:62 | the requester's id, a user id, is looked up among the employees | a request by `"user_001"` with `emp_001` Anna Puig in the table shows `ID: user_001` | the requester's user name is shown | not executed | RequestList.RequesterOfSampleRow | RequestList.RequesterShownByName |
