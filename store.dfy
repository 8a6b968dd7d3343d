/**
 * The in-memory tables every handler reads and mutates: one field per
 * exported fixture array. Handlers push to, splice, overwrite or prepend to
 * these sequences.
 */
module DataStore {
  import opened Types

  class Store {
    var employees: seq<Employee>
    var users: seq<User>
    var requests: seq<Request>
    var tasks: seq<Task>
    var approvals: seq<Approval>
    var notifications: seq<NotificationItem>
    var checklists: seq<ChecklistTemplate>
    var requestTypes: seq<RequestTypeDefinition>
    var systems: seq<System>
    var departments: seq<Department>
    var accessLevels: seq<AccessLevel>

    constructor(
      employees: seq<Employee>, users: seq<User>, requests: seq<Request>, tasks: seq<Task>,
      approvals: seq<Approval>, notifications: seq<NotificationItem>,
      checklists: seq<ChecklistTemplate>, requestTypes: seq<RequestTypeDefinition>,
      systems: seq<System>, departments: seq<Department>, accessLevels: seq<AccessLevel>)
      ensures this.employees == employees && this.users == users && this.requests == requests
      ensures this.tasks == tasks && this.approvals == approvals && this.notifications == notifications
      ensures this.checklists == checklists && this.requestTypes == requestTypes
      ensures this.systems == systems && this.departments == departments
      ensures this.accessLevels == accessLevels
    {
      this.employees := employees;
      this.users := users;
      this.requests := requests;
      this.tasks := tasks;
      this.approvals := approvals;
      this.notifications := notifications;
      this.checklists := checklists;
      this.requestTypes := requestTypes;
      this.systems := systems;
      this.departments := departments;
      this.accessLevels := accessLevels;
    }
  }
}
