/**
 * The department list: a paged copy of the department table and the delete
 * that is refused while employees, application users, open tasks or open
 * requests still name the department.
 */
module DepartmentList {
  import opened Types
  import opened Collections
  import opened Pagination
  import opened DataStore
  import opened Lookups

  /** One kind of record that keeps a department in use, in the order the warning lists them. */
  datatype DepartmentUse = Employees | AppUsers | ActiveTasks | ActiveRequests

  predicate UsedByEmployee(es: seq<Employee>, name: string)
  {
    Any(es, (e: Employee) => e.department == name)
  }

  predicate UsedByUser(us: seq<User>, name: string)
  {
    Any(us, (u: User) => name in u.departments)
  }

  predicate UsedByActiveTask(ts: seq<Task>, name: string)
  {
    Any(ts, (t: Task) => t.assigneeDepartment == name && t.status != TaskCompleted)
  }

  predicate UsedByActiveRequest(rs: seq<Request>, name: string)
  {
    Any(rs, (q: Request) => q.assignedDepartment == Some(name) && !IsTerminal(q.status))
  }

  /** The uses the warning lists, in its order. */
  function Uses(es: seq<Employee>, us: seq<User>, ts: seq<Task>, rs: seq<Request>, name: string): (r: seq<DepartmentUse>)
    ensures Employees in r <==> exists k :: 0 <= k < |es| && es[k].department == name
    ensures AppUsers in r <==> exists k :: 0 <= k < |us| && name in us[k].departments
    ensures ActiveTasks in r <==> exists k :: 0 <= k < |ts| && ts[k].assigneeDepartment == name && ts[k].status != TaskCompleted
    ensures ActiveRequests in r <==>
      exists k :: 0 <= k < |rs| && rs[k].assignedDepartment == Some(name) && !IsTerminal(rs[k].status)
  {
    (if UsedByEmployee(es, name) then [Employees] else [])
      + (if UsedByUser(us, name) then [AppUsers] else [])
      + (if UsedByActiveTask(ts, name) then [ActiveTasks] else [])
      + (if UsedByActiveRequest(rs, name) then [ActiveRequests] else [])
  }

  /** The warning names each kind of use at most once, in the fixed order employees, users, tasks, requests. */
  lemma UsesOrdered(es: seq<Employee>, us: seq<User>, ts: seq<Task>, rs: seq<Request>, name: string)
    ensures var r := Uses(es, us, ts, rs, name);
      forall i, j :: 0 <= i < j < |r| ==> Rank(r[i]) < Rank(r[j])
  {
  }

  function Rank(d: DepartmentUse): nat
  {
    match d
    case Employees => 0
    case AppUsers => 1
    case ActiveTasks => 2
    case ActiveRequests => 3
  }

  /** The department table after the splice, when the id is found. */
  function WithoutDepartment(ds: seq<Department>, id: string): (r: seq<Department>)
    ensures DepartmentIndex(ds, id).None? ==> r == ds
    ensures DepartmentIndex(ds, id).Some? ==> r == RemoveAt(ds, DepartmentIndex(ds, id).value)
  {
    match DepartmentIndex(ds, id)
    case Some(i) => RemoveAt(ds, i)
    case None => ds
  }

  predicate UniqueIds(ds: seq<Department>)
  {
    forall i, j :: 0 <= i < j < |ds| ==> ds[i].id != ds[j].id
  }

  /**
   * When the list mirrors a table of distinct ids the filtered list and the
   * spliced table agree, and the id is gone from both.
   */
  lemma DeleteKeepsMirror(ds: seq<Department>, id: string)
    requires UniqueIds(ds) && DepartmentIndex(ds, id).Some?
    ensures Filter(ds, (d: Department) => d.id != id) == WithoutDepartment(ds, id)
    ensures forall k :: 0 <= k < |WithoutDepartment(ds, id)| ==> WithoutDepartment(ds, id)[k].id != id
    ensures UniqueIds(WithoutDepartment(ds, id))
  {
    var k := DepartmentIndex(ds, id).value;
    FilterDropsOne(ds, (d: Department) => d.id != id, k);
  }

  datatype DeleteOutcome = Blocked(uses: seq<DepartmentUse>) | Deleted

  class View {
    var managed: seq<Department>
    var currentPage: int

    /** The list shows the departments it is given, else a copy of the table. */
    constructor(st: Store, initial: Option<seq<Department>>)
      ensures managed == (if initial.Some? then initial.value else st.departments) && currentPage == 1
    {
      managed := if initial.Some? then initial.value else st.departments;
      currentPage := 1;
    }

    method Previous()
      modifies this
      ensures currentPage == PreviousPage(old(currentPage)) && managed == old(managed)
    {
      currentPage := PreviousPage(currentPage);
    }

    method Next()
      modifies this
      ensures currentPage == NextPage(old(currentPage), TotalPages(|managed|)) && managed == old(managed)
    {
      currentPage := NextPage(currentPage, TotalPages(|managed|));
    }

    /**
     * `handleDeleteDepartment`: refused, with the uses found, while anything
     * names the department; otherwise it leaves the table and the list, and
     * the page steps back when its only row went.
     */
    method DeleteDepartment(st: Store, d: Department) returns (outcome: DeleteOutcome)
      modifies st`departments, this
      ensures var uses := Uses(st.employees, st.users, st.tasks, st.requests, d.name);
        outcome == if |uses| > 0 then Blocked(uses) else Deleted
      ensures outcome.Blocked? ==> unchanged(st) && managed == old(managed) && currentPage == old(currentPage)
      ensures outcome.Deleted? ==> st.departments == WithoutDepartment(old(st.departments), d.id)
      ensures outcome.Deleted? ==> managed == Filter(old(managed), (x: Department) => x.id != d.id)
      ensures outcome.Deleted? ==> currentPage == GuardedPageAfterDelete(old(managed), old(currentPage))
    {
      var uses := Uses(st.employees, st.users, st.tasks, st.requests, d.name);
      if |uses| > 0 {
        return Blocked(uses);
      }
      var index := DepartmentIndex(st.departments, d.id);
      if index.Some? {
        st.departments := st.departments[..index.value] + st.departments[index.value + 1..];
      }
      var shown := PageRows(managed, currentPage);
      var totalPages := TotalPages(|managed|);
      managed := Filter(managed, (x: Department) => x.id != d.id);
      if |shown| == 1 && currentPage > 1 && totalPages > 1 {
        currentPage := currentPage - 1;
      }
      outcome := Deleted;
    }
  }
}
