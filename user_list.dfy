/**
 * The user list: a paged copy of the user table and the delete that is
 * refused while the user still has open work or is named as an approver.
 */
module UserList {
  import opened Types
  import opened Collections
  import opened Pagination
  import opened DataStore
  import opened Lookups

  /** Requests the user asked for that are still open. */
  function ActiveRequestsOf(rs: seq<Request>, userId: string): seq<Request>
  {
    Filter(rs, (q: Request) => q.requesterId == userId && !IsTerminal(q.status))
  }

  /** Tasks assigned to the user that are not completed; a task without assignee is nobody's. */
  function ActiveTasksOf(ts: seq<Task>, userId: string): seq<Task>
  {
    Filter(ts, (t: Task) => t.assigneeId == Some(userId) && t.status != TaskCompleted)
  }

  /** Approvals waiting on the user. */
  function PendingApprovalsOf(aps: seq<Approval>, userId: string): seq<Approval>
  {
    Filter(aps, (a: Approval) => a.approverId == userId && a.status == ApprovalPending)
  }

  /** A template string renders an absent name as "undefined". */
  function NameText(name: Option<string>): string
  {
    match name
    case Some(n) => n
    case None => "undefined"
  }

  /** The policy strings that name the user: by the rendered name and by the login. */
  predicate NamesUser(policy: Option<string>, u: User)
  {
    policy == Some("Usuari: " + NameText(u.name)) || policy == Some("Usuari: " + u.samAccountName)
  }

  /** Systems whose approval policy names the user. */
  function SystemsNaming(ss: seq<System>, u: User): seq<System>
  {
    Filter(ss, (s: System) => NamesUser(s.requiresApprovalBy, u))
  }

  /** One reason a delete is refused, with the count (and for systems the names) the message shows. */
  datatype Dependency =
    | RequesterOf(requests: nat)
    | AssigneeOf(tasks: nat)
    | ApproverOf(approvals: nat)
    | DesignatedApprover(systems: seq<string>)

  function SystemNames(ss: seq<System>): (r: seq<string>)
    ensures |r| == |ss| && forall k :: 0 <= k < |ss| ==> r[k] == ss[k].name
  {
    seq(|ss|, k requires 0 <= k < |ss| => ss[k].name)
  }

  /** The blocking dependencies in the order the message lists them. */
  function BlockingDependencies(rs: seq<Request>, ts: seq<Task>, aps: seq<Approval>, ss: seq<System>, u: User)
    : seq<Dependency>
  {
    var requests := ActiveRequestsOf(rs, u.id);
    var tasks := ActiveTasksOf(ts, u.id);
    var approvals := PendingApprovalsOf(aps, u.id);
    var systems := SystemsNaming(ss, u);
    (if |requests| > 0 then [RequesterOf(|requests|)] else [])
      + (if |tasks| > 0 then [AssigneeOf(|tasks|)] else [])
      + (if |approvals| > 0 then [ApproverOf(|approvals|)] else [])
      + (if |systems| > 0 then [DesignatedApprover(SystemNames(systems))] else [])
  }

  /** A filter is non-empty exactly when some element passes it. */
  lemma FilterNonEmpty<T>(xs: seq<T>, p: T -> bool)
    ensures |Filter(xs, p)| > 0 <==> exists k :: 0 <= k < |xs| && p(xs[k])
  {
    var r := Filter(xs, p);
    if |r| > 0 {
      assert r[0] in xs;
    }
    if exists k :: 0 <= k < |xs| && p(xs[k]) {
      var k :| 0 <= k < |xs| && p(xs[k]);
      assert xs[k] in r;
    }
  }

  /**
   * The delete is refused exactly when the user requested an open request,
   * is assigned an open task, has a pending approval, or is named by a
   * system's policy.
   */
  lemma BlockedExactly(rs: seq<Request>, ts: seq<Task>, aps: seq<Approval>, ss: seq<System>, u: User)
    ensures |BlockingDependencies(rs, ts, aps, ss, u)| > 0 <==>
      || (exists k :: 0 <= k < |rs| && rs[k].requesterId == u.id && !IsTerminal(rs[k].status))
      || (exists k :: 0 <= k < |ts| && ts[k].assigneeId == Some(u.id) && ts[k].status != TaskCompleted)
      || (exists k :: 0 <= k < |aps| && aps[k].approverId == u.id && aps[k].status == ApprovalPending)
      || (exists k :: 0 <= k < |ss| && NamesUser(ss[k].requiresApprovalBy, u))
  {
    FilterNonEmpty(rs, (q: Request) => q.requesterId == u.id && !IsTerminal(q.status));
    FilterNonEmpty(ts, (t: Task) => t.assigneeId == Some(u.id) && t.status != TaskCompleted);
    FilterNonEmpty(aps, (a: Approval) => a.approverId == u.id && a.status == ApprovalPending);
    FilterNonEmpty(ss, (s: System) => NamesUser(s.requiresApprovalBy, u));
  }

  /** A user without a name is blocked by a policy that literally reads "Usuari: undefined". */
  lemma UnnamedUserMatchesUndefined(u: User)
    requires u.name.None?
    ensures NamesUser(Some("Usuari: undefined"), u)
  {
    assert "Usuari: " + NameText(u.name) == "Usuari: undefined";
  }

  /** The user table after the splice, when the id is found. */
  function WithoutUser(us: seq<User>, id: string): (r: seq<User>)
    ensures UserIndex(us, id).None? ==> r == us
    ensures UserIndex(us, id).Some? ==> r == RemoveAt(us, UserIndex(us, id).value)
  {
    match UserIndex(us, id)
    case Some(i) => RemoveAt(us, i)
    case None => us
  }

  /** Only the first user with the id leaves; the others keep their order. */
  lemma WithoutUserShape(us: seq<User>, id: string)
    ensures var r := WithoutUser(us, id);
      && (UserIndex(us, id).Some? ==> |r| == |us| - 1 && forall k :: 0 <= k < |r| ==> r[k] in us)
      && (forall k :: 0 <= k < |us| && us[k].id != id ==> us[k] in r)
  {
    var r := WithoutUser(us, id);
    if UserIndex(us, id).Some? {
      var i := UserIndex(us, id).value;
      forall k | 0 <= k < |us| && us[k].id != id
        ensures us[k] in r
      {
        if k < i {
          assert r[k] == us[k];
        } else {
          assert r[k - 1] == us[k];
        }
      }
    }
  }

  predicate UniqueIds(us: seq<User>)
  {
    forall i, j :: 0 <= i < j < |us| ==> us[i].id != us[j].id
  }

  /**
   * When the list mirrors a table of distinct ids the filtered list and the
   * spliced table agree, and the id is gone from both.
   */
  lemma DeleteKeepsMirror(us: seq<User>, id: string)
    requires UniqueIds(us) && UserIndex(us, id).Some?
    ensures Filter(us, (x: User) => x.id != id) == WithoutUser(us, id)
    ensures forall k :: 0 <= k < |WithoutUser(us, id)| ==> WithoutUser(us, id)[k].id != id
    ensures UniqueIds(WithoutUser(us, id))
  {
    var k := UserIndex(us, id).value;
    FilterDropsOne(us, (x: User) => x.id != id, k);
  }

  datatype DeleteOutcome = Blocked(dependencies: seq<Dependency>) | Deleted

  class View {
    var managed: seq<User>
    var currentPage: int

    /** The list shows the users it is given, else a copy of the table. */
    constructor(st: Store, initial: Option<seq<User>>)
      ensures managed == (if initial.Some? then initial.value else st.users) && currentPage == 1
    {
      managed := if initial.Some? then initial.value else st.users;
      currentPage := 1;
    }

    method Previous()
      modifies this
      ensures currentPage == PreviousPage(old(currentPage)) && managed == old(managed)
    {
      currentPage := PreviousPage(currentPage);
    }

    method Next()
      modifies this
      ensures currentPage == NextPage(old(currentPage), TotalPages(|managed|)) && managed == old(managed)
    {
      currentPage := NextPage(currentPage, TotalPages(|managed|));
    }

    /**
     * `handleDeleteUser`: a refused delete changes nothing; otherwise the
     * user leaves the table and the list, and the page steps back when its
     * only row went.
     */
    method DeleteUser(st: Store, u: User) returns (outcome: DeleteOutcome)
      modifies st`users, this
      ensures var deps := BlockingDependencies(st.requests, st.tasks, st.approvals, st.systems, u);
        outcome == if |deps| > 0 then Blocked(deps) else Deleted
      ensures outcome.Blocked? ==> unchanged(st) && managed == old(managed) && currentPage == old(currentPage)
      ensures outcome.Deleted? ==> st.users == WithoutUser(old(st.users), u.id)
      ensures outcome.Deleted? ==> managed == Filter(old(managed), (x: User) => x.id != u.id)
      ensures outcome.Deleted? ==> currentPage == GuardedPageAfterDelete(old(managed), old(currentPage))
    {
      var deps := BlockingDependencies(st.requests, st.tasks, st.approvals, st.systems, u);
      if |deps| > 0 {
        return Blocked(deps);
      }
      var index := UserIndex(st.users, u.id);
      if index.Some? {
        st.users := st.users[..index.value] + st.users[index.value + 1..];
      }
      var shown := PageRows(managed, currentPage);
      var totalPages := TotalPages(|managed|);
      managed := Filter(managed, (x: User) => x.id != u.id);
      if |shown| == 1 && currentPage > 1 && totalPages > 1 {
        currentPage := currentPage - 1;
      }
      outcome := Deleted;
    }
  }
}
