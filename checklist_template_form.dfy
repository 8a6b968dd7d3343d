/**
 * The checklist template editor: the task list held by the form, moving
 * and deleting tasks with renumbering, the task dialog (new task, edit,
 * save, cancel), and saving the template into the checklist table.
 */
module ChecklistTemplateForm {
  import opened Types
  import opened Text
  import opened Collections
  import opened IdGenerator
  import opened DataStore
  import opened Lookups

  // ---------------------------------------------------------------------
  // Schema

  /** A task row: a title of at least 3 characters, a department, and an order of at least 1 when present. */
  predicate ValidTask(t: TaskTemplate)
  {
    |t.title| >= 3 && |t.assigneeDepartment| >= 1 && (t.order.None? || t.order.value >= 1)
  }

  /** The template fields of the form; the tasks are the editor's list. */
  datatype TemplateInput = TemplateInput(id: string, name: string, requestTypeIdentifier: string, description: string)

  predicate ValidTemplate(data: TemplateInput, tasks: seq<TaskTemplate>)
  {
    |data.name| >= 3 && |data.requestTypeIdentifier| >= 1 && forall i :: 0 <= i < |tasks| ==> ValidTask(tasks[i])
  }

  // ---------------------------------------------------------------------
  // Renumbering, moving and deleting

  /** `reorderTasksAndUpdateForm`: every task gets its 1-based position as order. */
  function Renumbered(ts: seq<TaskTemplate>): (r: seq<TaskTemplate>)
    ensures |r| == |ts|
  {
    seq(|ts|, i requires 0 <= i < |ts| => ts[i].(order := Some(i + 1)))
  }

  /** Orders are exactly 1..n. */
  predicate Numbered(ts: seq<TaskTemplate>)
  {
    forall i :: 0 <= i < |ts| ==> ts[i].order == Some(i + 1)
  }

  /** A task with its order forgotten. */
  function Unordered(t: TaskTemplate): TaskTemplate
  {
    t.(order := None)
  }

  /** The same tasks in the same positions, orders aside. */
  predicate SameTasks(a: seq<TaskTemplate>, b: seq<TaskTemplate>)
  {
    |a| == |b| && forall i :: 0 <= i < |a| ==> Unordered(a[i]) == Unordered(b[i])
  }

  /**
   * After renumbering the orders are exactly 1..n and every task is
   * otherwise as it was; renumbering a numbered list changes nothing.
   */
  lemma RenumberedShape(ts: seq<TaskTemplate>)
    ensures Numbered(Renumbered(ts)) && SameTasks(Renumbered(ts), ts)
    ensures Numbered(ts) ==> Renumbered(ts) == ts
    ensures Renumbered(Renumbered(ts)) == Renumbered(ts)
  {
  }

  /** Renumbering only looks at the tasks, not at their old orders. */
  lemma RenumberedSameTasks(a: seq<TaskTemplate>, b: seq<TaskTemplate>)
    requires SameTasks(a, b)
    ensures Renumbered(a) == Renumbered(b)
  {
    forall i | 0 <= i < |a|
      ensures Renumbered(a)[i] == Renumbered(b)[i]
    {
      assert a[i].(order := Some(i + 1)) == Unordered(a[i]).(order := Some(i + 1));
      assert b[i].(order := Some(i + 1)) == Unordered(b[i]).(order := Some(i + 1));
    }
  }

  function Swap(ts: seq<TaskTemplate>, i: nat, j: nat): (r: seq<TaskTemplate>)
    requires i < |ts| && j < |ts|
    ensures |r| == |ts|
  {
    ts[i := ts[j]][j := ts[i]]
  }

  /** `handleMoveTaskUp`: nothing at the top, otherwise swap with the task above and renumber. */
  function MoveUp(ts: seq<TaskTemplate>, i: nat): seq<TaskTemplate>
    requires i < |ts|
  {
    if i > 0 then Renumbered(Swap(ts, i - 1, i)) else ts
  }

  /** `handleMoveTaskDown`: nothing at the bottom, otherwise swap with the task below and renumber. */
  function MoveDown(ts: seq<TaskTemplate>, i: nat): seq<TaskTemplate>
    requires i < |ts|
  {
    if i < |ts| - 1 then Renumbered(Swap(ts, i, i + 1)) else ts
  }

  /**
   * A move up at the top is a no-op; elsewhere the task and the one above
   * trade places, nothing else moves, and the orders become 1..n.
   */
  lemma MoveUpEffect(ts: seq<TaskTemplate>, i: nat)
    requires i < |ts|
    ensures i == 0 ==> MoveUp(ts, i) == ts
    ensures i > 0 ==>
      var r := MoveUp(ts, i);
      && |r| == |ts| && Numbered(r)
      && Unordered(r[i - 1]) == Unordered(ts[i]) && Unordered(r[i]) == Unordered(ts[i - 1])
      && forall j :: 0 <= j < |ts| && j != i && j != i - 1 ==> Unordered(r[j]) == Unordered(ts[j])
  {
  }

  /** A move down at the bottom is a no-op; elsewhere the task and the one below trade places. */
  lemma MoveDownEffect(ts: seq<TaskTemplate>, i: nat)
    requires i < |ts|
    ensures i == |ts| - 1 ==> MoveDown(ts, i) == ts
    ensures i < |ts| - 1 ==>
      var r := MoveDown(ts, i);
      && |r| == |ts| && Numbered(r)
      && Unordered(r[i + 1]) == Unordered(ts[i]) && Unordered(r[i]) == Unordered(ts[i + 1])
      && forall j :: 0 <= j < |ts| && j != i && j != i + 1 ==> Unordered(r[j]) == Unordered(ts[j])
  {
  }

  /** Moving a task up and then back down gives the renumbered original list, and the list itself when it was numbered. */
  lemma MoveUpThenDown(ts: seq<TaskTemplate>, i: nat)
    requires 0 < i < |ts|
    ensures MoveDown(MoveUp(ts, i), i - 1) == Renumbered(ts)
    ensures Numbered(ts) ==> MoveDown(MoveUp(ts, i), i - 1) == ts
  {
    var up := Swap(ts, i - 1, i);
    var back := Swap(Renumbered(up), i - 1, i);
    assert SameTasks(back, ts);
    RenumberedSameTasks(back, ts);
  }

  /** Moving a task down and then back up gives the renumbered original list. */
  lemma MoveDownThenUp(ts: seq<TaskTemplate>, i: nat)
    requires i + 1 < |ts|
    ensures MoveUp(MoveDown(ts, i), i + 1) == Renumbered(ts)
  {
    var down := Swap(ts, i, i + 1);
    var back := Swap(Renumbered(down), i, i + 1);
    assert SameTasks(back, ts);
    RenumberedSameTasks(back, ts);
  }

  /** `handleDeleteTaskTemplate`: remove the row and renumber the rest. */
  function DeleteTask(ts: seq<TaskTemplate>, i: nat): seq<TaskTemplate>
    requires i < |ts|
  {
    Renumbered(RemoveAt(ts, i))
  }

  /** Exactly the task at i goes; the others keep their relative order and are numbered 1..n-1. */
  lemma DeleteTaskEffect(ts: seq<TaskTemplate>, i: nat)
    requires i < |ts|
    ensures var r := DeleteTask(ts, i);
      && |r| == |ts| - 1 && Numbered(r)
      && (forall j :: 0 <= j < i ==> Unordered(r[j]) == Unordered(ts[j]))
      && (forall j :: i <= j < |r| ==> Unordered(r[j]) == Unordered(ts[j + 1]))
  {
  }

  // ---------------------------------------------------------------------
  // The task dialog

  /** `t.order || 0` */
  function OrderKey(t: TaskTemplate): int
  {
    GetOr(t.order, 0)
  }

  /** `Math.max` of the order keys of a non-empty list. */
  function MaxOrder(ts: seq<TaskTemplate>): (m: int)
    requires |ts| > 0
    ensures forall i :: 0 <= i < |ts| ==> OrderKey(ts[i]) <= m
    ensures exists i :: 0 <= i < |ts| && OrderKey(ts[i]) == m
  {
    if |ts| == 1 then OrderKey(ts[0])
    else
      var m := MaxOrder(ts[1..]);
      assert forall i :: 1 <= i < |ts| ==> ts[i] == ts[1..][i - 1];
      if OrderKey(ts[0]) >= m then OrderKey(ts[0]) else m
  }

  /** The order of a new task: one more than the largest order, or 1 in an empty list. */
  function NewTaskOrder(ts: seq<TaskTemplate>): (r: int)
    ensures forall i :: 0 <= i < |ts| ==> OrderKey(ts[i]) < r
    ensures |ts| == 0 ==> r == 1
    ensures |ts| > 0 ==> exists i :: 0 <= i < |ts| && r == OrderKey(ts[i]) + 1
  {
    (if |ts| > 0 then MaxOrder(ts) else 0) + 1
  }

  /** In a numbered list the new task's order is n + 1. */
  lemma NewTaskOrderNumbered(ts: seq<TaskTemplate>)
    requires Numbered(ts)
    ensures NewTaskOrder(ts) == |ts| + 1
  {
    if |ts| > 0 {
      assert OrderKey(ts[|ts| - 1]) == |ts|;
    }
  }

  /** `sampleDepartments[0]?.name || "IT"` */
  function DefaultDepartment(departments: seq<Department>): string
  {
    if |departments| > 0 && departments[0].name != "" then departments[0].name else "IT"
  }

  const LocalPrefix: string := "task_local"
  const TaskPrefix: string := "task"
  const TemplatePrefix: string := "clt"

  /** The row a new-task dialog appends and edits. */
  function PlaceholderTask(id: string, departments: seq<Department>, ts: seq<TaskTemplate>): TaskTemplate
  {
    TaskTemplate(id, "Nova Tasca", Some(""), DefaultDepartment(departments), Some(NewTaskOrder(ts)))
  }

  /** The cancel handler's `task_local_` test, as written: a matching id starts with a lower-case 't'. */
  predicate LocalIdAsWritten(id: string)
    ensures LocalIdAsWritten(id) ==> |id| > 0 && id[0] == 't'
  {
    StartsWith(id, "task_local_")
  }

  /** How the generator writes the local prefix: upper-cased, then '_'. */
  const GeneratedLocalPrefix: string := "TASK_LOCAL_"

  lemma GeneratedLocalPrefixIsUpper()
    ensures ToUpper(LocalPrefix) + "_" == GeneratedLocalPrefix
  {
    var u := ToUpper(LocalPrefix) + "_";
    assert forall i :: 0 <= i < |u| ==> u[i] == GeneratedLocalPrefix[i];
  }

  /**
   * The corrected local-id test: it accepts every id the written test does,
   * and also the ids generated for local rows, which start with the
   * upper-cased prefix the test above misses.
   */
  predicate LocalId(id: string)
    ensures LocalIdAsWritten(id) ==> LocalId(id)
  {
    StartsWith(id, "task_local_") || StartsWith(id, GeneratedLocalPrefix)
  }

  /** The save handler's test for ids to replace, as written: a matching id also starts with a lower-case 't'. */
  predicate NewIdAsWritten(id: string)
    ensures NewIdAsWritten(id) ==> |id| > 0 && id[0] == 't'
  {
    StartsWith(id, "task_new_") || LocalIdAsWritten(id)
  }

  /** The corrected save-handler test, with generated local ids recognised. */
  predicate NewId(id: string)
    ensures NewIdAsWritten(id) ==> NewId(id)
  {
    StartsWith(id, "task_new_") || LocalId(id)
  }

  /**
   * Every id the new-task dialog generates escapes both tests as written
   * (it starts with 'T', not 't'), and is caught by the corrected ones.
   */
  lemma GeneratedLocalIdMissed(n: nat, now: nat)
    ensures !LocalIdAsWritten(MockId(LocalPrefix, n, now)) && !NewIdAsWritten(MockId(LocalPrefix, n, now))
    ensures LocalId(MockId(LocalPrefix, n, now)) && NewId(MockId(LocalPrefix, n, now))
  {
    var id := MockId(LocalPrefix, n, now);
    MockIdSplit(LocalPrefix, n, now);
    GeneratedLocalPrefixIsUpper();
    assert id == GeneratedLocalPrefix + IdTail(n, now);
    assert id[..|GeneratedLocalPrefix|] == GeneratedLocalPrefix;
    assert id[0] == 'T';
    assert "task_local_"[0] == 't' && "task_new_"[0] == 't';
  }

  /** `handleTaskDialogSave`'s new list, before renumbering, for a dialog editing row i or a new row. */
  function SavedRows(ts: seq<TaskTemplate>, draft: TaskTemplate, index: Option<nat>): seq<TaskTemplate>
    requires index.Some? ==> index.value < |ts|
  {
    match index
    case Some(i) => ts[i := draft]
    case None =>
      if |ts| > 0 then
        if ts[|ts| - 1].id == draft.id then ts[|ts| - 1 := draft] else ts + [draft]
      else [draft]
  }

  /** `handleTaskDialogCancel`'s list with a given local-id test. */
  function CancelledRows(ts: seq<TaskTemplate>, draft: Option<TaskTemplate>, index: Option<nat>, local: string -> bool)
    : seq<TaskTemplate>
  {
    if index.None? && |ts| > 0 && draft.Some? && local(draft.value.id) && ts[|ts| - 1].id == draft.value.id
    then ts[..|ts| - 1] else ts
  }

  /** Saving an edit of row i replaces exactly that row and renumbers. */
  lemma SaveEditedRow(ts: seq<TaskTemplate>, draft: TaskTemplate, i: nat)
    requires i < |ts|
    ensures var r := Renumbered(SavedRows(ts, draft, Some(i)));
      && |r| == |ts| && Numbered(r) && Unordered(r[i]) == Unordered(draft)
      && forall j :: 0 <= j < |ts| && j != i ==> Unordered(r[j]) == Unordered(ts[j])
  {
  }

  /** Opening a new-task dialog, editing the draft and saving it gives the old list plus the edited row, renumbered. */
  lemma NewTaskSaved(ts: seq<TaskTemplate>, placeholder: TaskTemplate, edited: TaskTemplate)
    requires edited.id == placeholder.id
    ensures Renumbered(SavedRows(ts + [placeholder], edited, None)) == Renumbered(ts + [edited])
  {
    assert (ts + [placeholder])[|ts| := edited] == ts + [edited];
  }

  /**
   * As written, cancelling a freshly opened new-task dialog never removes
   * its placeholder row: the list keeps one more row than before.
   */
  lemma NewTaskCancelKeepsPlaceholder(ts: seq<TaskTemplate>, departments: seq<Department>, n: nat, now: nat)
    ensures var p := PlaceholderTask(MockId(LocalPrefix, n, now), departments, ts);
      CancelledRows(ts + [p], Some(p), None, LocalIdAsWritten) == ts + [p]
  {
    GeneratedLocalIdMissed(n, now);
  }

  /** With generated local ids recognised, cancelling a freshly opened new-task dialog restores the list. */
  lemma NewTaskCancelRestores(ts: seq<TaskTemplate>, departments: seq<Department>, n: nat, now: nat)
    ensures var p := PlaceholderTask(MockId(LocalPrefix, n, now), departments, ts);
      CancelledRows(ts + [p], Some(p), None, LocalId) == ts
  {
    GeneratedLocalIdMissed(n, now);
    var p := PlaceholderTask(MockId(LocalPrefix, n, now), departments, ts);
    assert (ts + [p])[..|ts|] == ts;
  }

  // ---------------------------------------------------------------------
  // The initial list

  /** The edited template's tasks with a missing or zero order filled from the position. */
  function FilledOrders(ts: seq<TaskTemplate>): (r: seq<TaskTemplate>)
    ensures |r| == |ts|
  {
    seq(|ts|, i requires 0 <= i < |ts| => ts[i].(order := Some(EffectiveOrder(ts[i].order, i))))
  }

  /** Each order key is at least the one before it. */
  predicate SortedByOrder(ts: seq<TaskTemplate>)
  {
    forall i :: 0 < i < |ts| ==> OrderKey(ts[i - 1]) <= OrderKey(ts[i])
  }

  /** Neighbourwise ascending means ascending: every key is at most every later one. */
  lemma {:induction false} SortedByOrderPairs(ts: seq<TaskTemplate>, i: nat, j: nat)
    requires SortedByOrder(ts) && i <= j < |ts|
    ensures OrderKey(ts[i]) <= OrderKey(ts[j])
  {
    if i < j {
      SortedByOrderPairs(ts, i, j - 1);
    }
  }

  /** Insert a task after every task whose key is not larger: the step of a stable sort. */
  function InsertByOrder(t: TaskTemplate, s: seq<TaskTemplate>): (r: seq<TaskTemplate>)
    requires SortedByOrder(s)
    ensures SortedByOrder(r) && |r| == |s| + 1
    ensures r[|r| - 1] == t || (|s| > 0 && r[|r| - 1] == s[|s| - 1])
  {
    if |s| == 0 then [t]
    else if OrderKey(s[|s| - 1]) <= OrderKey(t) then s + [t]
    else
      var front := InsertByOrder(t, s[..|s| - 1]);
      assert OrderKey(front[|front| - 1]) <= OrderKey(s[|s| - 1]) by {
        if |s| > 1 && front[|front| - 1] != t {
          assert OrderKey(s[|s| - 2]) <= OrderKey(s[|s| - 1]);
        }
      }
      front + [s[|s| - 1]]
  }

  /** Inserting adds exactly the one task. */
  lemma {:induction false} InsertByOrderPerm(t: TaskTemplate, s: seq<TaskTemplate>)
    requires SortedByOrder(s)
    ensures multiset(InsertByOrder(t, s)) == multiset(s) + multiset{t}
  {
    if |s| > 0 && OrderKey(t) < OrderKey(s[|s| - 1]) {
      InsertByOrderPerm(t, s[..|s| - 1]);
      assert s == s[..|s| - 1] + [s[|s| - 1]];
    }
  }

  /** The stable ascending sort by `order || 0`: each task goes after every earlier task whose key is not larger. */
  function SortByOrder(ts: seq<TaskTemplate>): (r: seq<TaskTemplate>)
    ensures SortedByOrder(r) && |r| == |ts|
  {
    if |ts| == 0 then []
    else InsertByOrder(ts[|ts| - 1], SortByOrder(ts[..|ts| - 1]))
  }

  /** Sorting keeps exactly the tasks it is given. */
  lemma {:induction false} SortByOrderPerm(ts: seq<TaskTemplate>)
    ensures multiset(SortByOrder(ts)) == multiset(ts)
  {
    if |ts| > 0 {
      SortByOrderPerm(ts[..|ts| - 1]);
      InsertByOrderPerm(ts[|ts| - 1], SortByOrder(ts[..|ts| - 1]));
      assert ts == ts[..|ts| - 1] + [ts[|ts| - 1]];
    }
  }

  /** The form's initial task list for an edited template. */
  function InitialTasks(template: Option<ChecklistTemplate>): seq<TaskTemplate>
  {
    match template
    case Some(t) => SortByOrder(FilledOrders(t.taskTemplates))
    case None => []
  }

  /** The initial list is the template's tasks, each with a non-zero order, sorted ascending by order. */
  lemma InitialTasksShape(t: ChecklistTemplate)
    ensures var r := InitialTasks(Some(t));
      && SortedByOrder(r) && multiset(r) == multiset(FilledOrders(t.taskTemplates))
      && forall k :: 0 <= k < |r| ==> r[k].order.Some? && r[k].order.value != 0
  {
    var r := InitialTasks(Some(t));
    var f := FilledOrders(t.taskTemplates);
    SortByOrderPerm(f);
    forall k | 0 <= k < |r|
      ensures r[k].order.Some? && r[k].order.value != 0
    {
      assert r[k] in multiset(f);
      var i :| 0 <= i < |f| && f[i] == r[k];
    }
  }

  /** A template whose orders are already 1..n with no repeats loads in its own order. */
  lemma {:induction false} NumberedLoadsInPlace(ts: seq<TaskTemplate>)
    requires Numbered(ts)
    ensures SortByOrder(FilledOrders(ts)) == ts
  {
    assert FilledOrders(ts) == ts;
    SortedNumbered(ts);
  }

  lemma InsertAtEnd(t: TaskTemplate, s: seq<TaskTemplate>)
    requires SortedByOrder(s) && (|s| == 0 || OrderKey(s[|s| - 1]) <= OrderKey(t))
    ensures InsertByOrder(t, s) == s + [t]
  {
  }

  lemma NumberedSorted(ts: seq<TaskTemplate>)
    requires Numbered(ts)
    ensures SortedByOrder(ts)
  {
    forall i | 0 < i < |ts|
      ensures OrderKey(ts[i - 1]) <= OrderKey(ts[i])
    {
      assert OrderKey(ts[i - 1]) == i && OrderKey(ts[i]) == i + 1;
    }
  }

  /** A list whose front sorts to itself and whose last key is not below the front's sorts to itself. */
  lemma SortKeepsSnoc(ts: seq<TaskTemplate>)
    requires |ts| > 0
    requires SortByOrder(ts[..|ts| - 1]) == ts[..|ts| - 1] && SortedByOrder(ts[..|ts| - 1])
    requires |ts| == 1 || OrderKey(ts[|ts| - 2]) <= OrderKey(ts[|ts| - 1])
    ensures SortByOrder(ts) == ts
  {
    InsertAtEnd(ts[|ts| - 1], ts[..|ts| - 1]);
    assert ts[..|ts| - 1] + [ts[|ts| - 1]] == ts;
  }

  lemma {:induction false} SortedNumbered(ts: seq<TaskTemplate>)
    requires Numbered(ts)
    ensures SortByOrder(ts) == ts
  {
    if |ts| > 0 {
      var front := ts[..|ts| - 1];
      assert Numbered(front);
      SortedNumbered(front);
      NumberedSorted(front);
      if |ts| > 1 {
        assert OrderKey(ts[|ts| - 2]) == |ts| - 1;
      }
      SortKeepsSnoc(ts);
    }
  }

  // ---------------------------------------------------------------------
  // Saving the template

  /** Rows among the first k whose id `isNew` marks as a placeholder. */
  function Placeholders(ts: seq<TaskTemplate>, isNew: string -> bool, k: nat): (n: nat)
    requires k <= |ts|
    ensures n <= k
  {
    if k == 0 then 0 else Placeholders(ts, isNew, k - 1) + (if isNew(ts[k - 1].id) then 1 else 0)
  }

  /** The saved row: its order is its position, and an id that `isNew` marks is replaced by `newId`. */
  function FinalTask(t: TaskTemplate, isNew: string -> bool, index: nat, newId: string): TaskTemplate
  {
    t.(id := if isNew(t.id) then newId else t.id, order := Some(index + 1))
  }

  /** Saved row i: a placeholder gets the task id drawn after those of the placeholders before it. */
  function FinalTaskAt(ts: seq<TaskTemplate>, isNew: string -> bool, i: nat, first: nat, now: nat): TaskTemplate
    requires i < |ts|
  {
    FinalTask(ts[i], isNew, i, MockId(TaskPrefix, first + Placeholders(ts, isNew, i), now))
  }

  /** The saved rows, fresh ids numbered from `first`. */
  function FinalTasks(ts: seq<TaskTemplate>, isNew: string -> bool, first: nat, now: nat): (r: seq<TaskTemplate>)
    ensures |r| == |ts|
    ensures forall i :: 0 <= i < |ts| ==> r[i] == FinalTaskAt(ts, isNew, i, first, now)
  {
    seq(|ts|, i requires 0 <= i < |ts| => FinalTaskAt(ts, isNew, i, first, now))
  }

  /**
   * The saved rows are numbered 1..n; a row keeps its id unless the id
   * marks a new row, in which case it gets the next generated task id; the
   * rest of every row is kept.
   */
  lemma {:induction false} FinalTasksShape(ts: seq<TaskTemplate>, isNew: string -> bool, first: nat, now: nat)
    ensures Numbered(FinalTasks(ts, isNew, first, now))
    ensures forall i :: 0 <= i < |ts| ==>
      var t := FinalTasks(ts, isNew, first, now)[i];
      t.title == ts[i].title && t.description == ts[i].description && t.assigneeDepartment == ts[i].assigneeDepartment
    ensures forall i :: 0 <= i < |ts| && !isNew(ts[i].id) ==> FinalTasks(ts, isNew, first, now)[i].id == ts[i].id
    ensures forall i :: 0 <= i < |ts| && isNew(ts[i].id) ==>
      FinalTasks(ts, isNew, first, now)[i].id == MockId(TaskPrefix, first + Placeholders(ts, isNew, i), now)
  {
    var r := FinalTasks(ts, isNew, first, now);
    forall i | 0 <= i < |ts|
      ensures && r[i].order == Some(i + 1)
        && r[i].title == ts[i].title && r[i].description == ts[i].description
        && r[i].assigneeDepartment == ts[i].assigneeDepartment
        && (!isNew(ts[i].id) ==> r[i].id == ts[i].id)
        && (isNew(ts[i].id) ==> r[i].id == MockId(TaskPrefix, first + Placeholders(ts, isNew, i), now))
    {
      FinalTaskAtShape(ts, isNew, i, first, now);
    }
  }

  /** Saved row i, field by field. */
  lemma FinalTaskAtShape(ts: seq<TaskTemplate>, isNew: string -> bool, i: nat, first: nat, now: nat)
    requires i < |ts|
    ensures var t := FinalTaskAt(ts, isNew, i, first, now);
      && t.order == Some(i + 1)
      && t.title == ts[i].title && t.description == ts[i].description
      && t.assigneeDepartment == ts[i].assigneeDepartment
      && (!isNew(ts[i].id) ==> t.id == ts[i].id)
      && (isNew(ts[i].id) ==> t.id == MockId(TaskPrefix, first + Placeholders(ts, isNew, i), now))
  {
  }

  /** Two placeholder rows never get the same fresh id. */
  lemma FreshIdsDistinct(ts: seq<TaskTemplate>, isNew: string -> bool, first: nat, now: nat, i: nat, j: nat)
    requires i < j < |ts| && isNew(ts[i].id) && isNew(ts[j].id)
    ensures FinalTasks(ts, isNew, first, now)[i].id != FinalTasks(ts, isNew, first, now)[j].id
  {
    PlaceholdersGrow(ts, isNew, i, j);
    MockIdDistinct(TaskPrefix, first + Placeholders(ts, isNew, i), first + Placeholders(ts, isNew, j), now, now);
  }

  /** As written, saving keeps a generated local id: the row is not given a "task" id. */
  lemma {:induction false} GeneratedIdKeptOnSave(ts: seq<TaskTemplate>, first: nat, now: nat, i: nat, n: nat, t: nat)
    requires i < |ts| && ts[i].id == MockId(LocalPrefix, n, t)
    ensures FinalTasks(ts, NewIdAsWritten, first, now)[i].id == MockId(LocalPrefix, n, t)
  {
    GeneratedLocalIdMissed(n, t);
    FinalTaskAtShape(ts, NewIdAsWritten, i, first, now);
  }

  /** With generated local ids recognised, saving gives such a row the next "task" id. */
  lemma {:induction false} GeneratedIdReplacedOnSave(ts: seq<TaskTemplate>, first: nat, now: nat, i: nat, n: nat, t: nat)
    requires i < |ts| && ts[i].id == MockId(LocalPrefix, n, t)
    ensures FinalTasks(ts, NewId, first, now)[i].id == MockId(TaskPrefix, first + Placeholders(ts, NewId, i), now)
  {
    GeneratedLocalIdMissed(n, t);
    FinalTaskAtShape(ts, NewId, i, first, now);
  }

  lemma {:induction false} PlaceholdersGrow(ts: seq<TaskTemplate>, isNew: string -> bool, i: nat, j: nat)
    requires i < j <= |ts| && isNew(ts[i].id)
    ensures Placeholders(ts, isNew, i) < Placeholders(ts, isNew, j)
  {
    if j > i + 1 {
      PlaceholdersGrow(ts, isNew, i, j - 1);
    }
  }

  /** Saved row k: a placeholder row draws the next task id, which is the one `FinalTaskAt` names. */
  method FinalizeRow(ids: IdGen, ts: seq<TaskTemplate>, isNew: string -> bool, k: nat, now: nat, ghost first: nat)
    returns (row: TaskTemplate)
    requires k < |ts| && Count(ids.counters, TaskPrefix) + 1 == first + Placeholders(ts, isNew, k)
    modifies ids
    ensures row == FinalTaskAt(ts, isNew, k, first, now)
    ensures Count(ids.counters, TaskPrefix) + 1 == first + Placeholders(ts, isNew, k + 1)
    ensures OthersKept(old(ids.counters), ids.counters, {TaskPrefix})
  {
    var newId := "";
    if isNew(ts[k].id) {
      newId := ids.Next(TaskPrefix, now);
    }
    row := FinalTask(ts[k], isNew, k, newId);
  }

  /** Replace placeholder ids with generated task ids and number the rows. */
  method FinalizeTasks(ids: IdGen, ts: seq<TaskTemplate>, isNew: string -> bool, now: nat) returns (r: seq<TaskTemplate>)
    modifies ids
    ensures r == FinalTasks(ts, isNew, Count(old(ids.counters), TaskPrefix) + 1, now)
    ensures Count(ids.counters, TaskPrefix) == Count(old(ids.counters), TaskPrefix) + Placeholders(ts, isNew, |ts|)
    ensures OthersKept(old(ids.counters), ids.counters, {TaskPrefix})
  {
    ghost var first := Count(ids.counters, TaskPrefix) + 1;
    r := [];
    var k := 0;
    while k < |ts|
      invariant 0 <= k <= |ts|
      invariant Count(ids.counters, TaskPrefix) + 1 == first + Placeholders(ts, isNew, k)
      invariant OthersKept(old(ids.counters), ids.counters, {TaskPrefix})
      invariant |r| == k && forall i :: 0 <= i < k ==> r[i] == FinalTaskAt(ts, isNew, i, first, now)
    {
      var row := FinalizeRow(ids, ts, isNew, k, now, first);
      r := r + [row];
      k := k + 1;
    }
  }

  /** The template id: the edited template's, else the typed one, else the next generated one. */
  function TemplateId(c: map<string, nat>, editing: Option<ChecklistTemplate>, data: TemplateInput, now: nat): string
  {
    if editing.Some? then editing.value.id
    else if data.id != "" then data.id
    else MockId(TemplatePrefix, Count(c, TemplatePrefix) + 1, now)
  }

  /** Whether resolving the template id draws one. */
  predicate DrawsTemplateId(editing: Option<ChecklistTemplate>, data: TemplateInput)
  {
    editing.None? && data.id == ""
  }

  method ResolveTemplateId(ids: IdGen, editing: Option<ChecklistTemplate>, data: TemplateInput, now: nat)
    returns (id: string)
    modifies ids
    ensures id == TemplateId(old(ids.counters), editing, data, now)
    ensures Count(ids.counters, TemplatePrefix)
         == Count(old(ids.counters), TemplatePrefix) + (if DrawsTemplateId(editing, data) then 1 else 0)
    ensures OthersKept(old(ids.counters), ids.counters, {TemplatePrefix})
  {
    if editing.Some? {
      id := editing.value.id;
    } else if data.id != "" {
      id := data.id;
    } else {
      id := ids.Next(TemplatePrefix, now);
    }
  }

  /** The template a save writes. */
  function FinalTemplate(id: string, data: TemplateInput, tasks: seq<TaskTemplate>, first: nat, now: nat)
    : ChecklistTemplate
  {
    ChecklistTemplate(id, data.name, data.requestTypeIdentifier, Some(data.description),
                      FinalTasks(tasks, NewIdAsWritten, first, now))
  }

  datatype SaveOutcome = InvalidTemplate | Updated | DuplicateId | Created(id: string)

  /** The checklist table after a save of `final` (edit: replace at the edited id's index; create: append). */
  function SavedTable(cls: seq<ChecklistTemplate>, editing: Option<ChecklistTemplate>, final: ChecklistTemplate)
    : seq<ChecklistTemplate>
  {
    match editing
    case Some(e) =>
      (match ChecklistIndex(cls, e.id)
       case Some(i) => cls[i := final]
       case None => cls)
    case None => cls + [final]
  }

  /** Only a create with a typed id that is already taken is refused. */
  predicate Refused(cls: seq<ChecklistTemplate>, editing: Option<ChecklistTemplate>, data: TemplateInput, id: string)
  {
    editing.None? && data.id != "" && exists j :: 0 <= j < |cls| && cls[j].id == id
  }

  /** An edit replaces only the edited template; a create appends one; a refused create changes nothing. */
  lemma SavedTableEffect(cls: seq<ChecklistTemplate>, editing: Option<ChecklistTemplate>, final: ChecklistTemplate)
    ensures editing.None? ==> SavedTable(cls, editing, final) == cls + [final]
    ensures editing.Some? && ChecklistIndex(cls, editing.value.id).None? ==> SavedTable(cls, editing, final) == cls
    ensures editing.Some? && ChecklistIndex(cls, editing.value.id).Some? ==>
      var i := ChecklistIndex(cls, editing.value.id).value;
      var r := SavedTable(cls, editing, final);
      && |r| == |cls| && r[i] == final && forall j :: 0 <= j < |cls| && j != i ==> r[j] == cls[j]
  {
  }

  // ---------------------------------------------------------------------
  // The editor's state

  class Editor {
    var tasks: seq<TaskTemplate>
    var draft: Option<TaskTemplate>
    var editing: bool
    var currentIndex: Option<nat>

    /** A dialog on an existing row is open and that row exists. */
    predicate Valid()
      reads this
    {
      currentIndex.Some? ==> editing && currentIndex.value < |tasks|
    }

    constructor(template: Option<ChecklistTemplate>)
      ensures tasks == InitialTasks(template) && draft.None? && !editing && currentIndex.None?
      ensures Valid()
    {
      tasks := InitialTasks(template);
      draft := None;
      editing := false;
      currentIndex := None;
    }

    /** The move and delete buttons sit behind the dialog, so they run with no dialog open. */
    method MoveTaskUp(i: nat)
      requires Valid() && !editing && i < |tasks|
      modifies this
      ensures tasks == MoveUp(old(tasks), i) && draft == old(draft) && editing == old(editing)
      ensures currentIndex == old(currentIndex) && Valid()
    {
      if i > 0 {
        var moved := tasks[i];
        var above := tasks[i - 1];
        var newTasks := tasks[i - 1 := moved][i := above];
        tasks := Renumbered(newTasks);
      }
    }

    method MoveTaskDown(i: nat)
      requires Valid() && !editing && i < |tasks|
      modifies this
      ensures tasks == MoveDown(old(tasks), i) && draft == old(draft) && editing == old(editing)
      ensures currentIndex == old(currentIndex) && Valid()
    {
      if i < |tasks| - 1 {
        var moved := tasks[i];
        var below := tasks[i + 1];
        var newTasks := tasks[i + 1 := moved][i := below];
        tasks := Renumbered(newTasks);
      }
    }

    method DeleteTaskTemplate(i: nat)
      requires Valid() && !editing && i < |tasks|
      modifies this
      ensures tasks == DeleteTask(old(tasks), i) && draft == old(draft) && editing == old(editing)
      ensures currentIndex == old(currentIndex) && Valid()
    {
      tasks := Renumbered(tasks[..i] + tasks[i + 1..]);
    }

    /** Append a placeholder row with a generated local id and open the dialog on it. */
    method OpenNewTaskDialog(ids: IdGen, departments: seq<Department>, now: nat)
      requires Valid()
      modifies this, ids
      ensures var id := MockId(LocalPrefix, Count(old(ids.counters), LocalPrefix) + 1, now);
        && tasks == old(tasks) + [PlaceholderTask(id, departments, old(tasks))]
        && draft == Some(PlaceholderTask(id, departments, old(tasks)))
      ensures editing && currentIndex.None? && Valid()
      ensures Count(ids.counters, LocalPrefix) == Count(old(ids.counters), LocalPrefix) + 1
      ensures OthersKept(old(ids.counters), ids.counters, {LocalPrefix})
    {
      var id := ids.Next(LocalPrefix, now);
      var t := PlaceholderTask(id, departments, tasks);
      draft := Some(t);
      currentIndex := None;
      tasks := tasks + [t];
      editing := true;
    }

    /** Open the dialog on row i; a row without id gets a generated local id in the draft. */
    method OpenEditTaskDialog(ids: IdGen, i: nat, now: nat)
      requires Valid() && i < |tasks|
      modifies this, ids
      ensures old(tasks)[i].id != "" ==> draft == Some(old(tasks)[i]) && ids.counters == old(ids.counters)
      ensures old(tasks)[i].id == "" ==>
        && draft == Some(old(tasks)[i].(id := MockId(LocalPrefix, Count(old(ids.counters), LocalPrefix) + 1, now)))
        && Count(ids.counters, LocalPrefix) == Count(old(ids.counters), LocalPrefix) + 1
        && OthersKept(old(ids.counters), ids.counters, {LocalPrefix})
      ensures tasks == old(tasks) && currentIndex == Some(i) && editing && Valid()
    {
      var t := tasks[i];
      if t.id == "" {
        var id := ids.Next(LocalPrefix, now);
        t := t.(id := id);
      }
      draft := Some(t);
      currentIndex := Some(i);
      editing := true;
    }

    /** The dialog's title, department and description inputs write into the draft. */
    method EditDraft(title: string, department: string, description: string)
      requires Valid()
      modifies this
      ensures old(draft).Some? ==> draft == Some(old(draft).value.(title := title, assigneeDepartment := department,
                                                                   description := Some(description)))
      ensures old(draft).None? ==> draft.None?
      ensures tasks == old(tasks) && editing == old(editing) && currentIndex == old(currentIndex) && Valid()
    {
      if draft.Some? {
        draft := Some(draft.value.(title := title, assigneeDepartment := department, description := Some(description)));
      }
    }

    /**
     * Save the dialog: nothing without a draft or with a title under three
     * characters or no department; otherwise write the draft into its row
     * (or the new row), renumber, and close the dialog.
     */
    method SaveTaskDialog() returns (saved: bool)
      requires Valid()
      modifies this
      ensures saved <==> old(draft).Some? && |old(draft).value.title| >= 3 && old(draft).value.assigneeDepartment != ""
      ensures !saved ==> tasks == old(tasks) && draft == old(draft) && editing == old(editing)
                         && currentIndex == old(currentIndex)
      ensures saved ==> tasks == Renumbered(SavedRows(old(tasks), old(draft).value, old(currentIndex)))
                        && draft.None? && !editing && currentIndex.None?
      ensures Valid()
    {
      if draft.None? || |draft.value.title| < 3 || draft.value.assigneeDepartment == "" {
        return false;
      }
      var d := draft.value;
      var rows: seq<TaskTemplate>;
      if currentIndex.Some? {
        rows := tasks[currentIndex.value := d];
      } else if |tasks| > 0 {
        if tasks[|tasks| - 1].id == d.id {
          rows := tasks[|tasks| - 1 := d];
        } else {
          rows := tasks + [d];
        }
      } else {
        rows := [d];
      }
      tasks := Renumbered(rows);
      editing := false;
      draft := None;
      currentIndex := None;
      saved := true;
    }

    /**
     * Close the dialog, dropping the new row when it is still the draft's
     * and its id passes the lower-case test as written (so a generated
     * placeholder stays: see `NewTaskCancelKeepsPlaceholder`).
     */
    method CancelTaskDialog()
      requires Valid()
      modifies this
      ensures tasks == CancelledRows(old(tasks), old(draft), old(currentIndex), LocalIdAsWritten)
      ensures draft.None? && !editing && currentIndex.None? && Valid()
    {
      if currentIndex.None? && |tasks| > 0 && draft.Some? && LocalIdAsWritten(draft.value.id)
         && tasks[|tasks| - 1].id == draft.value.id {
        tasks := tasks[..|tasks| - 1];
      }
      editing := false;
      draft := None;
      currentIndex := None;
    }

    /**
     * `onSubmit`: the template id is resolved, the rows are finalised
     * (drawing task ids even when the save is then refused), and the
     * template replaces the edited one or is appended, unless a typed id
     * is already taken.
     */
    method Submit(st: Store, ids: IdGen, template: Option<ChecklistTemplate>, data: TemplateInput, now: nat)
      returns (outcome: SaveOutcome)
      modifies st`checklists, ids
      ensures !ValidTemplate(data, tasks) ==> outcome == InvalidTemplate && unchanged(st) && unchanged(ids)
      ensures ValidTemplate(data, tasks) ==>
        Count(ids.counters, TaskPrefix) == Count(old(ids.counters), TaskPrefix) + Placeholders(tasks, NewIdAsWritten, |tasks|)
      ensures ValidTemplate(data, tasks) ==>
        Count(ids.counters, TemplatePrefix)
        == Count(old(ids.counters), TemplatePrefix) + (if DrawsTemplateId(template, data) then 1 else 0)
      ensures ValidTemplate(data, tasks) ==> OthersKept(old(ids.counters), ids.counters, {TaskPrefix, TemplatePrefix})
      ensures ValidTemplate(data, tasks) && Refused(old(st.checklists), template, data, TemplateId(old(ids.counters), template, data, now))
        ==> outcome == DuplicateId && st.checklists == old(st.checklists)
      ensures ValidTemplate(data, tasks) && !Refused(old(st.checklists), template, data, TemplateId(old(ids.counters), template, data, now))
        ==> st.checklists
            == SavedTable(old(st.checklists), template,
                          FinalTemplate(TemplateId(old(ids.counters), template, data, now), data, tasks,
                                        Count(old(ids.counters), TaskPrefix) + 1, now))
      ensures ValidTemplate(data, tasks) && !Refused(old(st.checklists), template, data, TemplateId(old(ids.counters), template, data, now))
        ==> outcome == (if template.Some? then Updated else Created(TemplateId(old(ids.counters), template, data, now)))
    {
      if !ValidTemplate(data, tasks) {
        return InvalidTemplate;
      }
      ghost var c := ids.counters;
      var id := ResolveTemplateId(ids, template, data, now);
      ghost var c1 := ids.counters;
      assert TaskPrefix !in {TemplatePrefix};
      assert Count(c1, TaskPrefix) == Count(c, TaskPrefix);
      var finalTasks := FinalizeTasks(ids, tasks, NewIdAsWritten, now);
      var final := ChecklistTemplate(id, data.name, data.requestTypeIdentifier, Some(data.description), finalTasks);
      outcome := StoreTemplate(st, template, data, id, final);
    }
  }

  /** Write the finished template into the checklist table. */
  method StoreTemplate(st: Store, template: Option<ChecklistTemplate>, data: TemplateInput, id: string,
                       final: ChecklistTemplate) returns (outcome: SaveOutcome)
    modifies st`checklists
    ensures Refused(old(st.checklists), template, data, id) ==> outcome == DuplicateId && st.checklists == old(st.checklists)
    ensures !Refused(old(st.checklists), template, data, id) ==> st.checklists == SavedTable(old(st.checklists), template, final)
    ensures !Refused(old(st.checklists), template, data, id) ==> outcome == (if template.Some? then Updated else Created(id))
  {
    if template.Some? {
      var i := ChecklistIndex(st.checklists, template.value.id);
      if i.Some? {
        st.checklists := st.checklists[i.value := final];
      }
      return Updated;
    }
    if data.id != "" && exists j :: 0 <= j < |st.checklists| && st.checklists[j].id == id {
      return DuplicateId;
    }
    st.checklists := st.checklists + [final];
    outcome := Created(id);
  }
}
