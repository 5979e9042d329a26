/** The task routes: the filtered and sorted list, create, edit, delete, toggle, and the JSON
    export and all-or-nothing import.  `caller` is the logged-in user's id and `now` the clock
    reading the column defaults use. */
module Tasks {
  import opened Wrappers
  import opened Json
  import opened DateTimes
  import opened Seqs
  import opened Models
  import opened Columns
  import opened Forms
  import opened Database

  // ================================================================ the list view

  /** The query-string arguments `priority`, `status` and `due_date` (None when absent). */
  datatype ListArgs = ListArgs(priority: Option<string>, status: Option<string>, dueDate: Option<string>)

  /** The filters the arguments turn into. */
  datatype Plan = Plan(priority: Option<string>, completed: Option<bool>, day: Option<Date>)

  /** `if priority and priority != 'All'`: an absent, empty or 'All' priority filters nothing. */
  function PriorityCriterion(p: Option<string>): (r: Option<string>)
    ensures r.None? <==> p == None || p == Some("") || p == Some("All")
    ensures r.Some? ==> r == p
  {
    if p.Some? && p.value != "" && p.value != "All" then p else None
  }

  /** 'completed' and 'pending' select on the flag; any other value filters nothing. */
  function StatusCriterion(s: Option<string>): (r: Option<bool>)
    ensures r == Some(true) <==> s == Some("completed")
    ensures r == Some(false) <==> s == Some("pending")
  {
    if s == Some("completed") then Some(true)
    else if s == Some("pending") then Some(false)
    else None
  }

  /** A non-empty due date that does not parse as `%Y-%m-%d` is silently ignored. */
  function DayCriterion(d: Option<string>): (r: Option<Date>)
    ensures r.Some? <==> d.Some? && ParseYmd(d.value).Some?
    ensures r.Some? ==> r == ParseYmd(d.value)
  {
    if d.Some? && d.value != "" then ParseYmd(d.value) else None
  }

  function PlanOf(a: ListArgs): Plan
  {
    Plan(PriorityCriterion(a.priority), StatusCriterion(a.status), DayCriterion(a.dueDate))
  }

  /** The conjunction of `filter_by(user_id=...)` and the optional filters; a task without a due
      date never matches a day (`date(NULL) = ?` is not true). */
  predicate Selected(t: Task, caller: int, plan: Plan)
  {
    && t.userId == caller
    && (plan.priority.Some? ==> t.priority == plan.priority.value)
    && (plan.completed.Some? ==> t.completed == plan.completed.value)
    && (plan.day.Some? ==> t.dueDate.Some? && DateOf(t.dueDate.value) == plan.day.value)
  }

  function SelectedBy(caller: int, plan: Plan): Task -> bool
  {
    (t: Task) => Selected(t, caller, plan)
  }

  /** `ORDER BY due_date ASC` on SQLite, where NULL sorts before every value. */
  predicate DueNotAfter(a: Task, b: Task)
  {
    match a.dueDate
    case None => true
    case Some(x) => b.dueDate.Some? && NotAfter(x, b.dueDate.value)
  }

  predicate SortedByDue(s: seq<Task>)
  {
    forall i, j :: 0 <= i < j < |s| ==> DueNotAfter(s[i], s[j])
  }

  lemma DueNotAfterTotalPreorder(a: Task, b: Task, c: Task)
    ensures DueNotAfter(a, b) || DueNotAfter(b, a)
    ensures DueNotAfter(a, b) && DueNotAfter(b, c) ==> DueNotAfter(a, c)
  {
    if a.dueDate.Some? && b.dueDate.Some? && c.dueDate.Some? {
      NotAfterTotalOrder(a.dueDate.value, b.dueDate.value, c.dueDate.value);
    } else if a.dueDate.Some? && b.dueDate.Some? {
      NotAfterTotalOrder(a.dueDate.value, b.dueDate.value, b.dueDate.value);
    }
  }

  /** Insert `x` before the first element it does not come after; ties keep `x` first, so the
      sort below keeps rows with equal due dates in row order. */
  function InsertByDue(x: Task, s: seq<Task>): seq<Task>
  {
    if s == [] then [x]
    else if DueNotAfter(x, s[0]) then [x] + s
    else [s[0]] + InsertByDue(x, s[1..])
  }

  function SortByDue(s: seq<Task>): seq<Task>
  {
    if s == [] then [] else InsertByDue(s[0], SortByDue(s[1..]))
  }

  lemma {:induction false} InsertByDueCorrect(x: Task, s: seq<Task>)
    requires SortedByDue(s)
    ensures multiset(InsertByDue(x, s)) == multiset(s) + multiset{x}
    ensures SortedByDue(InsertByDue(x, s))
  {
    if s != [] {
      if DueNotAfter(x, s[0]) {
        var r := [x] + s;
        forall j | 0 < j < |r| ensures DueNotAfter(x, r[j]) {
          DueNotAfterTotalPreorder(x, s[0], r[j]);
        }
      } else {
        InsertByDueCorrect(x, s[1..]);
        assert s == [s[0]] + s[1..];
        var tail := InsertByDue(x, s[1..]);
        var r := [s[0]] + tail;
        forall j | 0 < j < |r| ensures DueNotAfter(s[0], r[j]) {
          assert r[j] in multiset(tail);
          DueNotAfterTotalPreorder(x, s[0], s[0]);
          if r[j] != x {
            assert r[j] in multiset(s[1..]);
            var k :| 0 <= k < |s[1..]| && s[1..][k] == r[j];
            assert s[k + 1] == r[j];
          }
        }
      }
    }
  }

  /** The sort returns the same tasks, ordered by due date with undated tasks first. */
  lemma {:induction false} SortByDueCorrect(s: seq<Task>)
    ensures multiset(SortByDue(s)) == multiset(s)
    ensures SortedByDue(SortByDue(s))
  {
    if s != [] {
      SortByDueCorrect(s[1..]);
      InsertByDueCorrect(s[0], SortByDue(s[1..]));
      assert s == [s[0]] + s[1..];
    }
  }

  /** The `task_list` query: exactly the caller's tasks that meet every given criterion, each
      as often as it is stored, in due-date order. */
  function TaskList(tasks: seq<Task>, caller: int, args: ListArgs): (r: seq<Task>)
    ensures forall t :: t in r <==> t in tasks && Selected(t, caller, PlanOf(args))
    ensures forall t :: t in r ==> t.userId == caller
    ensures forall t :: multiset(r)[t] == if Selected(t, caller, PlanOf(args)) then multiset(tasks)[t] else 0
    ensures SortedByDue(r)
  {
    var chosen := Filter(tasks, SelectedBy(caller, PlanOf(args)));
    SortByDueCorrect(chosen);
    assert forall t :: multiset(chosen)[t] == if Selected(t, caller, PlanOf(args)) then multiset(tasks)[t] else 0 by {
      forall t ensures multiset(chosen)[t] == if Selected(t, caller, PlanOf(args)) then multiset(tasks)[t] else 0 {
        FilterMultiset(tasks, SelectedBy(caller, PlanOf(args)), t);
      }
    }
    SortByDue(chosen)
  }

  /** The list without one of its criteria. */
  function WithoutPriority(a: ListArgs): ListArgs { a.(priority := None) }
  function WithoutStatus(a: ListArgs): ListArgs { a.(status := None) }
  function WithoutDueDate(a: ListArgs): ListArgs { a.(dueDate := None) }

  /** An absent, empty or 'All' priority leaves the list as without it; any other value keeps
      exactly the tasks with that priority. */
  lemma PriorityFilter(tasks: seq<Task>, caller: int, args: ListArgs)
    ensures args.priority == None || args.priority == Some("") || args.priority == Some("All") ==>
      TaskList(tasks, caller, args) == TaskList(tasks, caller, WithoutPriority(args))
    ensures args.priority.Some? && args.priority.value != "" && args.priority.value != "All" ==>
      forall t :: t in TaskList(tasks, caller, args) <==>
        t in TaskList(tasks, caller, WithoutPriority(args)) && t.priority == args.priority.value
  {
  }

  /** 'completed' keeps the completed tasks, 'pending' the others, any other status nothing changes. */
  lemma StatusFilter(tasks: seq<Task>, caller: int, args: ListArgs)
    ensures args.status == Some("completed") ==>
      forall t :: t in TaskList(tasks, caller, args) <==> t in TaskList(tasks, caller, WithoutStatus(args)) && t.completed
    ensures args.status == Some("pending") ==>
      forall t :: t in TaskList(tasks, caller, args) <==> t in TaskList(tasks, caller, WithoutStatus(args)) && !t.completed
    ensures args.status != Some("completed") && args.status != Some("pending") ==>
      TaskList(tasks, caller, args) == TaskList(tasks, caller, WithoutStatus(args))
  {
  }

  /** An unparseable due date gives the same list as none; a parseable one keeps exactly the
      tasks due on that calendar day. */
  lemma DueDateFilter(tasks: seq<Task>, caller: int, args: ListArgs)
    ensures args.dueDate.Some? && ParseYmd(args.dueDate.value).None? ==>
      TaskList(tasks, caller, args) == TaskList(tasks, caller, WithoutDueDate(args))
    ensures args.dueDate.Some? && ParseYmd(args.dueDate.value).Some? ==>
      forall t :: t in TaskList(tasks, caller, args) <==>
        t in TaskList(tasks, caller, WithoutDueDate(args)) && t.dueDate.Some?
        && DateOf(t.dueDate.value) == ParseYmd(args.dueDate.value).value
  {
  }

  /** The example of an unparseable date: `due_date=not-a-date` is ignored. */
  lemma NotADateIgnored(tasks: seq<Task>, caller: int, args: ListArgs)
    requires args.dueDate == Some("not-a-date")
    ensures TaskList(tasks, caller, args) == TaskList(tasks, caller, WithoutDueDate(args))
  {
    NotADate();
  }

  // ================================================================ looking a task up

  /** `Task.query.get_or_404(id)`: the row with that primary key, or none (404). */
  function FindTask(tasks: seq<Task>, id: nat): (r: Option<nat>)
    ensures r.Some? ==> r.value < |tasks| && tasks[r.value].id == id
    ensures r.None? ==> forall i :: 0 <= i < |tasks| ==> tasks[i].id != id
  {
    if tasks == [] then None
    else if tasks[0].id == id then Some(0)
    else match FindTask(tasks[1..], id)
      case None => None
      case Some(i) => Some(i + 1)
  }

  lemma UpdateKeepsOrder(tasks: seq<Task>, i: nat, t: Task)
    requires i < |tasks| && t.id == tasks[i].id
    requires Increasing(tasks, TaskKey)
    ensures Increasing(tasks[i := t], TaskKey)
  {
    var r := tasks[i := t];
    assert forall k :: 0 <= k < |r| ==> TaskKey(r[k]) == TaskKey(tasks[k]);
  }

  // ================================================================ toggle

  datatype ToggleResponse = ToggleNotFound | ToggleDenied | Toggled(completed: bool)

  /** `toggle_task`: the owner flips `completed` and is told the new value; anyone else gets
      `success: False`; an unknown id is a 404. */
  function ToggleOutcome(tasks: seq<Task>, caller: int, id: nat): (ToggleResponse, seq<Task>)
  {
    match FindTask(tasks, id)
    case None => (ToggleNotFound, tasks)
    case Some(i) =>
      if tasks[i].userId != caller then (ToggleDenied, tasks)
      else (Toggled(!tasks[i].completed), tasks[i := tasks[i].(completed := !tasks[i].completed)])
  }

  /** Ids are unique in a table kept in row order, so the row found is the only one with that id. */
  lemma FoundIsOnly(tasks: seq<Task>, id: nat, i: nat)
    requires Increasing(tasks, TaskKey) && FindTask(tasks, id) == Some(i)
    ensures forall j :: 0 <= j < |tasks| && tasks[j].id == id ==> j == i
  {
  }

  /** The owner's toggle flips exactly that task's flag and reports it; a non-owner's or an
      unknown id changes nothing. */
  lemma ToggleEffect(tasks: seq<Task>, caller: int, id: nat)
    requires Increasing(tasks, TaskKey)
    ensures var (resp, after) := ToggleOutcome(tasks, caller, id);
      && |after| == |tasks|
      && (resp.Toggled? <==> (exists i :: 0 <= i < |tasks| && tasks[i].id == id && tasks[i].userId == caller))
      && (!resp.Toggled? ==> after == tasks)
      && (resp.Toggled? ==>
            (exists i :: 0 <= i < |tasks| && tasks[i].id == id
              && after == tasks[i := tasks[i].(completed := !tasks[i].completed)]
              && resp.completed == after[i].completed == !tasks[i].completed))
  {
    match FindTask(tasks, id)
    case None =>
    case Some(i) =>
      FoundIsOnly(tasks, id, i);
      if tasks[i].userId == caller {
        var after := ToggleOutcome(tasks, caller, id).1;
        assert after == tasks[i := tasks[i].(completed := !tasks[i].completed)];
      }
  }

  /** Toggling twice as the owner restores the task. */
  lemma ToggleTwice(tasks: seq<Task>, caller: int, id: nat)
    ensures ToggleOutcome(ToggleOutcome(tasks, caller, id).1, caller, id).1 == tasks
  {
    match FindTask(tasks, id)
    case None =>
    case Some(i) =>
      if tasks[i].userId == caller {
        var once := ToggleOutcome(tasks, caller, id).1;
        FirstMatchSame(tasks, once, id, i);
      }
  }

  /** Two task lists of the same length with the same id at every position find an id at the same place. */
  lemma {:induction false} FirstMatchSame(a: seq<Task>, b: seq<Task>, id: nat, i: nat)
    requires i < |a| == |b| && FindTask(a, id) == Some(i)
    requires forall k :: 0 <= k < |a| ==> a[k].id == b[k].id
    ensures FindTask(b, id) == Some(i)
  {
    if i > 0 {
      assert FindTask(a[1..], id) == Some(i - 1);
      FirstMatchSame(a[1..], b[1..], id, i - 1);
    }
  }

  method ToggleTask(db: Store, caller: nat, id: nat) returns (resp: ToggleResponse)
    requires db.Valid() && db.Settled()
    modifies db
    ensures db.Valid() && db.Settled()
    ensures db.users == old(db.users) && db.profiles == old(db.profiles)
    ensures (resp, db.tasks) == ToggleOutcome(old(db.tasks), caller, id)
  {
    var found := FindTask(db.tasks, id);
    if found.None? {
      return ToggleNotFound;
    }
    var i := found.value;
    var task := db.tasks[i];
    if task.userId != caller {
      return ToggleDenied;
    }
    UpdateKeepsOrder(db.tasks, i, task.(completed := !task.completed));
    db.tasks := db.tasks[i := task.(completed := !task.completed)];
    var ok := db.Commit();
    resp := Toggled(!task.completed);
  }

  // ================================================================ edit

  datatype EditResponse = EditNotFound | EditDenied | EditInvalid | Edited

  /** `edit_task`: only the owner may edit, and only with a valid form; title, description,
      priority and due date are replaced, everything else is kept. */
  function EditOutcome(tasks: seq<Task>, caller: int, id: nat, form: TaskFormInput): (EditResponse, seq<Task>)
  {
    match FindTask(tasks, id)
    case None => (EditNotFound, tasks)
    case Some(i) =>
      if tasks[i].userId != caller then (EditDenied, tasks)
      else match ValidateTaskForm(form, tasks[i].dueDate)
        case Err => (EditInvalid, tasks)
        case Ok(f) =>
          (Edited, tasks[i := tasks[i].(title := f.title, description := Some(f.description),
                                         priority := f.priority, dueDate := f.dueDate)])
  }

  /** Only an owner's valid edit changes anything, and an owner's valid edit always goes through;
      it changes the one task with that id, sets its title, description and priority to the
      posted ones and its due date to the posted day (or keeps it when none is posted), and
      keeps that task's id, owner, completion flag and creation time. */
  lemma EditEffect(tasks: seq<Task>, caller: int, id: nat, form: TaskFormInput)
    requires Increasing(tasks, TaskKey)
    ensures var (resp, after) := EditOutcome(tasks, caller, id, form);
      && |after| == |tasks|
      && (resp != Edited ==> after == tasks)
      && (resp == EditDenied ==> (exists i :: 0 <= i < |tasks| && tasks[i].id == id && tasks[i].userId != caller))
      && (resp == EditDenied || resp == EditNotFound <==>
            !(exists i :: 0 <= i < |tasks| && tasks[i].id == id && tasks[i].userId == caller))
      && ((exists i :: 0 <= i < |tasks| && tasks[i].id == id && tasks[i].userId != caller) ==> resp == EditDenied)
      && (resp == Edited <==>
            (exists i :: 0 <= i < |tasks| && tasks[i].id == id && tasks[i].userId == caller
              && ValidateTaskForm(form, tasks[i].dueDate).Ok?))
      && (resp == Edited ==>
            (exists i :: 0 <= i < |tasks| && tasks[i].id == id && tasks[i].userId == caller
              && (forall k :: 0 <= k < |tasks| && k != i ==> after[k] == tasks[k])
              && after[i].id == id && after[i].userId == caller
              && after[i].completed == tasks[i].completed && after[i].createdAt == tasks[i].createdAt
              && after[i].title == form.title && after[i].description == Some(form.description)
              && after[i].priority == form.priority && after[i].priority in PRIORITY_CHOICES
              && (form.dueDate.None? ==> after[i].dueDate == tasks[i].dueDate)
              && (form.dueDate.Some? ==>
                    && after[i].dueDate.Some? && Some(DateOf(after[i].dueDate.value)) == ParseYmd(form.dueDate.value)
                    && IsMidnight(after[i].dueDate.value))
              && TaskWithinWidths(after[i])))
  {
    match FindTask(tasks, id)
    case None =>
    case Some(i) =>
      FoundIsOnly(tasks, id, i);
  }

  method EditTask(db: Store, caller: nat, id: nat, form: TaskFormInput) returns (resp: EditResponse)
    requires db.Valid() && db.Settled()
    modifies db
    ensures db.Valid() && db.Settled()
    ensures db.users == old(db.users) && db.profiles == old(db.profiles)
    ensures (resp, db.tasks) == EditOutcome(old(db.tasks), caller, id, form)
  {
    var found := FindTask(db.tasks, id);
    if found.None? {
      return EditNotFound;
    }
    var i := found.value;
    var task := db.tasks[i];
    if task.userId != caller {
      return EditDenied;
    }
    var fields := ValidateTaskForm(form, task.dueDate);
    if fields.Err? {
      return EditInvalid;
    }
    var f := fields.value;
    var edited := task.(title := f.title, description := Some(f.description), priority := f.priority, dueDate := f.dueDate);
    UpdateKeepsOrder(db.tasks, i, edited);
    db.tasks := db.tasks[i := edited];
    var ok := db.Commit();
    resp := Edited;
  }

  // ================================================================ delete

  datatype DeleteResponse = DeleteNotFound | DeleteDenied | Deleted

  /** `delete_task`: the owner's request removes the row; anyone else's changes nothing. */
  function DeleteOutcome(tasks: seq<Task>, caller: int, id: nat): (DeleteResponse, seq<Task>)
  {
    match FindTask(tasks, id)
    case None => (DeleteNotFound, tasks)
    case Some(i) =>
      if tasks[i].userId != caller then (DeleteDenied, tasks)
      else (Deleted, tasks[..i] + tasks[i + 1..])
  }

  lemma RemoveKeepsOrder(tasks: seq<Task>, i: nat)
    requires i < |tasks| && Increasing(tasks, TaskKey)
    ensures Increasing(tasks[..i] + tasks[i + 1..], TaskKey)
  {
    var r := tasks[..i] + tasks[i + 1..];
    assert forall k :: 0 <= k < |r| ==> r[k] == if k < i then tasks[k] else tasks[k + 1];
  }

  /** The owner's delete removes exactly the one task with that id (ids are unique) and keeps
      the others in id order, the order they were in; a non-owner's or an unknown id changes
      nothing. */
  lemma DeleteEffect(tasks: seq<Task>, caller: int, id: nat)
    requires Increasing(tasks, TaskKey)
    ensures var (resp, after) := DeleteOutcome(tasks, caller, id);
      && (resp != Deleted ==> after == tasks)
      && (resp == Deleted <==> exists i :: 0 <= i < |tasks| && tasks[i].id == id && tasks[i].userId == caller)
      && (resp == Deleted ==> |after| == |tasks| - 1 && forall t :: t in after <==> t in tasks && t.id != id)
      && Increasing(after, TaskKey)
  {
    match FindTask(tasks, id)
    case None =>
    case Some(i) =>
      if tasks[i].userId == caller {
        RemoveKeepsOrder(tasks, i);
        var after := tasks[..i] + tasks[i + 1..];
        forall t ensures t in after <==> t in tasks && t.id != id {
          if t in after {
            var k :| 0 <= k < |after| && after[k] == t;
            if k < i { assert t == tasks[k]; } else { assert t == tasks[k + 1]; }
          }
          if t in tasks && t.id != id {
            var k :| 0 <= k < |tasks| && tasks[k] == t;
            if k < i { assert after[k] == t; } else { assert after[k - 1] == t; }
          }
        }
      }
  }

  method DeleteTask(db: Store, caller: nat, id: nat) returns (resp: DeleteResponse)
    requires db.Valid() && db.Settled()
    modifies db
    ensures db.Valid() && db.Settled()
    ensures db.users == old(db.users) && db.profiles == old(db.profiles)
    ensures (resp, db.tasks) == DeleteOutcome(old(db.tasks), caller, id)
  {
    var found := FindTask(db.tasks, id);
    if found.None? {
      return DeleteNotFound;
    }
    var i := found.value;
    if db.tasks[i].userId != caller {
      return DeleteDenied;
    }
    RemoveKeepsOrder(db.tasks, i);
    db.tasks := db.tasks[..i] + db.tasks[i + 1..];
    var ok := db.Commit();
    resp := Deleted;
  }

  // ================================================================ create

  datatype CreateResponse = CreateInvalid | Created(id: nat)

  /** `create_task`: a valid form adds one task owned by the caller, with the next id, the
      default `completed = False` and `created_at = now`. */
  function CreateOutcome(tasks: seq<Task>, caller: int, form: TaskFormInput, now: DateTime): (CreateResponse, seq<Task>)
  {
    match ValidateTaskForm(form, None)
    case Err => (CreateInvalid, tasks)
    case Ok(f) =>
      var id := NextId(tasks, TaskKey);
      (Created(id), tasks + [Task(id, f.title, Some(f.description), f.priority, f.dueDate, false, now, caller)])
  }

  /** A task is created exactly when the form is valid; it is new, belongs to the caller, is not
      completed, carries the posted title, description, priority and due day, and fits the
      declared column widths; an invalid form adds nothing. */
  lemma CreateEffect(tasks: seq<Task>, caller: int, form: TaskFormInput, now: DateTime)
    requires Increasing(tasks, TaskKey)
    ensures var (resp, after) := CreateOutcome(tasks, caller, form, now);
      && (resp == CreateInvalid ==> after == tasks)
      && (resp.Created? <==> ValidateTaskForm(form, None).Ok?)
      && (resp.Created? ==>
            && |after| == |tasks| + 1 && after[..|tasks|] == tasks
            && var t := after[|tasks|];
               t.id == resp.id && t.userId == caller && !t.completed && t.createdAt == now
               && t.title == form.title && t.description == Some(form.description) && t.priority == form.priority
               && (form.dueDate.None? ==> t.dueDate.None?)
               && (form.dueDate.Some? ==>
                     t.dueDate.Some? && Some(DateOf(t.dueDate.value)) == ParseYmd(form.dueDate.value) && IsMidnight(t.dueDate.value))
               && t.priority in PRIORITY_CHOICES && TaskWithinWidths(t)
               && (forall k :: 0 <= k < |tasks| ==> tasks[k].id < t.id)
               && Increasing(after, TaskKey))
  {
  }

  method CreateTask(db: Store, caller: nat, form: TaskFormInput, now: DateTime) returns (resp: CreateResponse)
    requires db.Valid() && db.Settled()
    modifies db
    ensures db.Valid() && db.Settled()
    ensures db.users == old(db.users) && db.profiles == old(db.profiles)
    ensures (resp, db.tasks) == CreateOutcome(old(db.tasks), caller, form, now)
  {
    var fields := ValidateTaskForm(form, None);
    if fields.Err? {
      return CreateInvalid;
    }
    var f := fields.value;
    var id := NextId(db.tasks, TaskKey);
    db.tasks := db.tasks + [Task(id, f.title, Some(f.description), f.priority, f.dueDate, false, now, caller)];
    var ok := db.Commit();
    resp := Created(id);
  }

  // ================================================================ export

  function OwnedBy(caller: int): Task -> bool
  {
    (t: Task) => t.userId == caller
  }

  /** The JSON object `export_tasks` writes for one task. */
  function TaskJson(t: Task): Json
  {
    JObj([("title", JStr(t.title)), ("description", OptionalString(t.description)),
          ("priority", JStr(t.priority)), ("due_date", OptionalIso(t.dueDate)),
          ("completed", JBool(t.completed)), ("created_at", JStr(IsoFormat(t.createdAt)))])
  }

  /** `export_tasks`: one object per task of the caller. */
  function ExportTasks(tasks: seq<Task>, caller: int): (r: seq<Json>)
    ensures |r| == Count(tasks, OwnedBy(caller))
  {
    if tasks == [] then []
    else (if tasks[0].userId == caller then [TaskJson(tasks[0])] else []) + ExportTasks(tasks[1..], caller)
  }

  /** The export lists the caller's tasks in row order, one object each. */
  lemma {:induction false} ExportTasksAt(tasks: seq<Task>, caller: int, i: nat)
    requires i < |ExportTasks(tasks, caller)|
    ensures i < |Filter(tasks, OwnedBy(caller))|
    ensures ExportTasks(tasks, caller)[i] == TaskJson(Filter(tasks, OwnedBy(caller))[i])
  {
    if tasks[0].userId == caller {
      if i > 0 {
        ExportTasksAt(tasks[1..], caller, i - 1);
      }
    } else {
      ExportTasksAt(tasks[1..], caller, i);
    }
  }

  /** Nothing but the caller's own tasks is exported. */
  lemma ExportOnlyOwnTasks(tasks: seq<Task>, caller: int, i: nat)
    requires i < |ExportTasks(tasks, caller)|
    ensures exists t :: t in tasks && t.userId == caller && ExportTasks(tasks, caller)[i] == TaskJson(t)
  {
    ExportTasksAt(tasks, caller, i);
    var t := Filter(tasks, OwnedBy(caller))[i];
    assert t in Filter(tasks, OwnedBy(caller));
  }

  // ================================================================ import

  /** What reaches `import_tasks`: a body not declared as JSON, a JSON body that does not
      parse (Flask answers 400 before the handler's checks), or a decoded JSON value. */
  datatype ImportRequest = NotJson | MalformedBody | JsonBody(body: Json)

  datatype ImportResponse = Imported(count: nat) | InvalidDataFormat | BadRequest | NotAnArray | ImportFailed

  /** The column values read from one element's fields. */
  datatype RowValues = RowValues(title: string, description: Option<string>, priority: string,
                                 dueDate: Option<DateTime>, completed: bool)

  /** The fields of one element as the import reads them. */
  function ReadRowValues(fs: seq<(string, Json)>): Result<RowValues>
  {
    var title := RequiredString(Get(fs, "title", JNull));
    var description := NullableString(Get(fs, "description", JNull));
    var priority := StringWithDefault(Get(fs, "priority", JStr(DEFAULT_PRIORITY)), DEFAULT_PRIORITY);
    var due := IsoDateTime(Get(fs, "due_date", JNull));
    var completed := BooleanWithDefault(Get(fs, "completed", JBool(false)), false);
    if title.Ok? && description.Ok? && priority.Ok? && due.Ok? && completed.Ok? then
      Ok(RowValues(title.value, description.value, priority.value, due.value, completed.value))
    else Err
  }

  /** The title must be a string (a missing or null one cannot be stored); a missing or null
      `priority` becomes 'Medium' and a missing or null `completed` becomes False, the column
      defaults; a falsy `due_date` is none and a truthy one must be an ISO date-time string. */
  lemma ReadRowValuesMeans(fs: seq<(string, Json)>)
    ensures var r := ReadRowValues(fs);
      && (r.Ok? ==> Lookup(fs, "title") == Some(JStr(r.value.title)))
      && (r.Ok? && Lookup(fs, "priority") in {None, Some(JNull)} ==> r.value.priority == DEFAULT_PRIORITY)
      && (r.Ok? && Lookup(fs, "completed") in {None, Some(JNull)} ==> !r.value.completed)
      && (r.Ok? && !Truthy(Get(fs, "due_date", JNull)) ==> r.value.dueDate == None)
      && (Lookup(fs, "title") in {None, Some(JNull)} ==> r.Err?)
      && (Truthy(Get(fs, "due_date", JNull)) && !Get(fs, "due_date", JNull).JStr? ==> r.Err?)
  {
  }

  /** The task one array element becomes: the element must be an object, and the task is the
      caller's, with the given id and created now. */
  function ImportRow(j: Json, caller: int, id: nat, now: DateTime): (r: Result<Task>)
    ensures r.Ok? <==> j.JObj? && ReadRowValues(j.fields).Ok?
    ensures r.Ok? ==> r.value.id == id && r.value.userId == caller && r.value.createdAt == now
  {
    match j
    case JObj(fs) =>
      (match ReadRowValues(fs)
       case Ok(v) => Ok(Task(id, v.title, v.description, v.priority, v.dueDate, v.completed, now, caller))
       case Err => Err)
    case _ => Err
  }

  function ImportBuilder(caller: int, now: DateTime): (Json, nat) -> Result<Task>
  {
    (j: Json, id: nat) => ImportRow(j, caller, id, now)
  }

  /** The rows a whole array becomes, numbered from `base`, or failure if any element fails. */
  function ImportedRows(items: seq<Json>, caller: int, base: nat, now: DateTime): (r: Result<seq<Task>>)
    ensures r.Ok? ==> |r.value| == |items|
    ensures r.Ok? ==> forall k :: 0 <= k < |r.value| ==>
      r.value[k].userId == caller && r.value[k].createdAt == now && r.value[k].id == base + k
  {
    ImportedRowsSpec(items, caller, base, now);
    BuildRows(items, ImportBuilder(caller, now), base)
  }

  /** The array imports exactly when every element does, and then each row is its element's. */
  lemma ImportedRowsSpec(items: seq<Json>, caller: int, base: nat, now: DateTime)
    ensures var r := BuildRows(items, ImportBuilder(caller, now), base);
      && (r.Ok? <==> forall k :: 0 <= k < |items| ==> ImportRow(items[k], caller, base + k, now).Ok?)
      && (r.Ok? ==> forall k :: 0 <= k < |items| ==> ImportRow(items[k], caller, base + k, now) == Ok(r.value[k]))
  {
    BuildRowsSpec(items, ImportBuilder(caller, now), base);
  }

  /** `import_tasks` as a whole: on success every element became a task of the caller, appended
      after the existing ones; on any failure nothing was added. */
  function ImportOutcome(t: Tables, caller: int, req: ImportRequest, now: DateTime): (ImportResponse, Tables)
  {
    match req
    case NotJson => (InvalidDataFormat, t)
    case MalformedBody => (BadRequest, t)
    case JsonBody(body) =>
      if !body.JArr? then (NotAnArray, t)
      else match ImportedRows(body.items, caller, NextId(t.tasks, TaskKey), now)
        case Err => (ImportFailed, t)
        case Ok(rows) => (Imported(|body.items|), t.(tasks := t.tasks + rows))
  }

  /** Import is all-or-nothing: any failure, whatever its kind, changes nothing. */
  lemma ImportFailureChangesNothing(t: Tables, caller: int, req: ImportRequest, now: DateTime)
    ensures var (resp, after) := ImportOutcome(t, caller, req, now);
      && (!resp.Imported? ==> after == t)
      && (req == NotJson ==> resp == InvalidDataFormat)
      && (req == MalformedBody ==> resp == BadRequest)
      && (req.JsonBody? && !req.body.JArr? ==> resp == NotAnArray)
  {
  }

  /** An import succeeds exactly when the payload is an array each of whose elements becomes a
      task under the id it would receive. */
  lemma ImportSucceedsIff(t: Tables, caller: int, req: ImportRequest, now: DateTime)
    ensures ImportOutcome(t, caller, req, now).0.Imported? <==>
      (req.JsonBody? && req.body.JArr?
       && forall k :: 0 <= k < |req.body.items| ==> ImportRow(req.body.items[k], caller, NextId(t.tasks, TaskKey) + k, now).Ok?)
  {
    if req.JsonBody? && req.body.JArr? {
      ImportedRowsSpec(req.body.items, caller, NextId(t.tasks, TaskKey), now);
    }
  }

  /** A successful import reports the array's length and appends exactly that many tasks, all
      the caller's and created now, after the existing ones; users and profiles are untouched. */
  lemma ImportSuccessAppends(t: Tables, caller: int, req: ImportRequest, now: DateTime)
    requires ImportOutcome(t, caller, req, now).0.Imported?
    ensures req.JsonBody? && req.body.JArr?
    ensures ImportOutcome(t, caller, req, now).0.count == |req.body.items|
    ensures ImportOutcome(t, caller, req, now).1 == t.(tasks := ImportOutcome(t, caller, req, now).1.tasks)
    ensures ImportOutcome(t, caller, req, now).1.tasks[..|t.tasks|] == t.tasks
    ensures |ImportOutcome(t, caller, req, now).1.tasks| == |t.tasks| + |req.body.items|
    ensures forall k :: |t.tasks| <= k < |ImportOutcome(t, caller, req, now).1.tasks| ==>
      ImportOutcome(t, caller, req, now).1.tasks[k].userId == caller && ImportOutcome(t, caller, req, now).1.tasks[k].createdAt == now
  {
    var items := req.body.items;
    var base := NextId(t.tasks, TaskKey);
    var rows := ImportedRows(items, caller, base, now).value;
    var after := t.tasks + rows;
    assert ImportOutcome(t, caller, req, now).1.tasks == after;
  }

  method ImportTasks(db: Store, caller: nat, req: ImportRequest, now: DateTime) returns (resp: ImportResponse)
    requires db.Valid() && db.Settled()
    modifies db
    ensures db.Valid() && db.Settled()
    ensures (resp, db.Current()) == ImportOutcome(old(db.Current()), caller, req, now)
  {
    if req.NotJson? {
      return InvalidDataFormat;
    }
    if req.MalformedBody? {
      return BadRequest;
    }
    if !req.body.JArr? {
      return NotAnArray;
    }
    var items := req.body.items;
    var base := NextId(db.tasks, TaskKey);
    ghost var before := db.tasks;
    ghost var added: seq<Task> := [];
    var i := 0;
    while i < |items|
      invariant 0 <= i <= |items|
      invariant db.committed == old(db.committed) == old(db.Current())
      invariant db.users == old(db.users) && db.profiles == old(db.profiles)
      invariant db.tasks == before + added
      invariant ImportedRows(items[..i], caller, base, now) == Ok(added)
      invariant forall k :: 0 <= k < |db.tasks| ==> db.tasks[k].id < base + i
      invariant RowOrder(db.Current())
    {
      var row := ImportRow(items[i], caller, base + i, now);
      if row.Err? {
        ImportedRowsSpec(items, caller, base, now);
        db.Rollback();
        return ImportFailed;
      }
      BuildRowsExtend(items, ImportBuilder(caller, now), base, i, added, row.value);
      AppendIncreasing(db.tasks, row.value, TaskKey);
      db.tasks := db.tasks + [row.value];
      added := added + [row.value];
      i := i + 1;
    }
    assert items[..i] == items;
    var ok := db.Commit();
    resp := Imported(|items|);
  }

  // ================================================================ export, then import

  /** The fields an export carries that an import restores. */
  predicate SameContent(a: Task, b: Task)
  {
    a.title == b.title && a.description == b.description && a.priority == b.priority
    && a.dueDate == b.dueDate && a.completed == b.completed
  }

  /** Importing an exported object rebuilds the task, except for its id, owner and creation
      time, which the import assigns. */
  lemma ImportRowOfExport(t: Task, caller: int, id: nat, now: DateTime)
    ensures ImportRow(TaskJson(t), caller, id, now) == Ok(t.(id := id, createdAt := now, userId := caller))
  {
    ReadExportedValues(t);
  }

  lemma ExportedLookups(t: Task)
    ensures var fs := TaskJson(t).fields;
      && Lookup(fs, "title") == Some(JStr(t.title))
      && Lookup(fs, "description") == Some(OptionalString(t.description))
      && Lookup(fs, "priority") == Some(JStr(t.priority))
      && Lookup(fs, "due_date") == Some(OptionalIso(t.dueDate))
      && Lookup(fs, "completed") == Some(JBool(t.completed))
  {
    var fs := TaskJson(t).fields;
    LookupAt(fs, "title", 0);
    LookupAt(fs, "description", 1);
    LookupAt(fs, "priority", 2);
    LookupAt(fs, "due_date", 3);
    LookupAt(fs, "completed", 4);
  }

  lemma ReadExportedValues(t: Task)
    ensures ReadRowValues(TaskJson(t).fields) == Ok(RowValues(t.title, t.description, t.priority, t.dueDate, t.completed))
  {
    ExportedLookups(t);
    NullableStringRoundTrip(t.description);
    IsoDateTimeRoundTrip(t.dueDate);
  }

  /** The tasks an import of the caller's export creates: the exported tasks, renumbered from
      `base`, owned by the caller and created now. */
  function Reimported(source: seq<Task>, caller: int, base: nat, now: DateTime): (r: seq<Task>)
    ensures |r| == |Filter(source, OwnedBy(caller))|
  {
    var mine := Filter(source, OwnedBy(caller));
    seq(|mine|, k requires 0 <= k < |mine| => mine[k].(id := base + k, createdAt := now, userId := caller))
  }

  /** The k-th exported record imports as the k-th task `Reimported` describes. */
  lemma ImportExportedAt(source: seq<Task>, caller: int, k: nat, base: nat, now: DateTime)
    requires k < |ExportTasks(source, caller)|
    ensures ImportRow(ExportTasks(source, caller)[k], caller, base + k, now) == Ok(Reimported(source, caller, base, now)[k])
  {
    var mine := Filter(source, OwnedBy(caller));
    ExportTasksAt(source, caller, k);
    assert Reimported(source, caller, base, now)[k] == mine[k].(id := base + k, createdAt := now, userId := caller);
    ImportRowOfExport(mine[k], caller, base + k, now);
  }

  lemma ImportExportedEach(source: seq<Task>, caller: int, base: nat, now: DateTime)
    ensures forall k :: 0 <= k < |ExportTasks(source, caller)| ==>
      ImportRow(ExportTasks(source, caller)[k], caller, base + k, now) == Ok(Reimported(source, caller, base, now)[k])
  {
    forall k | 0 <= k < |ExportTasks(source, caller)|
      ensures ImportRow(ExportTasks(source, caller)[k], caller, base + k, now) == Ok(Reimported(source, caller, base, now)[k])
    {
      ImportExportedAt(source, caller, k, base, now);
    }
  }

  lemma ImportExportedAll(source: seq<Task>, caller: int, base: nat, now: DateTime)
    ensures ImportedRows(ExportTasks(source, caller), caller, base, now) == Ok(Reimported(source, caller, base, now))
  {
    ImportExportedEach(source, caller, base, now);
    BuildRowsExact(ExportTasks(source, caller), ImportBuilder(caller, now), base, Reimported(source, caller, base, now));
  }

  /** Exporting the caller's tasks and importing the result adds one task per exported task,
      in the same order and with the same title, description, priority, due date and flag. */
  lemma ExportImportRoundTrip(t: Tables, source: seq<Task>, caller: int, now: DateTime)
    ensures var exported := ExportTasks(source, caller);
      var (resp, after) := ImportOutcome(t, caller, JsonBody(JArr(exported)), now);
      && resp == Imported(|exported|)
      && |after.tasks| == |t.tasks| + |exported| && after.tasks[..|t.tasks|] == t.tasks
      && forall k :: 0 <= k < |exported| ==> SameContent(after.tasks[|t.tasks| + k], Filter(source, OwnedBy(caller))[k])
  {
    ImportExportedAll(source, caller, NextId(t.tasks, TaskKey), now);
  }
}
