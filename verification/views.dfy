/** The dashboard page: six counts over the caller's tasks. */
module Views {
  import opened Seqs
  import opened Models
  import opened Tasks

  /** What the dashboard template receives. */
  datatype Counts = Counts(total: int, completed: int, pending: int, high: int, medium: int, low: int)

  function CompletedBy(caller: int): Task -> bool
  {
    (t: Task) => t.userId == caller && t.completed
  }

  function PendingBy(caller: int): Task -> bool
  {
    (t: Task) => t.userId == caller && !t.completed
  }

  function PriorityBy(caller: int, priority: string): Task -> bool
  {
    (t: Task) => t.userId == caller && t.priority == priority
  }

  /** `dashboard`: one filtered count per figure (owned, completed, and each of the three
      priorities), and pending as total minus completed. */
  function Dashboard(tasks: seq<Task>, caller: int): (c: Counts)
    ensures c.total == Count(tasks, OwnedBy(caller)) && c.completed == Count(tasks, CompletedBy(caller))
    ensures c.total == c.completed + c.pending
    ensures c.high == Count(tasks, PriorityBy(caller, "High")) && c.medium == Count(tasks, PriorityBy(caller, "Medium"))
            && c.low == Count(tasks, PriorityBy(caller, "Low"))
  {
    var total := Count(tasks, OwnedBy(caller));
    var completed := Count(tasks, CompletedBy(caller));
    Counts(total, completed, total - completed,
           Count(tasks, PriorityBy(caller, "High")), Count(tasks, PriorityBy(caller, "Medium")),
           Count(tasks, PriorityBy(caller, "Low")))
  }

  /** Pending counts exactly the caller's unfinished tasks, so 0 <= pending <= total, and
      completed <= total. */
  lemma PendingIsUnfinished(tasks: seq<Task>, caller: int)
    ensures Dashboard(tasks, caller).pending == Count(tasks, PendingBy(caller))
    ensures 0 <= Dashboard(tasks, caller).pending <= Dashboard(tasks, caller).total
    ensures 0 <= Dashboard(tasks, caller).completed <= Dashboard(tasks, caller).total
  {
    CountSplit(tasks, OwnedBy(caller), CompletedBy(caller), PendingBy(caller), (t: Task) => t.completed);
  }

  /** The three priority counts are over disjoint sets of the caller's tasks, so together they
      are at most the total (tasks with any other priority are counted in none). */
  lemma PrioritiesWithinTotal(tasks: seq<Task>, caller: int)
    ensures var c := Dashboard(tasks, caller);
      0 <= c.high && 0 <= c.medium && 0 <= c.low && c.high + c.medium + c.low <= c.total
  {
    CountDisjoint(tasks, PriorityBy(caller, "High"), PriorityBy(caller, "Medium"), PriorityBy(caller, "Low"), OwnedBy(caller));
  }

  /** The total is the number of distinct tasks the caller owns, in a table held in id order. */
  lemma TotalIsOwnedTasks(tasks: seq<Task>, caller: int)
    requires Increasing(tasks, TaskKey)
    ensures Dashboard(tasks, caller).total == |Matching(tasks, OwnedBy(caller))|
    ensures forall t :: t in Matching(tasks, OwnedBy(caller)) <==> t in tasks && t.userId == caller
  {
    forall i, j | 0 <= i < j < |tasks| ensures tasks[i] != tasks[j] {
      assert TaskKey(tasks[i]) < TaskKey(tasks[j]);
    }
    FilterDistinctCard(tasks, OwnedBy(caller));
  }

  /** A task the caller does not own moves none of the caller's counts. */
  lemma OthersTasksIgnored(tasks: seq<Task>, caller: int, other: Task)
    requires other.userId != caller
    ensures Dashboard(tasks + [other], caller) == Dashboard(tasks, caller)
  {
    FilterAppend(tasks, [other], OwnedBy(caller));
    FilterAppend(tasks, [other], CompletedBy(caller));
    FilterAppend(tasks, [other], PriorityBy(caller, "High"));
    FilterAppend(tasks, [other], PriorityBy(caller, "Medium"));
    FilterAppend(tasks, [other], PriorityBy(caller, "Low"));
  }
}
