/** The task list page's view-model (src/pages/Tasks.tsx): the filter
    pipeline over the in-memory `tasks` list, and the handlers that splice
    the server's replies into that list. */
module TaskList {
  import opened Types
  import opened Text

  // ---------------------------------------------------------------------
  // Order-preserving filtering (Array.prototype.filter)

  /** `s.filter(p)`: the elements of `s` that satisfy `p`, in their order. */
  function Filter<T>(s: seq<T>, p: T -> bool): (r: seq<T>)
    ensures |r| <= |s|
    ensures forall k :: 0 <= k < |r| ==> p(r[k])
  {
    if s == [] then []
    else (if p(s[0]) then [s[0]] else []) + Filter(s[1..], p)
  }

  /** `a` is `b` with some elements left out and the rest kept in order. */
  predicate IsSubsequence<T(==)>(a: seq<T>, b: seq<T>)
    decreases |b|
  {
    if b == [] then a == []
    else (a != [] && a[0] == b[0] && IsSubsequence(a[1..], b[1..])) || IsSubsequence(a, b[1..])
  }

  lemma {:induction false} FilterIsSubsequence<T>(s: seq<T>, p: T -> bool)
    ensures IsSubsequence(Filter(s, p), s)
  {
    if s != [] {
      FilterIsSubsequence(s[1..], p);
      if p(s[0]) {
        assert Filter(s, p)[1..] == Filter(s[1..], p);
      } else {
        assert Filter(s, p) == Filter(s[1..], p);
      }
    }
  }

  /** An element is kept exactly when it is in `s` and satisfies `p`. */
  lemma {:induction false} FilterMembership<T>(s: seq<T>, p: T -> bool)
    ensures forall x :: x in Filter(s, p) <==> x in s && p(x)
  {
    if s != [] {
      FilterMembership(s[1..], p);
      assert s == [s[0]] + s[1..];
    }
  }

  /** An element is kept as often as it occurs when it satisfies `p`, and
      not at all otherwise. */
  lemma {:induction false} FilterCount<T>(s: seq<T>, p: T -> bool)
    ensures forall x :: multiset(Filter(s, p))[x] == if p(x) then multiset(s)[x] else 0
  {
    if s != [] {
      FilterCount(s[1..], p);
      assert s == [s[0]] + s[1..];
      assert multiset(s) == multiset{s[0]} + multiset(s[1..]);
      assert Filter(s, p) == (if p(s[0]) then [s[0]] else []) + Filter(s[1..], p);
    }
  }

  /** Filtering a list whose elements all pass changes nothing. */
  lemma {:induction false} FilterKeepsAll<T>(s: seq<T>, p: T -> bool)
    requires forall k :: 0 <= k < |s| ==> p(s[k])
    ensures Filter(s, p) == s
  {
    if s != [] {
      FilterKeepsAll(s[1..], p);
    }
  }

  lemma FilterIdempotent<T>(s: seq<T>, p: T -> bool)
    ensures Filter(Filter(s, p), p) == Filter(s, p)
  {
    FilterKeepsAll(Filter(s, p), p);
  }

  /** Two filters applied one after the other commute. */
  lemma {:induction false} FilterCommute<T>(s: seq<T>, p: T -> bool, q: T -> bool)
    ensures Filter(Filter(s, p), q) == Filter(Filter(s, q), p)
  {
    if s != [] {
      FilterCommute(s[1..], p, q);
      FilterAppend([s[0]], Filter(s[1..], p), q);
      FilterAppend([s[0]], Filter(s[1..], q), p);
      FilterAppend(if p(s[0]) then [s[0]] else [], Filter(s[1..], p), q);
      FilterAppend(if q(s[0]) then [s[0]] else [], Filter(s[1..], q), p);
    }
  }

  lemma {:induction false} FilterAppend<T>(a: seq<T>, b: seq<T>, p: T -> bool)
    ensures Filter(a + b, p) == Filter(a, p) + Filter(b, p)
  {
    if a != [] {
      FilterAppend(a[1..], b, p);
      assert (a + b)[1..] == a[1..] + b;
    } else {
      assert a + b == b;
    }
  }

  // ---------------------------------------------------------------------
  // The filter pipeline of `filterTasks`

  /** A filter dropdown: `'ALL'` or one value. */
  datatype Choice<T> = All | Only(value: T)

  /** The search test: the lower-cased title contains the lower-cased term,
      or the task has a description whose lower-cased form contains it. */
  predicate MatchesSearch(task: Task, term: string)
  {
    Includes(Lower(task.title), Lower(term))
    || (task.description.Some? && Includes(Lower(task.description.value), Lower(term)))
  }

  function SearchMatches(term: string): Task -> bool
  {
    (t: Task) => MatchesSearch(t, term)
  }

  function StatusIs(status: TaskStatus): Task -> bool
  {
    (t: Task) => t.status == status
  }

  function PriorityIs(priority: TaskPriority): Task -> bool
  {
    (t: Task) => t.priority == priority
  }

  /** The search step, skipped when the term is empty (falsy). */
  function BySearch(tasks: seq<Task>, term: string): seq<Task>
  {
    if term != "" then Filter(tasks, SearchMatches(term)) else tasks
  }

  function ByStatus(tasks: seq<Task>, status: Choice<TaskStatus>): seq<Task>
  {
    match status
    case All => tasks
    case Only(st) => Filter(tasks, StatusIs(st))
  }

  function ByPriority(tasks: seq<Task>, priority: Choice<TaskPriority>): seq<Task>
  {
    match priority
    case All => tasks
    case Only(pr) => Filter(tasks, PriorityIs(pr))
  }

  /** The three criteria a task must meet to stay in the filtered list. */
  predicate SearchOk(task: Task, term: string)
  {
    term == "" || MatchesSearch(task, term)
  }

  predicate StatusOk(task: Task, status: Choice<TaskStatus>)
  {
    status.Only? ==> task.status == status.value
  }

  predicate PriorityOk(task: Task, priority: Choice<TaskPriority>)
  {
    priority.Only? ==> task.priority == priority.value
  }

  predicate Passes(task: Task, term: string, status: Choice<TaskStatus>, priority: Choice<TaskPriority>)
  {
    SearchOk(task, term) && StatusOk(task, status) && PriorityOk(task, priority)
  }

  lemma BySearchCount(tasks: seq<Task>, term: string)
    ensures forall t :: multiset(BySearch(tasks, term))[t] == if SearchOk(t, term) then multiset(tasks)[t] else 0
  {
    if term != "" { FilterCount(tasks, SearchMatches(term)); }
  }

  lemma ByStatusCount(tasks: seq<Task>, status: Choice<TaskStatus>)
    ensures forall t :: multiset(ByStatus(tasks, status))[t] == if StatusOk(t, status) then multiset(tasks)[t] else 0
  {
    if status.Only? { FilterCount(tasks, StatusIs(status.value)); }
  }

  lemma ByPriorityCount(tasks: seq<Task>, priority: Choice<TaskPriority>)
    ensures forall t :: multiset(ByPriority(tasks, priority))[t] == if PriorityOk(t, priority) then multiset(tasks)[t] else 0
  {
    if priority.Only? { FilterCount(tasks, PriorityIs(priority.value)); }
  }

  /** `filterTasks`: search, then status, then priority. The result keeps
      exactly the tasks that pass all three criteria, each as often as it
      occurs in `tasks`, in their order. */
  function FilterTasks(tasks: seq<Task>, term: string, status: Choice<TaskStatus>,
                       priority: Choice<TaskPriority>): (r: seq<Task>)
    ensures forall t :: multiset(r)[t] == if Passes(t, term, status, priority) then multiset(tasks)[t] else 0
    ensures forall t :: t in r <==> t in tasks && Passes(t, term, status, priority)
    ensures forall k :: 0 <= k < |r| ==> Passes(r[k], term, status, priority)
  {
    var afterSearch := BySearch(tasks, term);
    var afterStatus := ByStatus(afterSearch, status);
    var r := ByPriority(afterStatus, priority);
    assert forall t :: multiset(r)[t] == if Passes(t, term, status, priority) then multiset(tasks)[t] else 0 by {
      BySearchCount(tasks, term);
      ByStatusCount(afterSearch, status);
      ByPriorityCount(afterStatus, priority);
    }
    assert forall t :: t in r <==> t in tasks && Passes(t, term, status, priority) by {
      forall t
        ensures t in r <==> t in tasks && Passes(t, term, status, priority)
      {
        assert t in r <==> multiset(r)[t] > 0;
        assert t in tasks <==> multiset(tasks)[t] > 0;
      }
    }
    assert forall k :: 0 <= k < |r| ==> Passes(r[k], term, status, priority) by {
      forall k | 0 <= k < |r|
        ensures Passes(r[k], term, status, priority)
      {
        assert r[k] in r;
      }
    }
    r
  }

  /** With an empty search term and both dropdowns on 'ALL', the list is
      shown as it is. */
  lemma FilterTasksNoCriteria(tasks: seq<Task>)
    ensures FilterTasks(tasks, "", All, All) == tasks
  {
  }

  /** The filtered list is an order-preserving subsequence of `tasks`. */
  lemma FilterTasksSubsequence(tasks: seq<Task>, term: string, status: Choice<TaskStatus>,
                               priority: Choice<TaskPriority>)
    ensures IsSubsequence(FilterTasks(tasks, term, status, priority), tasks)
  {
    var afterSearch := BySearch(tasks, term);
    var afterStatus := ByStatus(afterSearch, status);
    if term != "" { FilterIsSubsequence(tasks, SearchMatches(term)); } else { SubsequenceReflexive(tasks); }
    if status.Only? { FilterIsSubsequence(afterSearch, StatusIs(status.value)); } else { SubsequenceReflexive(afterSearch); }
    if priority.Only? { FilterIsSubsequence(afterStatus, PriorityIs(priority.value)); } else { SubsequenceReflexive(afterStatus); }
    SubsequenceTransitive(ByPriority(afterStatus, priority), afterStatus, afterSearch);
    SubsequenceTransitive(ByPriority(afterStatus, priority), afterSearch, tasks);
  }

  lemma {:induction false} SubsequenceReflexive<T>(s: seq<T>)
    ensures IsSubsequence(s, s)
  {
    if s != [] {
      SubsequenceReflexive(s[1..]);
    }
  }

  lemma {:induction false} SubsequenceTransitive<T>(a: seq<T>, b: seq<T>, c: seq<T>)
    requires IsSubsequence(a, b) && IsSubsequence(b, c)
    ensures IsSubsequence(a, c)
    decreases |c|
  {
    if c == [] {
    } else if b != [] && b[0] == c[0] && IsSubsequence(b[1..], c[1..]) {
      if a != [] && a[0] == b[0] && IsSubsequence(a[1..], b[1..]) {
        SubsequenceTransitive(a[1..], b[1..], c[1..]);
      } else {
        SubsequenceTransitive(a, b[1..], c[1..]);
      }
    } else {
      SubsequenceTransitive(a, b, c[1..]);
    }
  }

  /** The status and priority steps commute. */
  lemma StatusPriorityCommute(tasks: seq<Task>, status: Choice<TaskStatus>, priority: Choice<TaskPriority>)
    ensures ByPriority(ByStatus(tasks, status), priority) == ByStatus(ByPriority(tasks, priority), status)
  {
    if status.Only? && priority.Only? {
      FilterCommute(tasks, StatusIs(status.value), PriorityIs(priority.value));
    }
  }

  /** Re-filtering the filtered list with the same criteria changes nothing. */
  lemma FilterTasksIdempotent(tasks: seq<Task>, term: string, status: Choice<TaskStatus>,
                              priority: Choice<TaskPriority>)
    ensures FilterTasks(FilterTasks(tasks, term, status, priority), term, status, priority)
         == FilterTasks(tasks, term, status, priority)
  {
    var r := FilterTasks(tasks, term, status, priority);
    if term != "" { FilterKeepsAll(r, SearchMatches(term)); }
    if status.Only? { FilterKeepsAll(r, StatusIs(status.value)); }
    if priority.Only? { FilterKeepsAll(r, PriorityIs(priority.value)); }
  }

  /** The search test spelt out: the title contains the term (ignoring ASCII
      case) at some position, or a present description does; a task without
      a description is found through its title only. */
  lemma SearchMeaning(task: Task, term: string)
    ensures MatchesSearch(task, term) <==>
      (exists i: nat :: OccursAt(Lower(task.title), Lower(term), i))
      || (task.description.Some? && exists i: nat :: OccursAt(Lower(task.description.value), Lower(term), i))
    ensures task.description.None? ==>
      (MatchesSearch(task, term) <==> exists i: nat :: OccursAt(Lower(task.title), Lower(term), i))
  {
  }

  // ---------------------------------------------------------------------
  // Splicing server replies into the list

  /** The list after an update reply: every task with the given id is
      replaced by the reply, every other task stays where it was. */
  function ReplaceById(tasks: seq<Task>, id: string, updated: Task): (r: seq<Task>)
    ensures |r| == |tasks|
    ensures forall k :: 0 <= k < |tasks| && tasks[k].id == id ==> r[k] == updated
    ensures forall k :: 0 <= k < |tasks| && tasks[k].id != id ==> r[k] == tasks[k]
  {
    seq(|tasks|, k requires 0 <= k < |tasks| => if tasks[k].id == id then updated else tasks[k])
  }

  function IdIsNot(id: string): Task -> bool
  {
    (t: Task) => t.id != id
  }

  /** The list after a delete: every task with the given id goes, the others
      stay, each as often as before and in their order. */
  function RemoveById(tasks: seq<Task>, id: string): (r: seq<Task>)
    ensures forall k :: 0 <= k < |r| ==> r[k].id != id
    ensures forall t :: t in r <==> t in tasks && t.id != id
    ensures forall t :: multiset(r)[t] == if t.id != id then multiset(tasks)[t] else 0
    ensures IsSubsequence(r, tasks)
  {
    var r := Filter(tasks, IdIsNot(id));
    FilterMembership(tasks, IdIsNot(id));
    FilterCount(tasks, IdIsNot(id));
    FilterIsSubsequence(tasks, IdIsNot(id));
    r
  }

  /** Replacing the same id with the same reply twice is replacing it once. */
  lemma ReplaceIdempotent(tasks: seq<Task>, id: string, updated: Task)
    ensures ReplaceById(ReplaceById(tasks, id, updated), id, updated) == ReplaceById(tasks, id, updated)
  {
  }

  /** Deleting a task that was just updated under its own id gives the same
      list as deleting it without the update. */
  lemma {:induction false} RemoveAfterReplace(tasks: seq<Task>, id: string, updated: Task)
    requires updated.id == id
    ensures RemoveById(ReplaceById(tasks, id, updated), id) == RemoveById(tasks, id)
  {
    if tasks != [] {
      RemoveAfterReplace(tasks[1..], id, updated);
      assert ReplaceById(tasks, id, updated)[1..] == ReplaceById(tasks[1..], id, updated);
    }
  }

  /** Deleting a task that was just created gives back the list as it was,
      minus any older task that shared its id. */
  lemma RemoveAfterCreate(tasks: seq<Task>, created: Task)
    ensures RemoveById([created] + tasks, created.id) == RemoveById(tasks, created.id)
  {
    assert ([created] + tasks)[1..] == tasks;
  }

  /** The message a failed create or update re-throws to the task form: the
      server's message when it is non-empty, the fixed fallback otherwise. */
  function ThrownMessage(err: HttpError, fallback: string): (m: string)
    ensures Truthy(err.serverMessage) ==> m == err.serverMessage.value
    ensures !Truthy(err.serverMessage) ==> m == fallback
  {
    if Truthy(err.serverMessage) then err.serverMessage.value else fallback
  }

  const CreateFailed := "Failed to create task"
  const UpdateFailed := "Failed to update task"
  const FetchFailed := "Failed to fetch tasks"
  const DeleteFailed := "Failed to delete task"
  const CompleteFailed := "Failed to complete task"
  const ProgressFailed := "Failed to update task status"

  /** The page's `tasks`, `error` and `loading` state. Each handler receives
      the settled reply of its API call as a parameter. */
  class TaskListView {
    var tasks: seq<Task>
    var error: string
    var loading: bool

    constructor ()
      ensures tasks == [] && error == "" && loading
    {
      tasks := [];
      error := "";
      loading := true;
    }

    /** `fetchTasks`: adopt the server's list, or report the failure and keep
        the current one; `loading` ends false on both paths. */
    method FetchTasks(reply: Reply<seq<Task>>)
      modifies this
      ensures reply.Resolved? ==> tasks == reply.value && error == old(error)
      ensures reply.Rejected? ==> tasks == old(tasks) && error == FetchFailed
      ensures !loading
    {
      loading := true;
      match reply {
        case Resolved(data) =>
          tasks := data;
        case Rejected(_) =>
          error := FetchFailed;
      }
      loading := false;
    }

    /** `handleCreateTask`: prepend the created task, or re-throw. */
    method CreateTask(reply: Reply<Task>) returns (thrown: Option<string>)
      modifies this`tasks
      ensures reply.Resolved? ==> tasks == [reply.value] + old(tasks) && thrown == None
      ensures reply.Rejected? ==> tasks == old(tasks) && thrown == Some(ThrownMessage(reply.error, CreateFailed))
    {
      match reply {
        case Resolved(created) =>
          tasks := [created] + tasks;
          thrown := None;
        case Rejected(err) =>
          thrown := Some(ThrownMessage(err, CreateFailed));
      }
    }

    /** `handleUpdateTask`: replace every task with that id by the reply, or
        re-throw. */
    method UpdateTask(id: string, payload: TaskPayload, reply: Reply<Task>) returns (thrown: Option<string>)
      modifies this`tasks
      ensures reply.Resolved? ==> tasks == ReplaceById(old(tasks), id, reply.value) && thrown == None
      ensures reply.Rejected? ==> tasks == old(tasks) && thrown == Some(ThrownMessage(reply.error, UpdateFailed))
    {
      match reply {
        case Resolved(updated) =>
          tasks := ReplaceById(tasks, id, updated);
          thrown := None;
        case Rejected(err) =>
          thrown := Some(ThrownMessage(err, UpdateFailed));
      }
    }

    /** `handleDeleteTask`: nothing happens unless the user confirms; then the
        task is removed, or only `error` is set when the call fails. */
    method DeleteTask(id: string, confirmed: bool, reply: Reply<()>)
      modifies this`tasks, this`error
      ensures !confirmed ==> tasks == old(tasks) && error == old(error)
      ensures confirmed && reply.Resolved? ==> tasks == RemoveById(old(tasks), id) && error == old(error)
      ensures confirmed && reply.Rejected? ==> tasks == old(tasks) && error == DeleteFailed
    {
      if !confirmed {
        return;
      }
      match reply {
        case Resolved(_) =>
          tasks := RemoveById(tasks, id);
        case Rejected(_) =>
          error := DeleteFailed;
      }
    }

    /** `handleCompleteTask`. */
    method CompleteTask(id: string, reply: Reply<Task>)
      modifies this`tasks, this`error
      ensures reply.Resolved? ==> tasks == ReplaceById(old(tasks), id, reply.value) && error == old(error)
      ensures reply.Rejected? ==> tasks == old(tasks) && error == CompleteFailed
    {
      match reply {
        case Resolved(updated) =>
          tasks := ReplaceById(tasks, id, updated);
        case Rejected(_) =>
          error := CompleteFailed;
      }
    }

    /** `handleSetInProgress`. */
    method SetInProgress(id: string, reply: Reply<Task>)
      modifies this`tasks, this`error
      ensures reply.Resolved? ==> tasks == ReplaceById(old(tasks), id, reply.value) && error == old(error)
      ensures reply.Rejected? ==> tasks == old(tasks) && error == ProgressFailed
    {
      match reply {
        case Resolved(updated) =>
          tasks := ReplaceById(tasks, id, updated);
        case Rejected(_) =>
          error := ProgressFailed;
      }
    }
  }
}
