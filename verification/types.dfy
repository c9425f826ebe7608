/** Domain values shared by the task-management client: tasks, users and
    the payload the task form sends (src/types/index.ts). */
module Types {

  /** An optional value; `None` stands for JavaScript's `undefined`/`null`. */
  datatype Option<+T> = None | Some(value: T)

  datatype TaskStatus = PENDING | IN_PROGRESS | COMPLETED | CANCELLED

  datatype TaskPriority = LOW | MEDIUM | HIGH | URGENT

  datatype User = User(id: string, email: string, name: string, createdAt: string)

  datatype Task = Task(
    id: string,
    title: string,
    description: Option<string>,
    status: TaskStatus,
    priority: TaskPriority,
    dueDate: Option<string>,
    createdAt: string,
    updatedAt: string,
    userId: string)

  /** The object the task form hands to its `onSubmit` callback: a
      `CreateTaskData` when `status` is absent, an `UpdateTaskData` when it is
      present. `dueDate` is `None` for the explicit `null` the form sends. */
  datatype TaskPayload = TaskPayload(
    title: string,
    description: Option<string>,
    priority: TaskPriority,
    dueDate: Option<string>,
    status: Option<TaskStatus>)

  /** What a failed HTTP call exposes to the code that catches it: the
      response status, the server's message and its per-field errors (as
      name/message pairs) when there was a response, and the error's own
      message. */
  datatype HttpError = HttpError(
    status: Option<int>,
    serverMessage: Option<string>,
    fieldErrors: Option<seq<(string, string)>>,
    message: Option<string>)

  /** The outcome of an awaited call: the resolved value or the rejection. */
  datatype Reply<+T> = Resolved(value: T) | Rejected(error: HttpError)

  /** JavaScript truthiness of an optional string: present and non-empty. */
  predicate Truthy(s: Option<string>)
  {
    s.Some? && s.value != ""
  }
}
