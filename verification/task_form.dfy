/** The create/edit task form (src/components/TaskModal.tsx): the due-date
    encoding, the prefill of the fields from an existing task, the payload
    built on submit with its validation, and the choice of error text. */
module TaskForm {
  import opened Types
  import opened Text

  /** A value, or the message of the `Error` thrown instead. */
  datatype Outcome<+T> = Ok(value: T) | Thrown(message: string)

  const TitleRequired := "Title is required"
  const UnexpectedError := "An unexpected error occurred"
  /** The time of day appended to every due date. */
  const Midnight := "T00:00:00"

  function InvalidFormatMessage(date: string): string
  {
    "Invalid date format: " + date + ". Expected YYYY-MM-DD"
  }

  function InvalidDateMessage(date: string): string
  {
    "Invalid date: " + date
  }

  function InvalidDateTimeMessage(dateTime: string): string
  {
    "Invalid datetime format: " + dateTime + ". Expected YYYY-MM-DDTHH:mm:ss"
  }

  /** `\d` of a JavaScript regular expression without the `u` flag. */
  predicate IsDigit(c: char)
  {
    '0' <= c <= '9'
  }

  predicate DigitsIn(s: string, lo: nat, hi: nat)
    requires lo <= hi <= |s|
  {
    forall i :: lo <= i < hi ==> IsDigit(s[i])
  }

  /** `/^\d{4}-\d{2}-\d{2}$/.test(s)` */
  predicate IsDateShape(s: string)
  {
    |s| == 10 && DigitsIn(s, 0, 4) && s[4] == '-' && DigitsIn(s, 5, 7) && s[7] == '-' && DigitsIn(s, 8, 10)
  }

  /** `/^\d{4}-\d{2}-\d{2}T\d{2}:\d{2}:\d{2}$/.test(s)` */
  predicate IsDateTimeShape(s: string)
  {
    |s| == 19 && IsDateShape(s[..10]) && s[10] == 'T'
    && DigitsIn(s, 11, 13) && s[13] == ':' && DigitsIn(s, 14, 16) && s[16] == ':' && DigitsIn(s, 17, 19)
  }

  /** `formatDateTimeForBackend`. `parses(x)` stands for
      `!isNaN(new Date(x).getTime())`, the host's calendar check. An empty
      input gives `null`; an input of the wrong shape, or one the calendar
      check rejects, throws; any other input gets midnight appended. */
  function FormatForBackend(date: string, parses: string -> bool): (r: Outcome<Option<string>>)
    ensures date == "" ==> r == Ok(None)
    ensures date != "" && !IsDateShape(date) ==> r == Thrown(InvalidFormatMessage(date))
    ensures date != "" && IsDateShape(date) && !parses(date + Midnight) ==> r == Thrown(InvalidDateMessage(date))
    ensures r.Ok? && r.value.Some? ==> r.value.value == date + Midnight && IsDateTimeShape(r.value.value)
    ensures r == Ok(None) <==> date == ""
    ensures r.Ok? <==> date == "" || (IsDateShape(date) && parses(date + Midnight))
  {
    if date == "" then Ok(None)
    else if !IsDateShape(date) then Thrown(InvalidFormatMessage(date))
    else if !parses(date + Midnight) then Thrown(InvalidDateMessage(date))
    else
      var formatted := date + Midnight;
      assert formatted[..10] == date;
      Ok(Some(formatted))
  }

  /** The date input's value for a stored due date: the part before the
      first `T`, or the empty string when there is no due date. */
  function DueDateInput(dueDate: Option<string>): (r: string)
    ensures 'T' !in r
    ensures !Truthy(dueDate) ==> r == ""
    ensures Truthy(dueDate) && 'T' !in dueDate.value ==> r == dueDate.value
    ensures Truthy(dueDate) && 'T' in dueDate.value ==> r == dueDate.value[..IndexOf(dueDate.value, 'T')]
  {
    if Truthy(dueDate) then BeforeFirst(dueDate.value, 'T') else ""
  }

  /** A date-time in the form the form produces: a date, then midnight. */
  lemma DateOfDateTime(s: string)
    requires IsDateTimeShape(s)
    ensures 'T' in s && BeforeFirst(s, 'T') == s[..10]
  {
    var i := IndexOf(s, 'T');
    assert s[..10][4] == '-' && s[..10][7] == '-';
    assert forall j :: 0 <= j < 10 ==> s[j] != 'T' by {
      forall j | 0 <= j < 10 ensures s[j] != 'T' {
        assert s[j] == s[..10][j];
      }
    }
    assert i == 10;
  }

  /** Encoding a date and then taking the part before the first `T`, as the
      prefill does, gives the date back. */
  lemma {:induction false} DueDateRoundTrip(date: string, parses: string -> bool)
    requires FormatForBackend(date, parses).Ok?
    ensures DueDateInput(FormatForBackend(date, parses).value) == date
  {
    var r := FormatForBackend(date, parses);
    if date != "" {
      DateOfDateTime(r.value.value);
      assert r.value.value[..10] == date;
    }
  }

  /** A stored due date already at midnight survives prefill and submit. */
  lemma {:induction false} StoredDueDateRoundTrip(dueDate: string, parses: string -> bool)
    requires IsDateTimeShape(dueDate) && dueDate[10..] == Midnight && parses(dueDate)
    ensures FormatForBackend(DueDateInput(Some(dueDate)), parses) == Ok(Some(dueDate))
  {
    DateOfDateTime(dueDate);
    var date := dueDate[..10];
    assert date + Midnight == dueDate;
  }

  /** The form's editable fields. */
  datatype Fields = Fields(
    title: string,
    description: string,
    priority: TaskPriority,
    status: TaskStatus,
    dueDate: string)

  /** The prefill effect: the fields of the task being edited, or the
      defaults of a new task. */
  function Prefill(task: Option<Task>): (f: Fields)
    ensures task.None? ==> f == Fields("", "", MEDIUM, PENDING, "")
    ensures task.Some? ==> f.title == task.value.title && f.priority == task.value.priority
                           && f.status == task.value.status
                           && f.dueDate == DueDateInput(task.value.dueDate)
                           && f.description == (if task.value.description.Some? then task.value.description.value else "")
  {
    match task
    case None => Fields("", "", MEDIUM, PENDING, "")
    case Some(t) =>
      Fields(t.title, if t.description.Some? then t.description.value else "", t.priority, t.status,
             DueDateInput(t.dueDate))
  }

  /** The payload `handleSubmit` hands to `onSubmit`, or the message of the
      error it throws first. */
  function Payload(f: Fields, editing: bool, parses: string -> bool): (r: Outcome<TaskPayload>)
    ensures Trim(f.title) == "" ==> r == Thrown(TitleRequired)
    ensures Trim(f.title) != "" && f.dueDate != "" ==>
      (FormatForBackend(f.dueDate, parses).Thrown? ==> r == Thrown(FormatForBackend(f.dueDate, parses).message))
    ensures r.Ok? <==> Trim(f.title) != "" && (f.dueDate == "" || (IsDateShape(f.dueDate) && parses(f.dueDate + Midnight)))
    ensures r.Ok? ==> r.value.title == Trim(f.title) && r.value.title != ""
    ensures r.Ok? ==> r.value.description == (if Trim(f.description) == "" then None else Some(Trim(f.description)))
    ensures r.Ok? ==> r.value.priority == f.priority
    ensures r.Ok? ==> r.value.dueDate == (if f.dueDate == "" then None else Some(f.dueDate + Midnight))
    ensures r.Ok? ==> (r.value.status.Some? <==> editing) && (editing ==> r.value.status == Some(f.status))
    ensures r.Thrown? ==> r.message != ""
  {
    var title := Trim(f.title);
    if title == "" then Thrown(TitleRequired)
    else
      var formatted := if f.dueDate != "" then FormatForBackend(f.dueDate, parses) else Ok(None);
      match formatted
      case Thrown(m) => Thrown(m)
      case Ok(dueDate) =>
        var description := Trim(f.description);
        var data := TaskPayload(title, if description == "" then None else Some(description), f.priority,
                                dueDate, if editing then Some(f.status) else None);
        match data.dueDate
        case Some(dateTime) =>
          if dateTime != "" && !IsDateTimeShape(dateTime) then Thrown(InvalidDateTimeMessage(dateTime))
          else Ok(data)
        case None => Ok(data)
  }

  /** Editing a task whose fields are already in the form's normal shape and
      submitting without changes sends the task's own values back. */
  lemma EditRoundTrip(task: Task, parses: string -> bool)
    requires Trim(task.title) == task.title != ""
    requires task.description.Some? ==> Trim(task.description.value) == task.description.value != ""
    requires task.dueDate.Some? ==> IsDateTimeShape(task.dueDate.value) && task.dueDate.value[10..] == Midnight
                                    && parses(task.dueDate.value)
    ensures Payload(Prefill(Some(task)), true, parses)
         == Ok(TaskPayload(task.title, task.description, task.priority, task.dueDate, Some(task.status)))
  {
    var f := Prefill(Some(task));
    if task.dueDate.Some? {
      StoredDueDateRoundTrip(task.dueDate.value, parses);
      assert f.dueDate != "" && f.dueDate + Midnight == task.dueDate.value;
    } else {
      assert f.dueDate == "";
    }
    var r := Payload(f, true, parses);
    assert r.Ok?;
    assert r.value.description == task.description;
  }

  /** The error a plain `new Error(message)` carries: no response. */
  function LocalError(message: string): HttpError
  {
    HttpError(None, None, None, Some(message))
  }

  /** The text shown for the server's per-field errors: each pair written
      as the field name, a colon, a space and the message, the pairs
      separated by a comma and a space. */
  function FieldErrorsText(entries: seq<(string, string)>): (r: string)
    ensures |entries| == 1 ==> r == entries[0].0 + ": " + entries[0].1
    ensures entries == [] ==> r == ""
    ensures |entries| >= 2 ==> r == entries[0].0 + ": " + entries[0].1 + ", " + FieldErrorsText(entries[1..])
  {
    var rendered := seq(|entries|, i requires 0 <= i < |entries| => entries[i].0 + ": " + entries[i].1);
    assert |entries| >= 2 ==> rendered[1..] == seq(|entries[1..]|, i requires 0 <= i < |entries[1..]| => entries[1..][i].0 + ": " + entries[1..][i].1);
    Join(rendered, ", ")
  }

  /** The text shown for a caught error: the server's message, else the
      server's field errors, else the error's own message, else a fixed
      fallback. */
  function ErrorText(err: HttpError): (r: string)
    ensures Truthy(err.serverMessage) ==> r == err.serverMessage.value
    ensures !Truthy(err.serverMessage) && err.fieldErrors.Some? ==> r == FieldErrorsText(err.fieldErrors.value)
    ensures !Truthy(err.serverMessage) && err.fieldErrors.None? && Truthy(err.message) ==> r == err.message.value
    ensures !Truthy(err.serverMessage) && err.fieldErrors.None? && !Truthy(err.message) ==> r == UnexpectedError
  {
    if Truthy(err.serverMessage) then err.serverMessage.value
    else if err.fieldErrors.Some? then FieldErrorsText(err.fieldErrors.value)
    else if Truthy(err.message) then err.message.value
    else UnexpectedError
  }

  /** Every error the form raises itself is shown with its own message. */
  lemma LocalErrorShown(f: Fields, editing: bool, parses: string -> bool)
    requires Payload(f, editing, parses).Thrown?
    ensures ErrorText(LocalError(Payload(f, editing, parses).message)) == Payload(f, editing, parses).message
  {
  }

  /** The modal's state: its fields, `loading` and `error`. */
  class TaskModal {
    var title: string
    var description: string
    var priority: TaskPriority
    var status: TaskStatus
    var dueDate: string
    var loading: bool
    var error: string

    /** The form's inputs, apart from `loading` and `error`. */
    function CurrentFields(): Fields
      reads this`title, this`description, this`priority, this`status, this`dueDate
    {
      Fields(title, description, priority, status, dueDate)
    }

    constructor ()
      ensures CurrentFields() == Prefill(None) && !loading && error == ""
    {
      title, description, priority, status, dueDate := "", "", MEDIUM, PENDING, "";
      loading, error := false, "";
    }

    /** The effect run when the modal opens or its task changes. */
    method Open(task: Option<Task>)
      modifies this
      ensures CurrentFields() == Prefill(task) && error == "" && loading == old(loading)
    {
      match task {
        case Some(t) =>
          title := t.title;
          description := if t.description.Some? then t.description.value else "";
          priority := t.priority;
          status := t.status;
          dueDate := DueDateInput(t.dueDate);
        case None =>
          title := "";
          description := "";
          priority := MEDIUM;
          status := PENDING;
          dueDate := "";
      }
      error := "";
    }

    /** The `try` block of `handleSubmit` up to the call of `onSubmit`:
        validate, encode the due date, build the `data` object and add
        `status` when a task is being edited. */
    method BuildPayload(editing: bool, parses: string -> bool) returns (result: Outcome<TaskPayload>)
      ensures result == Payload(CurrentFields(), editing, parses)
    {
      var trimmedTitle := Trim(title);
      if trimmedTitle == "" {
        return Thrown(TitleRequired);
      }
      var formattedDueDate: Option<string> := None;
      if dueDate != "" {
        var formatted := FormatForBackend(dueDate, parses);
        if formatted.Thrown? {
          return Thrown(formatted.message);
        }
        formattedDueDate := formatted.value;
      }
      var trimmedDescription := Trim(description);
      var data := TaskPayload(trimmedTitle, if trimmedDescription == "" then None else Some(trimmedDescription),
                              priority, formattedDueDate, None);
      if editing {
        data := data.(status := Some(status));
      }
      if data.dueDate.Some? && data.dueDate.value != "" {
        var dateTime := data.dueDate.value;
        if !IsDateTimeShape(dateTime) {
          return Thrown(InvalidDateTimeMessage(dateTime));
        }
      }
      return Ok(data);
    }

    /** The rest of `handleSubmit` once the payload is built or refused:
        call `onSubmit` with it, close on success, and show the caught
        error. */
    method Settle(payload: Outcome<TaskPayload>, reply: Option<HttpError>)
      returns (sent: Option<TaskPayload>, closed: bool)
      requires payload.Thrown? ==> payload.message != ""
      modifies this`loading, this`error
      ensures sent == (if payload.Ok? then Some(payload.value) else None)
      ensures closed <==> payload.Ok? && reply.None?
      ensures payload.Thrown? ==> error == payload.message
      ensures payload.Ok? ==> error == (if reply.Some? then ErrorText(reply.value) else old(error))
      ensures !loading
    {
      match payload {
        case Thrown(m) =>
          sent, closed := None, false;
          error := ErrorText(LocalError(m));
        case Ok(data) =>
          sent := Some(data);
          closed := reply.None?;
          if reply.Some? {
            error := ErrorText(reply.value);
          }
      }
      loading := false;
    }

    /** `handleSubmit`. `task` is the task being edited, if any; `reply` is
        how the awaited `onSubmit` settled (`None` when it resolved). Returns
        the payload passed to `onSubmit`, if the form got that far, and
        whether `onClose` was called. */
    method Submit(task: Option<Task>, parses: string -> bool, reply: Option<HttpError>)
      returns (sent: Option<TaskPayload>, closed: bool)
      modifies this`loading, this`error
      ensures sent == (if Payload(CurrentFields(), task.Some?, parses).Ok?
                       then Some(Payload(CurrentFields(), task.Some?, parses).value) else None)
      ensures closed <==> sent.Some? && reply.None?
      ensures Payload(CurrentFields(), task.Some?, parses).Thrown? ==>
                error == Payload(CurrentFields(), task.Some?, parses).message
      ensures sent.Some? ==> error == (if reply.Some? then ErrorText(reply.value) else "")
      ensures !loading
    {
      ghost var fields := CurrentFields();
      ghost var expected := Payload(fields, task.Some?, parses);
      loading := true;
      error := "";
      assert CurrentFields() == fields;
      var payload := BuildPayload(task.Some?, parses);
      assert payload == expected;
      sent, closed := Settle(payload, reply);
      assert CurrentFields() == fields;
    }
  }
}
