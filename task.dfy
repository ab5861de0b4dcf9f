/** The task record (server/models/Task.js): a status and a priority drawn from
    fixed enumerations with defaults, at most one owner, and a list of users
    the task is shared with. Creating a task from submitted fields applies the
    defaults and rejects enumeration values outside the lists. */
module TaskModel {
  import opened Wrappers

  type UserRef = string

  datatype Status = Pending | InProgress | Completed
  datatype Priority = Low | Medium | High

  const DefaultStatus: Status := Pending
  const DefaultPriority: Priority := Medium

  function StatusName(s: Status): string {
    match s
    case Pending => "pending"
    case InProgress => "in-progress"
    case Completed => "completed"
  }

  function PriorityName(p: Priority): string {
    match p
    case Low => "low"
    case Medium => "medium"
    case High => "high"
  }

  /** The `enum` validator on `status`: exactly the three listed names pass. */
  function ParseStatus(name: string): (r: Option<Status>)
    ensures r.Some? <==> name in {"pending", "in-progress", "completed"}
    ensures r.Some? ==> StatusName(r.value) == name
  {
    if name == "pending" then Some(Pending)
    else if name == "in-progress" then Some(InProgress)
    else if name == "completed" then Some(Completed)
    else None
  }

  /** The `enum` validator on `priority`. */
  function ParsePriority(name: string): (r: Option<Priority>)
    ensures r.Some? <==> name in {"low", "medium", "high"}
    ensures r.Some? ==> PriorityName(r.value) == name
  {
    if name == "low" then Some(Low)
    else if name == "medium" then Some(Medium)
    else if name == "high" then Some(High)
    else None
  }

  lemma StatusNameRoundTrip(s: Status)
    ensures ParseStatus(StatusName(s)) == Some(s)
  {
  }

  lemma PriorityNameRoundTrip(p: Priority)
    ensures ParsePriority(PriorityName(p)) == Some(p)
  {
  }

  /** A stored task. `dueDate` is a timestamp; the `timestamps` bookkeeping is
      not part of this model. */
  datatype Task = Task(
    title: Option<string>,
    description: Option<string>,
    status: Status,
    priority: Priority,
    dueDate: Option<int>,
    createdBy: Option<UserRef>,
    sharedWith: seq<UserRef>)

  /** The fields of a document as submitted, before defaults and validation. */
  datatype TaskInput = TaskInput(
    title: Option<string>,
    description: Option<string>,
    status: Option<string>,
    priority: Option<string>,
    dueDate: Option<int>,
    createdBy: Option<UserRef>,
    sharedWith: Option<seq<UserRef>>)

  /** The path whose value failed the enumeration check, and the value. */
  datatype ValidationError = InvalidEnum(path: string, value: string)

  /** Building a task: an absent status becomes "pending", an absent priority
      "medium", an absent share list the empty list; a status or priority
      outside its list is rejected; every other field is kept as given. */
  function NewTask(input: TaskInput): (r: Result<Task, ValidationError>)
    ensures r.Err? <==>
      || (input.status.Some? && ParseStatus(input.status.value).None?)
      || (input.priority.Some? && ParsePriority(input.priority.value).None?)
    ensures input.status.Some? && ParseStatus(input.status.value).None? ==>
      r == Err(InvalidEnum("status", input.status.value))
    ensures !(input.status.Some? && ParseStatus(input.status.value).None?) &&
            input.priority.Some? && ParsePriority(input.priority.value).None? ==>
      r == Err(InvalidEnum("priority", input.priority.value))
    ensures r.Ok? ==>
      && r.value.status == (if input.status.None? then DefaultStatus else ParseStatus(input.status.value).value)
      && r.value.priority == (if input.priority.None? then DefaultPriority else ParsePriority(input.priority.value).value)
      && r.value.sharedWith == (if input.sharedWith.None? then [] else input.sharedWith.value)
      && r.value.createdBy == input.createdBy
      && r.value.title == input.title && r.value.description == input.description
      && r.value.dueDate == input.dueDate
  {
    var status :=
      if input.status.None? then Some(DefaultStatus) else ParseStatus(input.status.value);
    var priority :=
      if input.priority.None? then Some(DefaultPriority) else ParsePriority(input.priority.value);
    if status.None? then Err(InvalidEnum("status", input.status.value))
    else if priority.None? then Err(InvalidEnum("priority", input.priority.value))
    else
      Ok(Task(input.title, input.description, status.value, priority.value, input.dueDate,
              input.createdBy, if input.sharedWith.None? then [] else input.sharedWith.value))
  }

  /** A stored task keeps the status and priority it was submitted with: each
      prints as the submitted name, or as the default's name when none was
      given. */
  lemma NewTaskKeepsNames(input: TaskInput)
    requires NewTask(input).Ok?
    ensures input.status.Some? ==> StatusName(NewTask(input).value.status) == input.status.value
    ensures input.status.None? ==> StatusName(NewTask(input).value.status) == "pending"
    ensures input.priority.Some? ==> PriorityName(NewTask(input).value.priority) == input.priority.value
    ensures input.priority.None? ==> PriorityName(NewTask(input).value.priority) == "medium"
  {
  }

  /** Leaving status and priority out gives a pending, medium-priority task. */
  lemma NewTaskDefaults(input: TaskInput)
    requires input.status.None? && input.priority.None?
    ensures NewTask(input).Ok?
    ensures NewTask(input).value.status == Pending && NewTask(input).value.priority == Medium
  {
  }

  predicate IsOwner(t: Task, u: UserRef) {
    t.createdBy == Some(u)
  }

  predicate IsSharedWith(t: Task, u: UserRef) {
    u in t.sharedWith
  }

  /** The users a change to `t` concerns: its owner, if any, and everyone it
      is shared with. */
  function Audience(t: Task): (r: set<UserRef>)
    ensures forall u :: u in r <==> IsOwner(t, u) || IsSharedWith(t, u)
    ensures |r| <= 1 + |t.sharedWith|
  {
    SharedSet(t.sharedWith) + (if t.createdBy.Some? then {t.createdBy.value} else {})
  }

  function SharedSet(shared: seq<UserRef>): (r: set<UserRef>)
    ensures forall u :: u in r <==> u in shared
    ensures |r| <= |shared|
  {
    if shared == [] then {} else {shared[0]} + SharedSet(shared[1..])
  }

  /** A task has at most one owner. */
  lemma OwnerUnique(t: Task, u: UserRef, v: UserRef)
    requires IsOwner(t, u) && IsOwner(t, v)
    ensures u == v
  {
  }
}
