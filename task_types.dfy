/** The unified task model shared by every provider adapter (src/types/task.ts). */
module TaskTypes {
  import opened Wrappers

  /** A point in time, in milliseconds since the Unix epoch (a JavaScript `Date`). */
  type Instant = int

  /** The task-management services an adapter can stand for. */
  datatype TaskProvider = Google | Cozi | Todoist | MicrosoftTodo | AppleReminders

  /** Task completion status: exactly one of three. */
  datatype TaskStatus = Pending | Completed | Cancelled

  /** Normalized importance level: exactly one of four. */
  datatype TaskPriority = Low | Medium | High | Urgent

  /** A filter field that accepts either a single value or an array of values. */
  datatype OneOrMany<T> = One(value: T) | Many(values: seq<T>)
  {
    /** The values the filter accepts; a single value acts as a one-element set. */
    function Members(): seq<T>
    {
      match this
      case One(v) => [v]
      case Many(vs) => vs
    }
  }

  /** A unit of work, as every adapter produces it. `providerMetadata` is an opaque
      passthrough and is not part of this model. */
  datatype Task = Task(
    id: string,
    provider: TaskProvider,
    listId: string,
    listName: string,
    title: string,
    description: Option<string>,
    status: TaskStatus,
    due: Option<Instant>,
    createdAt: Instant,
    updatedAt: Instant,
    completedAt: Option<Instant>,
    priority: Option<TaskPriority>,
    tags: Option<seq<string>>,
    providerUrl: Option<string>)

  /** A named container of tasks, owned by the backend. */
  datatype TaskList = TaskList(
    id: string,
    provider: TaskProvider,
    name: string,
    description: Option<string>,
    color: Option<string>,
    taskCount: Option<int>,
    createdAt: Option<Instant>,
    updatedAt: Option<Instant>)

  /** A query specification; every field is optional. */
  datatype TaskFilters = TaskFilters(
    status: Option<OneOrMany<TaskStatus>>,
    priority: Option<OneOrMany<TaskPriority>>,
    dueAfter: Option<Instant>,
    dueBefore: Option<Instant>,
    tags: Option<seq<string>>,
    search: Option<string>,
    limit: Option<int>,
    offset: Option<int>)

  /** The filter with no field set. */
  const NoFilters := TaskFilters(None, None, None, None, None, None, None, None)

  /** A credential bundle, passed through to the adapter unexamined. */
  datatype ProviderAuth = ProviderAuth(
    provider: TaskProvider,
    accessToken: string,
    refreshToken: Option<string>,
    expiresAt: Option<Instant>,
    userId: Option<string>)

  /** The errors an operation can fail with: an unknown provider identifier, or a
      backend request that failed with the backend's message. */
  datatype ProviderError = ProviderNotFound(providerId: string) | RequestFailed(message: string)

  /** The outcome of an operation that may throw. */
  type Outcome<T> = Result<T, ProviderError>

  /** The tasks a fetch delivered, or none when it failed (`.catch(() => [])`). */
  function Recovered(o: Outcome<seq<Task>>): seq<Task>
  {
    if o.Ok? then o.value else []
  }

  /** The tasks each list contributes when every list is fetched by its id: the
      fetched tasks, or none for a list whose fetch failed. */
  function PerList(lists: seq<TaskList>, fetch: string -> Outcome<seq<Task>>): seq<seq<Task>>
  {
    seq(|lists|, i requires 0 <= i < |lists| => Recovered(fetch(lists[i].id)))
  }

  /** The string value of a provider tag. */
  function ProviderName(p: TaskProvider): (r: string)
    ensures r != ""
  {
    match p
    case Google => "google"
    case Cozi => "cozi"
    case Todoist => "todoist"
    case MicrosoftTodo => "microsoft-todo"
    case AppleReminders => "apple-reminders"
  }

  /** The provider tag whose string value is `s`, if any (the `as TaskProvider` cast
      of an incoming string, which only a registry lookup can reject). */
  function ProviderFromName(s: string): (r: Option<TaskProvider>)
  {
    if s == "google" then Some(Google)
    else if s == "cozi" then Some(Cozi)
    else if s == "todoist" then Some(Todoist)
    else if s == "microsoft-todo" then Some(MicrosoftTodo)
    else if s == "apple-reminders" then Some(AppleReminders)
    else None
  }

  /** Decoding the name of a provider gives that provider back. */
  lemma ProviderNameRoundTrip(p: TaskProvider)
    ensures ProviderFromName(ProviderName(p)) == Some(p)
  {
    match p
    case Google =>
    case Cozi =>
    case Todoist =>
    case MicrosoftTodo =>
    case AppleReminders =>
  }

  /** A string is accepted as a provider only if it is that provider's exact name. */
  lemma ProviderFromNameExact(s: string)
    ensures ProviderFromName(s).Some? ==> ProviderName(ProviderFromName(s).value) == s
  {
  }
}
