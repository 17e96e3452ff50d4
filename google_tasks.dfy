/** The Google Tasks adapter (src/providers/google.ts): how backend records become
    unified tasks and lists, which requests each operation sends, and how search
    merges the lists. Each network reply is a parameter: an `Outcome` for a call
    whose arguments are fixed, or a function of the request for a call whose
    arguments the adapter builds. Dates arrive already decoded to `Instant`s. */
module GoogleTasks {
  import opened Wrappers
  import opened Seqs
  import opened Text
  import opened TaskTypes
  import opened ProviderBase

  // ---------------------------------------------------------------------------
  // Backend records and requests.

  /** A task as the backend returns it. `id` and `updated` are always set. */
  datatype GoogleTask = GoogleTask(
    id: string,
    title: Option<string>,
    notes: Option<string>,
    status: Option<string>,
    due: Option<Instant>,
    updated: Instant,
    completed: Option<Instant>,
    selfLink: Option<string>)

  /** A task list as the backend returns it. */
  datatype GoogleTaskList = GoogleTaskList(id: string, title: Option<string>, updated: Option<Instant>)

  /** The parameters of a `tasks.list` request. */
  datatype ListParams = ListParams(
    tasklist: string,
    showCompleted: bool,
    showDeleted: bool,
    showHidden: bool,
    dueMax: Option<Instant>,
    dueMin: Option<Instant>,
    maxResults: Option<int>)

  /** The body of a `tasks.insert` request. */
  datatype InsertBody = InsertBody(title: string, notes: Option<string>, due: Option<Instant>)

  /** The body of a `tasks.patch` request. In `due` and `completed`, `Some(None)`
      is an explicit `null` that clears the field and `None` leaves it out. */
  datatype GooglePatch = GooglePatch(
    title: Option<string>,
    notes: Option<string>,
    due: Option<Option<Instant>>,
    status: Option<string>,
    completed: Option<Option<Instant>>)

  /** The fields of a `Partial<Task>` that `createTask` reads. */
  datatype TaskDraft = TaskDraft(title: Option<string>, description: Option<string>, due: Option<Instant>)

  /** The fields of a `Partial<Task>` that `updateTask` reads. In `due`, `Some(None)`
      is a falsy value that asks for the due date to be cleared. */
  datatype TaskUpdate = TaskUpdate(
    title: Option<string>,
    description: Option<string>,
    due: Option<Option<Instant>>,
    status: Option<TaskStatus>)

  /** A JavaScript string that is present and not empty. */
  predicate Truthy(s: Option<string>)
  {
    s.Some? && s.value != ""
  }

  /** `s || fallback` on an optional string. */
  function OrElse(s: Option<string>, fallback: string): string
  {
    if Truthy(s) then s.value else fallback
  }

  /** `s || undefined` on an optional string: the empty string becomes absent. */
  function NonEmpty(s: Option<string>): Option<string>
  {
    if Truthy(s) then s else None
  }

  // ---------------------------------------------------------------------------
  // The adapter's identity.

  const GoogleCapabilities := ProviderCapabilities(
    priorities := false, tags := false, descriptions := true,
    dueDates := true, subtasks := false, search := false)

  /** A new Google Tasks adapter: identifier `google`, display name "Google Tasks",
      supporting descriptions and due dates only. */
  method NewGoogleProvider() returns (p: ProviderAdapter)
    ensures p.id == Google && p.name == "Google Tasks"
    ensures p.capabilities.descriptions && p.capabilities.dueDates
    ensures !p.capabilities.priorities && !p.capabilities.tags
    ensures !p.capabilities.subtasks && !p.capabilities.search
  {
    p := new ProviderAdapter(Google, "Google Tasks", GoogleCapabilities);
  }

  // ---------------------------------------------------------------------------
  // From backend records to the unified model.

  /** What every task this adapter produces looks like: the Google tag, never
      cancelled, a non-empty title, no priority, no tags, a creation time equal to
      the update time, and no empty description or link. */
  predicate GoogleShaped(t: Task)
  {
    && t.provider == Google
    && t.status != Cancelled
    && t.title != ""
    && t.priority.None?
    && t.tags.None?
    && t.createdAt == t.updatedAt
    && (t.description.Some? ==> t.description.value != "")
    && (t.providerUrl.Some? ==> t.providerUrl.value != "")
  }

  /** `transformTask`: a backend task in the unified model. */
  function TransformTask(g: GoogleTask, listId: string, listName: string): (r: Task)
    ensures GoogleShaped(r)
    ensures r.id == g.id && r.listId == listId && r.listName == listName
    ensures r.status == Completed <==> g.status == Some("completed")
    ensures Truthy(g.title) ==> r.title == g.title.value
    ensures !Truthy(g.title) ==> r.title == "Untitled Task"
    ensures r.description.Some? <==> Truthy(g.notes)
    ensures r.description.Some? ==> r.description == g.notes
    ensures r.due == g.due && r.completedAt == g.completed
    ensures r.updatedAt == g.updated
    ensures r.providerUrl.Some? <==> Truthy(g.selfLink)
    ensures r.providerUrl.Some? ==> r.providerUrl == g.selfLink
  {
    Task(
      id := g.id,
      provider := Google,
      listId := listId,
      listName := listName,
      title := OrElse(g.title, "Untitled Task"),
      description := NonEmpty(g.notes),
      status := if g.status == Some("completed") then Completed else Pending,
      due := g.due,
      createdAt := g.updated,
      updatedAt := g.updated,
      completedAt := g.completed,
      priority := None,
      tags := None,
      providerUrl := NonEmpty(g.selfLink))
  }

  /** Every backend task of a list, transformed, in backend order. */
  function TransformTasks(gs: seq<GoogleTask>, listId: string, listName: string): (r: seq<Task>)
    ensures |r| == |gs|
    ensures forall i :: 0 <= i < |gs| ==> r[i] == TransformTask(gs[i], listId, listName)
    decreases |gs|
  {
    if gs == [] then [] else [TransformTask(gs[0], listId, listName)] + TransformTasks(gs[1..], listId, listName)
  }

  /** `transformTaskList`: a backend list in the unified model. */
  function TransformTaskList(g: GoogleTaskList): (r: TaskList)
    ensures r.id == g.id && r.provider == Google
    ensures r.name != ""
    ensures Truthy(g.title) ==> r.name == g.title.value
    ensures !Truthy(g.title) ==> r.name == "Untitled List"
    ensures r.updatedAt == g.updated
    ensures r.description.None? && r.color.None? && r.taskCount.None? && r.createdAt.None?
  {
    TaskList(g.id, Google, OrElse(g.title, "Untitled List"), None, None, None, None, g.updated)
  }

  /** The name `getTasks`, `createTask` and `updateTask` give a list: its title, or
      "Unknown List". */
  function ListName(title: Option<string>): (r: string)
    ensures r != ""
    ensures Truthy(title) ==> r == title.value
    ensures !Truthy(title) ==> r == "Unknown List"
  {
    OrElse(title, "Unknown List")
  }

  /** `getTaskLists`: the lists the backend reports (none when its reply has no
      items), or the backend's error. */
  function GetTaskLists(reply: Outcome<Option<seq<GoogleTaskList>>>): (r: Outcome<seq<TaskList>>)
    ensures r.Err? <==> reply.Err?
    ensures r.Err? ==> r.error == reply.error
    ensures r.Ok? && reply.value.None? ==> r.value == []
    ensures r.Ok? && reply.value.Some? ==>
              |r.value| == |reply.value.value|
              && forall i :: 0 <= i < |r.value| ==> r.value[i] == TransformTaskList(reply.value.value[i])
  {
    match reply
    case Err(e) => Err(e)
    case Ok(None) => Ok([])
    case Ok(Some(items)) => Ok(seq(|items|, i requires 0 <= i < |items| => TransformTaskList(items[i])))
  }

  // ---------------------------------------------------------------------------
  // getTasks.

  /** The `tasks.list` request `getTasks` sends: completed tasks are hidden exactly
      when the status filter is the single value pending, deleted and hidden tasks
      never shown, the due bounds passed on, and a non-zero limit capped at 100. */
  ghost predicate IsListRequest(listId: string, filters: Option<TaskFilters>, p: ListParams)
  {
    && p.tasklist == listId
    && (p.showCompleted <==> !(filters.Some? && filters.value.status == Some(One(Pending))))
    && !p.showDeleted && !p.showHidden
    && p.dueMax == (if filters.Some? then filters.value.dueBefore else None)
    && p.dueMin == (if filters.Some? then filters.value.dueAfter else None)
    && (if filters.Some? && filters.value.limit.Some? && filters.value.limit.value != 0
        then p.maxResults == Some(if filters.value.limit.value < 100 then filters.value.limit.value else 100)
        else p.maxResults.None?)
  }

  /** `getTasks`: looks up the list's title, sends one `tasks.list` request, and
      returns the transformed tasks, narrowed by `applyFilters` when filters were
      given. `sent` is the request, absent when the title lookup failed first. */
  method GetTasks(
    listId: string,
    filters: Option<TaskFilters>,
    listTitle: Outcome<Option<string>>,
    listTasks: ListParams -> Outcome<Option<seq<GoogleTask>>>)
    returns (sent: Option<ListParams>, r: Outcome<seq<Task>>)
    ensures listTitle.Err? ==> sent.None? && r == Err(listTitle.error)
    ensures listTitle.Ok? ==> sent.Some? && IsListRequest(listId, filters, sent.value)
    ensures listTitle.Ok? && listTasks(sent.value).Err? ==> r == Err(listTasks(sent.value).error)
    ensures listTitle.Ok? && listTasks(sent.value).Ok? ==>
              var items := if listTasks(sent.value).value.Some? then listTasks(sent.value).value.value else [];
              var tasks := TransformTasks(items, listId, ListName(listTitle.value));
              r == Ok(if filters.Some? then ApplyFilters(tasks, filters.value) else tasks)
  {
    if listTitle.Err? {
      return None, Err(listTitle.error);
    }
    var listName := ListName(listTitle.value);
    var params := ListParams(
      tasklist := listId,
      showCompleted := !(filters.Some? && filters.value.status == Some(One(Pending))),
      showDeleted := false,
      showHidden := false,
      dueMax := None,
      dueMin := None,
      maxResults := None);
    if filters.Some? && filters.value.dueBefore.Some? {
      params := params.(dueMax := filters.value.dueBefore);
    }
    if filters.Some? && filters.value.dueAfter.Some? {
      params := params.(dueMin := filters.value.dueAfter);
    }
    if filters.Some? && filters.value.limit.Some? && filters.value.limit.value != 0 {
      var limit := filters.value.limit.value;
      params := params.(maxResults := Some(if limit < 100 then limit else 100));
    }
    sent := Some(params);
    var reply := listTasks(params);
    if reply.Err? {
      return sent, Err(reply.error);
    }
    if reply.value.None? {
      return sent, Ok([]);
    }
    var tasks := TransformTasks(reply.value.value, listId, listName);
    if filters.Some? {
      tasks := ApplyFilters(tasks, filters.value);
    }
    r := Ok(tasks);
  }

  /** The page size asked of the backend never exceeds 100, and with a positive
      limit it never exceeds the limit. */
  lemma ListRequestBounded(listId: string, filters: Option<TaskFilters>, p: ListParams)
    requires IsListRequest(listId, filters, p) && p.maxResults.Some?
    ensures p.maxResults.value <= 100
    ensures filters.value.limit.value > 0 ==> 0 < p.maxResults.value <= filters.value.limit.value
  {
  }

  /** The backend's due bounds are the filter's own: a task the client-side filter
      keeps lies within the bounds sent. */
  lemma ListRequestDueBounds(listId: string, f: TaskFilters, p: ListParams, tasks: seq<Task>)
    requires IsListRequest(listId, Some(f), p)
    ensures forall t :: t in ApplyFilters(tasks, f) ==>
              && (p.dueMin.Some? ==> t.due.Some? && p.dueMin.value <= t.due.value)
              && (p.dueMax.Some? ==> t.due.Some? && t.due.value <= p.dueMax.value)
  {
    forall t | t in ApplyFilters(tasks, f) {
      ApplyFiltersSound(tasks, f, t);
    }
  }


  /** A backend task the `showCompleted = false` request leaves out. */
  predicate NotCompleted(g: GoogleTask)
  {
    g.status != Some("completed")
  }

  /** Asking the backend to hide completed tasks loses nothing: when the status
      filter is exactly pending, the tasks selected from the backend's reduced reply
      are those selected from the full list. */
  lemma {:induction false} HidingCompletedLosesNothing(all: seq<GoogleTask>, listId: string, listName: string, f: TaskFilters)
    requires f.status == Some(One(Pending))
    ensures Selected(TransformTasks(Keep(all, NotCompleted), listId, listName), f)
            == Selected(TransformTasks(all, listId, listName), f)
    decreases |all|
  {
    if all != [] {
      HidingCompletedLosesNothing(all[1..], listId, listName, f);
      var head := TransformTask(all[0], listId, listName);
      var visible := Keep(all[1..], NotCompleted);
      assert TransformTasks(all, listId, listName) == [head] + TransformTasks(all[1..], listId, listName);
      KeepAppend([head], TransformTasks(all[1..], listId, listName), MatchesAll(f));
      if NotCompleted(all[0]) {
        assert Keep(all, NotCompleted) == [all[0]] + visible;
        assert TransformTasks([all[0]] + visible, listId, listName)
               == [head] + TransformTasks(visible, listId, listName);
        KeepAppend([head], TransformTasks(visible, listId, listName), MatchesAll(f));
      } else {
        assert Keep(all, NotCompleted) == visible;
        assert !MatchesAll(f)(head);
        assert Keep([head], MatchesAll(f)) == Keep([head][1..], MatchesAll(f));
      }
    }
  }

  /** The same for the whole client-side pipeline, pagination included. */
  lemma HidingCompletedIsSafe(all: seq<GoogleTask>, listId: string, listName: string, f: TaskFilters)
    requires f.status == Some(One(Pending))
    ensures ApplyFilters(TransformTasks(Keep(all, NotCompleted), listId, listName), f)
            == ApplyFilters(TransformTasks(all, listId, listName), f)
  {
    HidingCompletedLosesNothing(all, listId, listName, f);
    ApplyFiltersIsPagedSelection(TransformTasks(Keep(all, NotCompleted), listId, listName), f);
    ApplyFiltersIsPagedSelection(TransformTasks(all, listId, listName), f);
  }

  /** Filters on what this adapter cannot store select nothing: a priority filter, a
      non-empty tag filter, or a status filter asking only for cancelled tasks. */
  lemma UnsupportedFiltersSelectNothing(tasks: seq<Task>, f: TaskFilters)
    requires forall i :: 0 <= i < |tasks| ==> GoogleShaped(tasks[i])
    requires || f.priority.Some?
             || TagsActive(f)
             || (f.status.Some? && forall s :: s in f.status.value.Members() ==> s == Cancelled)
    ensures ApplyFilters(tasks, f) == []
  {
    KeepNone(tasks, MatchesAll(f));
    ApplyFiltersIsPagedSelection(tasks, f);
  }

  // ---------------------------------------------------------------------------
  // createTask and updateTask.

  /** The adapter's answer once the backend replied with a task: that task in the
      unified model, named after the list's title. A failed request fails first,
      then a failed title lookup. */
  function TaskFromReply(listId: string, reply: Outcome<GoogleTask>, listTitle: Outcome<Option<string>>): (r: Outcome<Task>)
    ensures r.Ok? <==> reply.Ok? && listTitle.Ok?
    ensures reply.Err? ==> r == Err(reply.error)
    ensures reply.Ok? && listTitle.Err? ==> r == Err(listTitle.error)
    ensures r.Ok? ==> r.value == TransformTask(reply.value, listId, ListName(listTitle.value))
  {
    if reply.Err? then Err(reply.error)
    else if listTitle.Err? then Err(listTitle.error)
    else Ok(TransformTask(reply.value, listId, ListName(listTitle.value)))
  }

  /** The `tasks.insert` body `createTask` sends: the title, or "New Task" when it is
      missing or empty; the description as notes only when it is non-empty; the due
      date when given. */
  ghost predicate IsInsertRequest(draft: TaskDraft, b: InsertBody)
  {
    && b.title == OrElse(draft.title, "New Task")
    && b.notes == NonEmpty(draft.description)
    && b.due == draft.due
  }

  /** `createTask`: sends one insert and answers with the task the backend created. */
  method CreateTask(
    listId: string,
    draft: TaskDraft,
    insert: InsertBody -> Outcome<GoogleTask>,
    listTitle: Outcome<Option<string>>)
    returns (sent: InsertBody, r: Outcome<Task>)
    ensures IsInsertRequest(draft, sent)
    ensures r == TaskFromReply(listId, insert(sent), listTitle)
  {
    var title := if Truthy(draft.title) then draft.title.value else "New Task";
    sent := InsertBody(title, None, None);
    if Truthy(draft.description) {
      sent := sent.(notes := draft.description);
    }
    if draft.due.Some? {
      sent := sent.(due := draft.due);
    }
    var reply := insert(sent);
    r := TaskFromReply(listId, reply, listTitle);
  }

  /** The `tasks.patch` body `transformUpdates` builds at time `now`: title, notes
      and due only when given (a falsy due as `null`); completing sets status
      "completed" and the completion time `now`; reopening sets "needsAction" and
      clears the completion time; any other status sends neither. */
  ghost predicate IsPatchFor(u: TaskUpdate, now: Instant, p: GooglePatch)
  {
    && p.title == u.title
    && p.notes == u.description
    && p.due == u.due
    && (u.status == Some(Completed) ==> p.status == Some("completed") && p.completed == Some(Some(now)))
    && (u.status == Some(Pending) ==> p.status == Some("needsAction") && p.completed == Some(None))
    && (u.status.None? || u.status == Some(Cancelled) ==> p.status.None? && p.completed.None?)
  }

  /** `transformUpdates`. */
  method TransformUpdates(u: TaskUpdate, now: Instant) returns (p: GooglePatch)
    ensures IsPatchFor(u, now, p)
  {
    p := GooglePatch(None, None, None, None, None);
    if u.title.Some? {
      p := p.(title := u.title);
    }
    if u.description.Some? {
      p := p.(notes := u.description);
    }
    if u.due.Some? {
      p := p.(due := Some(if u.due.value.Some? then u.due.value else None));
    }
    if u.status == Some(Completed) {
      p := p.(status := Some("completed"), completed := Some(Some(now)));
    } else if u.status == Some(Pending) {
      p := p.(status := Some("needsAction"), completed := Some(None));
    }
  }

  /** `updateTask`: sends one patch built by `transformUpdates` and answers with the
      task the backend returns. */
  method UpdateTask(
    listId: string,
    u: TaskUpdate,
    now: Instant,
    patch: GooglePatch -> Outcome<GoogleTask>,
    listTitle: Outcome<Option<string>>)
    returns (sent: GooglePatch, r: Outcome<Task>)
    ensures IsPatchFor(u, now, sent)
    ensures r == TaskFromReply(listId, patch(sent), listTitle)
  {
    sent := TransformUpdates(u, now);
    var reply := patch(sent);
    r := TaskFromReply(listId, reply, listTitle);
  }

  // ---------------------------------------------------------------------------
  // Round trips, against the documented behaviour of the backend: an insert stores
  // the fields sent on a new uncompleted task, a patch overwrites exactly the fields
  // it carries.

  /** The record the backend creates for an insert, with its new id and time stamp. */
  function Inserted(b: InsertBody, id: string, stamp: Instant): (g: GoogleTask)
    ensures g.title == Some(b.title) && g.notes == b.notes && g.due == b.due
    ensures g.status == Some("needsAction") && g.completed.None?
  {
    GoogleTask(id, Some(b.title), b.notes, Some("needsAction"), b.due, stamp, None, None)
  }

  /** The record after the backend applies a patch. */
  function Patched(g: GoogleTask, p: GooglePatch): (r: GoogleTask)
    ensures r.id == g.id && r.selfLink == g.selfLink
    ensures p.title.None? ==> r.title == g.title
    ensures p.title.Some? ==> r.title == p.title
    ensures p.notes.None? ==> r.notes == g.notes
    ensures p.notes.Some? ==> r.notes == p.notes
    ensures p.due.None? ==> r.due == g.due
    ensures p.due.Some? ==> r.due == p.due.value
    ensures p.status.None? ==> r.status == g.status
    ensures p.status.Some? ==> r.status == p.status
    ensures p.completed.None? ==> r.completed == g.completed
    ensures p.completed.Some? ==> r.completed == p.completed.value
  {
    g.(title := if p.title.Some? then p.title else g.title,
       notes := if p.notes.Some? then p.notes else g.notes,
       due := if p.due.Some? then p.due.value else g.due,
       status := if p.status.Some? then p.status else g.status,
       completed := if p.completed.Some? then p.completed.value else g.completed)
  }

  /** Creating a task and reading back what the backend stored gives the title asked
      for (or "New Task"), the description asked for when non-empty, the due date
      asked for, and a pending task that was never completed. */
  lemma CreateRoundTrip(draft: TaskDraft, sent: InsertBody, id: string, stamp: Instant, listId: string, listName: string)
    requires IsInsertRequest(draft, sent)
    ensures var t := TransformTask(Inserted(sent, id, stamp), listId, listName);
            && t.title == (if Truthy(draft.title) then draft.title.value else "New Task")
            && t.description == NonEmpty(draft.description)
            && t.due == draft.due
            && t.status == Pending && t.completedAt.None?
  {
  }

  /** A task created in a list is among the tasks a later unfiltered `getTasks` of
      that list returns, with the title and due date it was created with. */
  lemma CreatedTaskIsListed(draft: TaskDraft, sent: InsertBody, id: string, stamp: Instant, items: seq<GoogleTask>, listId: string, listName: string)
    requires IsInsertRequest(draft, sent) && Inserted(sent, id, stamp) in items
    ensures exists t :: t in TransformTasks(items, listId, listName)
              && t.id == id && t.title == OrElse(draft.title, "New Task")
              && t.due == draft.due && t.status == Pending
  {
    var i :| 0 <= i < |items| && items[i] == Inserted(sent, id, stamp);
    assert TransformTasks(items, listId, listName)[i] == TransformTask(items[i], listId, listName);
  }

  /** Updating a task and reading back the patched record: completing records `now`
      as the completion time, reopening clears it, asking for cancelled changes
      nothing (the backend has no such state), a falsy due clears the due date, and
      every field not mentioned keeps its value. */
  lemma UpdateRoundTrip(g: GoogleTask, u: TaskUpdate, now: Instant, p: GooglePatch, listId: string, listName: string)
    requires IsPatchFor(u, now, p)
    ensures var before := TransformTask(g, listId, listName);
            var after := TransformTask(Patched(g, p), listId, listName);
            && after.id == before.id
            && (u.status == Some(Completed) ==> after.status == Completed && after.completedAt == Some(now))
            && (u.status == Some(Pending) ==> after.status == Pending && after.completedAt.None?)
            && (u.status.None? || u.status == Some(Cancelled) ==>
                  after.status == before.status && after.completedAt == before.completedAt)
            && (u.due.Some? ==> after.due == u.due.value)
            && (u.due.None? ==> after.due == before.due)
            && (u.title.Some? ==> after.title == OrElse(u.title, "Untitled Task"))
            && (u.title.None? ==> after.title == before.title)
            && (u.description.Some? ==> after.description == NonEmpty(u.description))
            && (u.description.None? ==> after.description == before.description)
  {
  }

  // ---------------------------------------------------------------------------
  // searchTasks.

  /** `searchTasks`: the tasks of every list, in list order, whose lower-cased title
      or description contains the lower-cased query. `fetch` gives the outcome of
      `getTasks` for each list identifier; a failing list contributes nothing, and
      only a failure to read the lists fails the search. */
  function SearchTasks(lists: Outcome<seq<TaskList>>, fetch: string -> Outcome<seq<Task>>, query: string): (r: Outcome<seq<Task>>)
    ensures lists.Err? ==> r == Err(lists.error)
    ensures lists.Ok? ==> r.Ok? && |r.value| <= |Flatten(PerList(lists.value, fetch))|
  {
    match lists
    case Err(e) => Err(e)
    case Ok(ls) => Ok(Keep(Flatten(PerList(ls, fetch)), MentionsText(Lower(query))))
  }

  /** A task is found exactly when some list's fetch succeeded with it and its title
      or description mentions the query. */
  lemma SearchTasksMember(ls: seq<TaskList>, fetch: string -> Outcome<seq<Task>>, query: string, t: Task)
    ensures t in SearchTasks(Ok(ls), fetch, query).value
            <==> (exists i :: 0 <= i < |ls| && fetch(ls[i].id).Ok? && t in fetch(ls[i].id).value)
                 && MatchesText(t, Lower(query))
  {
    var parts := PerList(ls, fetch);
    KeepMember(Flatten(parts), MentionsText(Lower(query)), t);
    FlattenMember(parts, t);
    if exists i :: 0 <= i < |ls| && fetch(ls[i].id).Ok? && t in fetch(ls[i].id).value {
      var i :| 0 <= i < |ls| && fetch(ls[i].id).Ok? && t in fetch(ls[i].id).value;
      assert t in parts[i];
    }
  }

  /** The search never reorders: its result is a subsequence of the concatenated
      lists. */
  lemma SearchTasksOrder(ls: seq<TaskList>, fetch: string -> Outcome<seq<Task>>, query: string)
    ensures IsSubsequence(SearchTasks(Ok(ls), fetch, query).value, Flatten(PerList(ls, fetch)))
  {
    KeepIsSubsequence(Flatten(PerList(ls, fetch)), MentionsText(Lower(query)));
  }

  /** The empty query matches every task, so the search returns all of them. */
  lemma SearchTasksEmptyQuery(ls: seq<TaskList>, fetch: string -> Outcome<seq<Task>>)
    ensures SearchTasks(Ok(ls), fetch, "") == Ok(Flatten(PerList(ls, fetch)))
  {
    var all := Flatten(PerList(ls, fetch));
    forall i | 0 <= i < |all|
      ensures MentionsText(Lower(""))(all[i])
    {
      assert [] <= Lower(all[i].title);
    }
    KeepAll(all, MentionsText(Lower("")));
  }
}
