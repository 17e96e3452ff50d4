# tasks-mcp-server core, modelled in Dafny

tasks-mcp-server puts several task-management services behind one set of tools. It
does this through a unified task model, a provider-adapter base class with a
client-side filter pipeline, a registry of adapters, a Google Tasks adapter, and a
`syncAllTasks` tool that merges tasks from several providers. This project models that
core and proves what it promises.

The files are:

- `task_types.dfy` (module `TaskTypes`). The unified records of `src/types/task.ts`
  become datatypes: `Task`, `TaskList`, `TaskFilters` and `ProviderAuth`. The enums
  become datatypes too: `TaskProvider`, `TaskStatus` and `TaskPriority`. A status is
  therefore exactly one of three values and a priority exactly one of four. The
  `T | T[]` filter fields become `OneOrMany`. Optional fields are `Option`, and dates
  are integer milliseconds (`Instant`).
- `provider_base.dfy` (module `ProviderBase`). This is `BaseTaskProvider` with its
  capability flags, and `applyFilters` as the source writes it: six filter stages,
  then `offset`, then `limit`. Beside it sits an independent reference definition:
  one selection by the conjunction of six tests (`Matches`). The lemmas prove that the
  two agree, and they prove every promise of the pipeline against the reference
  definition.
- `registry.dfy` (module `Registry`). `ProviderRegistry` is a class. It has a `providers` map, plus the
  insertion order that a JavaScript `Map` keeps. `Register` updates them in place.
- `google_tasks.dfy` (module `GoogleTasks`). It holds the translations
  `transformTask`, `transformTaskList` and `transformUpdates`. It also holds the
  requests that `getTasks`, `createTask` and `updateTask` build field by field; these
  are methods, and each returns the request it sent. The `searchTasks` merge is here
  too. Every backend reply is a parameter: an `Outcome` value, or a function of the
  request sent. The round-trip lemmas read back what the backend stores.
- `sync_all.dfy` (module `SyncAll`). This is the nested loop of `handleSyncAllTasks`.
  It is proved against a declarative definition: the gathered tasks are the
  concatenation of each configuration's successful list fetches, and
  `byProvider` is given by a count function. Lemmas characterise that function: its
  sum, its keys and each of its values.
- `wrappers.dfy`, `seqs.dfy` and `text.dfy` are helpers. They hold `Option`/`Result`,
  the order-preserving `Keep` (`Array.prototype.filter`), subsequences, `Flatten`
  (`flat`), ASCII lower-casing and `includes`.

A thrown exception is an `Err` of `ProviderError`. `ProviderNotFound` is the
registry's "Provider not found"; `RequestFailed` is a failed backend call.

## Model

| member | source | states |
|---|---|---|
| TaskTypes.ProviderName | src/types/task.ts:34-40 | each provider tag has a non-empty string value |
| TaskTypes.ProviderNameRoundTrip | src/types/task.ts:34-40 | reading back a provider's string value gives the same provider, so the five values are distinct |
| TaskTypes.ProviderFromNameExact | src/tools/syncAllTasks.ts:76 | a configured provider string names a provider only if it is exactly that provider's value |
| ProviderBase.ProviderAdapter.constructor | src/types/provider.ts:18-21 | an adapter carries a fixed identifier, display name and capability flags |
| ProviderBase.SkipOffset | src/types/provider.ts:122-124 | a positive offset drops that many tasks from the front (all of them if it exceeds the count); otherwise nothing changes; the result is always a suffix |
| ProviderBase.TakeLimit | src/types/provider.ts:125-127 | a positive limit keeps at most that many tasks from the front; otherwise nothing changes; the result is always a prefix |
| ProviderBase.ApplyFilters | src/types/provider.ts:82-130 | filtering never lengthens the task list |
| ProviderBase.ByStatusIsKeep | src/types/provider.ts:86-89 | the status stage keeps exactly the tasks whose status is one of the requested ones (a single value acts as a one-element set), and keeps all tasks when no status is given |
| ProviderBase.ByPriorityIsKeep | src/types/provider.ts:92-95 | the priority stage keeps exactly the tasks that have a priority among the requested ones |
| ProviderBase.ByDueAfterIsKeep | src/types/provider.ts:98-100 | the lower due bound keeps exactly the tasks due at or after it |
| ProviderBase.ByDueBeforeIsKeep | src/types/provider.ts:101-103 | the upper due bound keeps exactly the tasks due at or before it |
| ProviderBase.ByTagsIsKeep | src/types/provider.ts:106-110 | the tag stage keeps exactly the tasks sharing at least one tag with a non-empty tag filter |
| ProviderBase.BySearchIsKeep | src/types/provider.ts:113-119 | the search stage keeps exactly the tasks whose lower-cased title or non-empty description contains the lower-cased query |
| ProviderBase.FilteredIsSelected | src/types/provider.ts:83-119 | the six stages run in sequence select exactly the tasks that pass all six tests at once, in input order |
| ProviderBase.ApplyFiltersIsPagedSelection | src/types/provider.ts:82-130 | the result is that selection, cut by offset and then by limit |
| ProviderBase.ApplyFiltersIsSubsequence | src/types/provider.ts:82-130 | the result is a subsequence of the input: no task is invented or reordered |
| ProviderBase.ApplyFiltersSound | src/types/provider.ts:82-130 | every returned task comes from the input and passes every active filter |
| ProviderBase.ApplyFiltersComplete | src/types/provider.ts:82-119 | without offset or limit, a task is returned if and only if it is in the input and matches |
| ProviderBase.ApplyFiltersNoFilters | src/types/provider.ts:82-130 | with no filter field set, the output equals the input |
| ProviderBase.ApplyFiltersStatus | src/types/provider.ts:86-89 | every result has the requested status, or one of the requested statuses |
| ProviderBase.ApplyFiltersPriority | src/types/provider.ts:92-95 | tasks without a priority are excluded; every result has a requested priority |
| ProviderBase.ApplyFiltersDueRange | src/types/provider.ts:98-103 | the due range is inclusive at both ends, and tasks without a due date are dropped when either bound is set |
| ProviderBase.ApplyFiltersTags | src/types/provider.ts:106-110 | every result shares at least one tag with the tag filter |
| ProviderBase.ApplyFiltersEmptyTags | src/types/provider.ts:106 | an empty tag array is the same as no tag filter |
| ProviderBase.ApplyFiltersSearch | src/types/provider.ts:113-119 | every result's lower-cased title, or present lower-cased description, contains the lower-cased query |
| ProviderBase.ApplyFiltersEmptySearch | src/types/provider.ts:113 | an empty search string is the same as no search filter |
| ProviderBase.ApplyFiltersPagination | src/types/provider.ts:122-127 | the result is the selection from index offset on, truncated to limit; with a positive limit it holds at most limit tasks |
| ProviderBase.StageOrderExample | src/types/provider.ts:98-127 | of tasks due at 5, 15 and 25, the range 10 to 20 with limit 1 returns the task due at 15: pagination runs after the predicates |
| ProviderBase.TagsExample | src/types/provider.ts:106-110 | tags a and c meet the filter b, c but not the filter d |
| ProviderBase.SearchExample | src/types/provider.ts:113-119 | the title "Buy Milk" matches the query "milk" |
| Registry.DistinctCardinality | src/providers/registry.ts:8 | a sequence of identifiers without repeats is as long as its set of identifiers |
| Registry.AdaptersOf | src/providers/registry.ts:31-33 | the adapters named by a sequence of keys, one per key, in key order |
| Registry.KeysCardinality | src/providers/registry.ts:8 | a registration order without repeats that lists exactly the registered identifiers is as long as the map |
| Registry.AdaptersInOrder | src/providers/registry.ts:31-33 | listing the map's adapters in registration order gives each adapter stored under its own identifier, one per entry, covering every entry |
| Registry.ProviderRegistry.constructor | src/providers/registry.ts:8 | a new registry is empty |
| Registry.ProviderRegistry.Register | src/providers/registry.ts:13-15 | the adapter is stored under its own identifier, replacing an earlier adapter in place (order kept) or appending the identifier; `get` then returns it and every other lookup is unchanged |
| Registry.ProviderRegistry.Get | src/providers/registry.ts:20-26 | succeeds exactly for a registered identifier, with its adapter; otherwise fails with "Provider not found" for that identifier |
| Registry.ProviderRegistry.Has | src/providers/registry.ts:49-51 | true exactly when `get` succeeds |
| Registry.ProviderRegistry.GetAll | src/providers/registry.ts:31-33 | one adapter per registered identifier, in registration order, each the one `get` returns for its identifier; an identifier is listed exactly when `has` holds for it, and none twice |
| Registry.ProviderRegistry.GetAllInfo | src/providers/registry.ts:38-44 | as long as `getAll`, copying each adapter's id, name and capabilities; lists an identifier exactly when `has` holds for it |
| Registry.ProviderRegistry.GetCapabilities | src/providers/registry.ts:56-59 | the capabilities of the adapter `get` returns; fails exactly when `get` fails, with the same error |
| Registry.EmptyRegistryFindsNothing | src/providers/registry.ts:20-25 | in a registry where nothing was registered, every lookup fails with "Provider not found" |
| Registry.ReRegisterReplaces | src/providers/registry.ts:13-15 | registering two adapters with one identifier leaves exactly the later one |
| GoogleTasks.NewGoogleProvider | src/providers/google.ts:17-27 | the Google adapter is `google`, "Google Tasks", supporting descriptions and due dates only |
| GoogleTasks.TransformTask | src/providers/google.ts:260-286 | status completed exactly when the backend says "completed", else pending, never cancelled; provider Google; the given list id and name; an empty or missing title becomes "Untitled Task"; description and link present exactly when non-empty; due and completion copied; creation and update time both from `updated`; no priority, no tags |
| GoogleTasks.TransformTasks | src/providers/google.ts:112-114 | every backend task transformed, in backend order |
| GoogleTasks.TransformTaskList | src/providers/google.ts:291-298 | same id, provider Google, the title or "Untitled List", `updatedAt` only when `updated` is present, nothing else set |
| GoogleTasks.ListName | src/providers/google.ts:83 | the list's title, or "Unknown List" when it is missing or empty |
| GoogleTasks.GetTaskLists | src/providers/google.ts:54-68 | fails exactly when the backend call fails; no items gives no lists; otherwise one transformed list per item, in order |
| GoogleTasks.GetTasks | src/providers/google.ts:73-125 | a failed title lookup fails before any request; otherwise the request sent hides completed tasks exactly when the status filter is the single value pending, never shows deleted or hidden tasks, passes the due bounds on, and caps a non-zero limit at 100; the answer is the transformed reply, narrowed by the client-side filters when filters are given |
| GoogleTasks.ListRequestBounded | src/providers/google.ts:101-104 | the page size requested never exceeds 100, and with a positive limit lies between 1 and the limit |
| GoogleTasks.ListRequestDueBounds | src/providers/google.ts:93-99 | every task the client-side filters keep lies within the due bounds sent to the backend |
| GoogleTasks.HidingCompletedLosesNothing | src/providers/google.ts:88 | when the status filter is exactly pending, selecting from the backend's reply without completed tasks gives the same tasks as selecting from the full list |
| GoogleTasks.HidingCompletedIsSafe | src/providers/google.ts:88-119 | the same for the whole client-side pipeline, offset and limit included |
| GoogleTasks.UnsupportedFiltersSelectNothing | src/providers/google.ts:20-27 | over Google tasks, a priority filter, a non-empty tag filter, or a status filter whose every value is cancelled (single or array) returns nothing |
| GoogleTasks.TaskFromReply | src/providers/google.ts:150-159 | a failed request fails first, then a failed title lookup; otherwise the reply transformed with the list's name |
| GoogleTasks.CreateTask | src/providers/google.ts:130-163 | the insert sent carries the title or "New Task", the description as notes only when non-empty, and the due date when given; the answer is the backend's reply in the unified model |
| GoogleTasks.TransformUpdates | src/providers/google.ts:303-324 | title, notes and due are sent only when given (a falsy due as null); completing sends "completed" and the time `now`; reopening sends "needsAction" and clears the completion time; cancelled or no status sends no status fields |
| GoogleTasks.UpdateTask | src/providers/google.ts:168-194 | sends the patch `transformUpdates` builds; the answer is the backend's reply in the unified model |
| GoogleTasks.Inserted | src/providers/google.ts:150-153 | the record the backend stores for an insert keeps the fields sent and starts uncompleted |
| GoogleTasks.Patched | src/providers/google.ts:180-184 | the record after a patch: fields the patch carries are overwritten, all others kept |
| GoogleTasks.CreateRoundTrip | src/providers/google.ts:139-159 | reading back a created task gives the requested title (or "New Task"), the non-empty description, the due date, and a pending task never completed |
| GoogleTasks.CreatedTaskIsListed | src/providers/google.ts:112-153 | a created task appears among the tasks of its list with its id, title, due date and pending status |
| GoogleTasks.UpdateRoundTrip | src/providers/google.ts:303-324 | after an update, completing records `now` as the completion time, reopening clears it, cancelled changes nothing, a falsy due clears the due date, and every field not mentioned keeps its value |
| GoogleTasks.SearchTasks | src/providers/google.ts:220-242 | a failure to read the lists propagates; otherwise the search succeeds, whatever the individual lists do |
| GoogleTasks.SearchTasksMember | src/providers/google.ts:229-241 | a task is found exactly when some list's fetch succeeded with it and its lower-cased title or non-empty description contains the lower-cased query |
| GoogleTasks.SearchTasksOrder | src/providers/google.ts:234-241 | the results keep list order, then the order within each list |
| GoogleTasks.SearchTasksEmptyQuery | src/providers/google.ts:237-241 | the empty query returns every task of every list that could be fetched |
| SyncAll.RestrictLists | src/tools/syncAllTasks.ts:88-90 | restricting lists never adds any |
| SyncAll.RestrictListsMember | src/tools/syncAllTasks.ts:88-90 | a list is synced exactly when it was fetched and, if a non-empty restriction is given, its id is named there; unmatched ids are ignored |
| SyncAll.RestrictListsOrder | src/tools/syncAllTasks.ts:88-90 | the restriction keeps fetched order |
| SyncAll.AddCount | src/tools/syncAllTasks.ts:94-101 | a failed fetch leaves the counts as they were; a successful one raises the provider's count (0 when missing) by the number of tasks fetched |
| SyncAll.SyncListsStep | src/tools/syncAllTasks.ts:93-101 | fetching one more list appends its recovered tasks and applies one count update |
| SyncAll.SyncLists | src/tools/syncAllTasks.ts:93-102 | the inner loop appends the tasks of every successful list fetch, in list order, and adds their number to the provider's count |
| SyncAll.SyncAllTasks | src/tools/syncAllTasks.ts:61-124 | the tasks returned are the first `limit` gathered tasks when `limit` is positive and all of them otherwise; `total` is their number; `byProvider` is the per-provider count |
| SyncAll.UnitTasksSnoc | src/tools/syncAllTasks.ts:93-101 | one more list appends its tasks, or nothing if its fetch failed |
| SyncAll.GatheredSnoc | src/tools/syncAllTasks.ts:74-107 | one more configuration appends its tasks |
| SyncAll.UnitTasksMember | src/tools/syncAllTasks.ts:76-102 | a configuration contributes a task exactly when the fetch of one of its synced lists succeeded with that task (an unknown provider or unreadable lists has no synced list) |
| SyncAll.GatheredMember | src/tools/syncAllTasks.ts:74-107 | a task is gathered exactly when some configuration contributes it |
| SyncAll.FailedUnitContributesNothing | src/tools/syncAllTasks.ts:76-106 | an unknown provider or a failed list-of-lists fetch adds no task and no count, and the aggregation goes on |
| SyncAll.Sum | src/tools/syncAllTasks.ts:97 | the sum of the counts in a dictionary |
| SyncAll.SumRemove | src/tools/syncAllTasks.ts:97 | any entry can be taken out of the sum first |
| SyncAll.SumAddCount | src/tools/syncAllTasks.ts:97 | one `byProvider` update adds the number of fetched tasks to the sum, and a failed fetch adds nothing |
| SyncAll.ListCountsSum | src/tools/syncAllTasks.ts:93-101 | one configuration's lists add to the count sum exactly the number of tasks they contribute |
| SyncAll.CountsSum | src/tools/syncAllTasks.ts:95-97 | the counts add up to the number of tasks gathered before the limit |
| SyncAll.ListCountsKeys | src/tools/syncAllTasks.ts:97 | one configuration's lists create its key exactly when one of their fetches succeeds |
| SyncAll.ContributesAsSnoc | src/tools/syncAllTasks.ts:74 | a configuration with the string k has a successful fetch among the first n+1 exactly when it has one among the first n or is the last one |
| SyncAll.CountsKeys | src/tools/syncAllTasks.ts:97 | a provider string has a count exactly when some configuration with that string had a successful list fetch, even one returning no tasks |
| SyncAll.ListCountsCount | src/tools/syncAllTasks.ts:97 | one configuration's lists raise only its own key's count, by the number of tasks they contribute |
| SyncAll.GatheredAppendOne | src/tools/syncAllTasks.ts:74-107 | appending a configuration appends its tasks |
| SyncAll.GatheredKeepSnoc | src/tools/syncAllTasks.ts:74-107 | among selected configurations, one more adds its tasks exactly when it is selected |
| SyncAll.GatheredForSnoc | src/tools/syncAllTasks.ts:74-107 | one more configuration adds its tasks to those gathered for a provider string exactly when it is configured with that string |
| SyncAll.CountsPerProvider | src/tools/syncAllTasks.ts:97 | configurations with the same provider string accumulate into one count: the number of tasks they gathered together |
| SyncAll.SyncAllCounts | src/tools/syncAllTasks.ts:95-121 | for the reported dictionary: the sum is the pre-limit task count, the keys are the strings with a successful fetch, each count is what its configurations gathered |

## Left out

- `src/auth.ts` is not part of this model: it is the OAuth consent flow over a local HTTP server, with a timer.
- `src/server.ts`, `src/index.ts` and the tool handlers under `src/tools/` other than `syncAllTasks` are not part of this model. They are MCP dispatch, JSON schemas, argument forwarding and `JSON.stringify`.
- `getClient`: the check that Google client credentials are configured, and the construction of the OAuth client, are environment access and are not modelled. A missing credential is one more way for a backend reply to be an `Err`.
- `deleteTask` and `validateAuth` (src/providers/google.ts:199-214, 247-255) are one remote call each, with nothing computed around it, and are not modelled.
- Error messages: the adapter's "Failed to …" prefixes are not modelled. An error is passed through as it came from the backend.
- The `console.error` logging of skipped providers and lists in `syncAllTasks` is not modelled.
- `providerMetadata` (src/providers/google.ts:278-284) is an opaque passthrough and is not part of `Task` here.
- `Promise.all` in `searchTasks` is modelled as a sequential map over the lists. The result keeps list order either way.
- Dates are integer milliseconds. Parsing of backend date strings and `toISOString` are not modelled, and a present backend date is taken to be valid.
- JavaScript numbers are modelled as integers: a fractional or `NaN` limit or offset is not modelled.
- `toLowerCase` is modelled on ASCII letters only; other characters are left unchanged.
- GetTasks: the backend's own behaviour for `maxResults`, `dueMin`, `dueMax` and `showCompleted` is an arbitrary function of the request. So the model does not capture that the backend may return fewer tasks than a later `offset` and `limit` expect. A non-zero negative `limit` is forwarded as a negative page size, as the source does.
- Inserted, Patched: the backend's storage behaviour is an assumption about the remote service, used only by the round-trip lemmas.
- The per-adapter operations are modelled for the Google adapter only: the other `TaskProvider` values have no adapter in the source.
- SearchTasks: the `filters` passed on to each list fetch, including their per-list `offset` and `limit`, are part of `fetch`; the model states the query match over whatever each fetch returned.
- SyncAllTasks: each configuration's adapter replies are given as inputs. The `filters` passed to each list fetch are part of those replies, and the authentication record built from a configuration is not modelled.
