/** The multi-provider aggregation of the `syncAllTasks` tool
    (src/tools/syncAllTasks.ts): for each provider configuration in turn, look the
    adapter up, read its lists, keep the requested ones, fetch each list's tasks,
    append them and count them per provider; a failing provider or list is skipped;
    finally cut the whole result to the global limit. The adapters' replies are
    inputs, one `SyncUnit` per configuration. */
module SyncAll {
  import opened Wrappers
  import opened Seqs
  import opened TaskTypes
  import opened ProviderBase
  import opened Registry

  /** One entry of the tool's `providers` argument. The provider is an unchecked
      string; only the registry lookup can reject it. */
  datatype ProviderConfig = ProviderConfig(
    provider: string,
    accessToken: string,
    refreshToken: Option<string>,
    listIds: Option<seq<string>>)

  /** A configuration together with the replies its adapter gives: the outcome of
      `getTaskLists`, and the outcome of `getTasks` for each list identifier. */
  datatype SyncUnit = SyncUnit(
    config: ProviderConfig,
    lists: Outcome<seq<TaskList>>,
    fetch: string -> Outcome<seq<Task>>)

  /** What the tool reports: the tasks, their number, and the tasks fetched per
      provider string before the global limit. */
  datatype SyncResult = SyncResult(tasks: seq<Task>, total: nat, byProvider: map<string, nat>)

  // ---------------------------------------------------------------------------
  // Which lists a configuration syncs.

  function ListIn(ids: seq<string>): TaskList -> bool
  {
    (l: TaskList) => l.id in ids
  }

  /** A present, non-empty `listIds` keeps the fetched lists it names, in fetched
      order; otherwise every list is kept. */
  function RestrictLists(lists: seq<TaskList>, listIds: Option<seq<string>>): (r: seq<TaskList>)
    ensures |r| <= |lists|
  {
    if listIds.Some? && |listIds.value| > 0 then Keep(lists, ListIn(listIds.value)) else lists
  }

  /** A list is synced exactly when it was fetched and, if a restriction is given,
      its identifier is named there; identifiers naming no fetched list are ignored. */
  lemma RestrictListsMember(lists: seq<TaskList>, listIds: Option<seq<string>>, l: TaskList)
    ensures l in RestrictLists(lists, listIds)
            <==> l in lists && (listIds.Some? && |listIds.value| > 0 ==> l.id in listIds.value)
  {
    if listIds.Some? && |listIds.value| > 0 {
      KeepMember(lists, ListIn(listIds.value), l);
    }
  }

  /** The restriction keeps the fetched order. */
  lemma RestrictListsOrder(lists: seq<TaskList>, listIds: Option<seq<string>>)
    ensures IsSubsequence(RestrictLists(lists, listIds), lists)
  {
    if listIds.Some? && |listIds.value| > 0 {
      KeepIsSubsequence(lists, ListIn(listIds.value));
    } else {
      SubsequenceRefl(lists);
    }
  }

  /** The registry has an adapter for the configured provider string. */
  predicate Known(registered: set<TaskProvider>, name: string)
  {
    ProviderFromName(name).Some? && ProviderFromName(name).value in registered
  }

  /** The lists a unit syncs: none when the provider is unknown or its lists could
      not be read. */
  function SyncedLists(registered: set<TaskProvider>, u: SyncUnit): seq<TaskList>
  {
    if Known(registered, u.config.provider) && u.lists.Ok? then RestrictLists(u.lists.value, u.config.listIds) else []
  }

  // ---------------------------------------------------------------------------
  // The specification of the aggregate.

  /** The tasks one unit contributes, list after list. */
  function UnitTasks(registered: set<TaskProvider>, u: SyncUnit): seq<Task>
  {
    Flatten(PerList(SyncedLists(registered, u), u.fetch))
  }

  /** The tasks gathered before the global limit: unit after unit. */
  function Gathered(registered: set<TaskProvider>, units: seq<SyncUnit>): seq<Task>
  {
    Flatten(seq(|units|, i requires 0 <= i < |units| => UnitTasks(registered, units[i])))
  }

  /** `byProvider[key]`, reading a missing entry as 0. */
  function Count(m: map<string, nat>, key: string): nat
  {
    if key in m then m[key] else 0
  }

  /** `byProvider[key] = (byProvider[key] || 0) + tasks.length` after a successful
      fetch; nothing after a failed one. */
  function AddCount(counts: map<string, nat>, key: string, o: Outcome<seq<Task>>): (r: map<string, nat>)
    ensures o.Err? ==> r == counts
    ensures Count(r, key) == Count(counts, key) + |Recovered(o)|
  {
    if o.Ok? then counts[key := Count(counts, key) + |o.value|] else counts
  }

  /** The counts after the lists `ls` of one unit, whose provider string is `key`,
      were processed starting from `counts`: each successful fetch adds its number
      of tasks to `key`, creating the entry if needed. */
  function ListCounts(counts: map<string, nat>, key: string, fetch: string -> Outcome<seq<Task>>, ls: seq<TaskList>): map<string, nat>
    decreases |ls|
  {
    if ls == [] then counts
    else
      AddCount(ListCounts(counts, key, fetch, ls[..|ls| - 1]), key, fetch(ls[|ls| - 1].id))
  }

  /** The `byProvider` dictionary after the units `units`. */
  function Counts(registered: set<TaskProvider>, units: seq<SyncUnit>): map<string, nat>
    decreases |units|
  {
    if units == [] then map[]
    else
      var u := units[|units| - 1];
      ListCounts(Counts(registered, units[..|units| - 1]), u.config.provider, u.fetch, SyncedLists(registered, u))
  }

  /** The limit the tool applies to the gathered tasks. */
  function GlobalLimit(filters: Option<TaskFilters>): Option<int>
  {
    if filters.Some? then filters.value.limit else None
  }

  // ---------------------------------------------------------------------------
  // The tool.

  /** The inner loop of `handleSyncAllTasks` for one configuration whose provider
      string is `key`: fetches each list of `toSync` in turn, appending the tasks of
      every successful fetch to `tasks` and adding their number to `key`'s count. */
  method SyncLists(key: string, fetch: string -> Outcome<seq<Task>>, toSync: seq<TaskList>,
                   tasks: seq<Task>, counts: map<string, nat>)
    returns (tasks': seq<Task>, counts': map<string, nat>)
    ensures tasks' == tasks + Flatten(PerList(toSync, fetch))
    ensures counts' == ListCounts(counts, key, fetch, toSync)
  {
    tasks', counts' := tasks, counts;
    var j := 0;
    while j < |toSync|
      invariant 0 <= j <= |toSync|
      invariant tasks' == tasks + Flatten(PerList(toSync[..j], fetch))
      invariant counts' == ListCounts(counts, key, fetch, toSync[..j])
    {
      var outcome := fetch(toSync[j].id);
      SyncListsStep(counts, key, fetch, toSync, j);
      // A failed fetch is caught: it adds no tasks and leaves the counts alone.
      assert tasks + (Flatten(PerList(toSync[..j], fetch)) + Recovered(outcome)) == tasks' + Recovered(outcome);
      tasks' := tasks' + Recovered(outcome);
      counts' := AddCount(counts', key, outcome);
      j := j + 1;
    }
    assert toSync[..j] == toSync;
  }

  /** `handleSyncAllTasks`: the tasks are the gathered ones cut to the global limit,
      `total` is their number, and `byProvider` holds the per-provider counts. */
  method SyncAllTasks(registry: ProviderRegistry, units: seq<SyncUnit>, filters: Option<TaskFilters>)
    returns (result: SyncResult)
    ensures result.tasks == TakeLimit(Gathered(registry.providers.Keys, units), GlobalLimit(filters))
    ensures result.tasks <= Gathered(registry.providers.Keys, units)
    ensures result.total == |result.tasks|
    ensures result.byProvider == Counts(registry.providers.Keys, units)
  {
    ghost var registered := registry.providers.Keys;
    var allTasks: seq<Task> := [];
    var byProvider: map<string, nat> := map[];
    var i := 0;
    while i < |units|
      invariant 0 <= i <= |units|
      invariant allTasks == Gathered(registered, units[..i])
      invariant byProvider == Counts(registered, units[..i])
    {
      var u := units[i];
      assert units[..i + 1][..i] == units[..i];
      GatheredSnoc(registered, units[..i + 1]);
      var id := ProviderFromName(u.config.provider);
      var found := if id.Some? then registry.Get(id.value) else Err(ProviderNotFound(u.config.provider));
      if found.Ok? && u.lists.Ok? {
        var toSync := RestrictLists(u.lists.value, u.config.listIds);
        allTasks, byProvider := SyncLists(u.config.provider, u.fetch, toSync, allTasks, byProvider);
      }
      i := i + 1;
    }
    assert units[..i] == units;
    var tasks := allTasks;
    if filters.Some? && filters.value.limit.Some? && filters.value.limit.value > 0 {
      var limit := filters.value.limit.value;
      tasks := if limit < |allTasks| then allTasks[..limit] else allTasks;
    }
    result := SyncResult(tasks, |tasks|, byProvider);
  }

  // ---------------------------------------------------------------------------
  // Unfolding the specification one step from the end.

  /** One more list appends that list's tasks, or nothing if its fetch failed. */
  lemma UnitTasksSnoc(ls: seq<TaskList>, fetch: string -> Outcome<seq<Task>>)
    requires ls != []
    ensures Flatten(PerList(ls, fetch))
            == Flatten(PerList(ls[..|ls| - 1], fetch)) + Recovered(fetch(ls[|ls| - 1].id))
  {
    assert PerList(ls, fetch) == PerList(ls[..|ls| - 1], fetch) + [Recovered(fetch(ls[|ls| - 1].id))];
    FlattenSnoc(PerList(ls[..|ls| - 1], fetch), Recovered(fetch(ls[|ls| - 1].id)));
  }

  /** One step of the inner loop, in terms of the definition. */
  lemma SyncListsStep(counts: map<string, nat>, key: string, fetch: string -> Outcome<seq<Task>>, toSync: seq<TaskList>, j: nat)
    requires j < |toSync|
    ensures Flatten(PerList(toSync[..j + 1], fetch)) == Flatten(PerList(toSync[..j], fetch)) + Recovered(fetch(toSync[j].id))
    ensures ListCounts(counts, key, fetch, toSync[..j + 1])
            == AddCount(ListCounts(counts, key, fetch, toSync[..j]), key, fetch(toSync[j].id))
  {
    assert toSync[..j + 1][..j] == toSync[..j];
    UnitTasksSnoc(toSync[..j + 1], fetch);
  }

  /** One more unit appends that unit's tasks. */
  lemma GatheredSnoc(registered: set<TaskProvider>, units: seq<SyncUnit>)
    requires units != []
    ensures Gathered(registered, units)
            == Gathered(registered, units[..|units| - 1]) + UnitTasks(registered, units[|units| - 1])
  {
    var n := |units| - 1;
    assert seq(|units|, i requires 0 <= i < |units| => UnitTasks(registered, units[i]))
           == seq(n, i requires 0 <= i < n => UnitTasks(registered, units[..n][i])) + [UnitTasks(registered, units[n])];
    FlattenSnoc(seq(n, i requires 0 <= i < n => UnitTasks(registered, units[..n][i])), UnitTasks(registered, units[n]));
  }

  // ---------------------------------------------------------------------------
  // What the aggregate contains.

  /** A task comes from a unit exactly when the fetch of one of the unit's synced
      lists succeeded with it: the provider is registered, its lists were read, and
      the list is among the requested ones. */
  lemma UnitTasksMember(registered: set<TaskProvider>, u: SyncUnit, t: Task)
    ensures t in UnitTasks(registered, u)
            <==> exists j :: 0 <= j < |SyncedLists(registered, u)|
                   && u.fetch(SyncedLists(registered, u)[j].id).Ok?
                   && t in u.fetch(SyncedLists(registered, u)[j].id).value
  {
    var ls := SyncedLists(registered, u);
    var parts := PerList(ls, u.fetch);
    FlattenMember(parts, t);
    if t in UnitTasks(registered, u) {
      var j :| 0 <= j < |parts| && t in parts[j];
    }
    if exists j :: 0 <= j < |ls| && u.fetch(ls[j].id).Ok? && t in u.fetch(ls[j].id).value {
      var j :| 0 <= j < |ls| && u.fetch(ls[j].id).Ok? && t in u.fetch(ls[j].id).value;
      assert t in parts[j];
    }
  }

  /** A task is gathered exactly when some unit contributes it. */
  lemma GatheredMember(registered: set<TaskProvider>, units: seq<SyncUnit>, t: Task)
    ensures t in Gathered(registered, units)
            <==> exists i :: 0 <= i < |units| && t in UnitTasks(registered, units[i])
  {
    var parts := seq(|units|, i requires 0 <= i < |units| => UnitTasks(registered, units[i]));
    FlattenMember(parts, t);
    if exists i :: 0 <= i < |units| && t in UnitTasks(registered, units[i]) {
      var i :| 0 <= i < |units| && t in UnitTasks(registered, units[i]);
      assert t in parts[i];
    }
  }

  /** A unit whose provider is unknown or whose lists cannot be read adds no task
      and no count, and the aggregation goes on. */
  lemma FailedUnitContributesNothing(registered: set<TaskProvider>, units: seq<SyncUnit>, u: SyncUnit)
    requires !Known(registered, u.config.provider) || u.lists.Err?
    ensures Gathered(registered, units + [u]) == Gathered(registered, units)
    ensures Counts(registered, units + [u]) == Counts(registered, units)
  {
    GatheredSnoc(registered, units + [u]);
    assert (units + [u])[..|units|] == units;
  }

  // ---------------------------------------------------------------------------
  // The per-provider counts.

  /** The sum of the values of a count dictionary. */
  ghost function Sum(m: map<string, nat>): nat
    decreases m.Keys
  {
    if m == map[] then 0
    else
      var k :| k in m;
      m[k] + Sum(m - {k})
  }

  /** Any entry can be taken out of the sum first. */
  lemma {:induction false} SumRemove(m: map<string, nat>, k: string)
    requires k in m
    ensures Sum(m) == m[k] + Sum(m - {k})
    decreases m.Keys
  {
    var j :| j in m && Sum(m) == m[j] + Sum(m - {j});
    if j != k {
      SumRemove(m - {j}, k);
      SumRemove(m - {k}, j);
      assert m - {j} - {k} == m - {k} - {j};
    }
  }

  /** Counting one fetch adds its number of tasks to the sum. */
  lemma SumAddCount(m: map<string, nat>, key: string, o: Outcome<seq<Task>>)
    ensures Sum(AddCount(m, key, o)) == Sum(m) + |Recovered(o)|
  {
    if o.Ok? {
      var m' := AddCount(m, key, o);
      SumRemove(m', key);
      if key in m {
        SumRemove(m, key);
        assert m' - {key} == m - {key};
      } else {
        assert m' - {key} == m;
      }
    }
  }

  lemma {:induction false} ListCountsSum(counts: map<string, nat>, key: string, fetch: string -> Outcome<seq<Task>>, ls: seq<TaskList>)
    ensures Sum(ListCounts(counts, key, fetch, ls)) == Sum(counts) + |Flatten(PerList(ls, fetch))|
    decreases |ls|
  {
    if ls != [] {
      var n := |ls| - 1;
      ListCountsSum(counts, key, fetch, ls[..n]);
      UnitTasksSnoc(ls, fetch);
      SumAddCount(ListCounts(counts, key, fetch, ls[..n]), key, fetch(ls[n].id));
    }
  }

  /** The counts add up to the number of tasks gathered before the limit. */
  lemma {:induction false} CountsSum(registered: set<TaskProvider>, units: seq<SyncUnit>)
    ensures Sum(Counts(registered, units)) == |Gathered(registered, units)|
    decreases |units|
  {
    if units != [] {
      var n := |units| - 1;
      CountsSum(registered, units[..n]);
      GatheredSnoc(registered, units);
      ListCountsSum(Counts(registered, units[..n]), units[n].config.provider, units[n].fetch, SyncedLists(registered, units[n]));
    }
  }

  lemma {:induction false} ListCountsKeys(counts: map<string, nat>, key: string, fetch: string -> Outcome<seq<Task>>, ls: seq<TaskList>, k: string)
    ensures k in ListCounts(counts, key, fetch, ls)
            <==> k in counts || (k == key && exists j :: 0 <= j < |ls| && fetch(ls[j].id).Ok?)
    decreases |ls|
  {
    if ls != [] {
      var n := |ls| - 1;
      ListCountsKeys(counts, key, fetch, ls[..n], k);
      if exists j :: 0 <= j < |ls| && fetch(ls[j].id).Ok? {
        var j :| 0 <= j < |ls| && fetch(ls[j].id).Ok?;
        if j < n {
          assert ls[..n][j] == ls[j];
        }
      }
      if exists j :: 0 <= j < n && fetch(ls[..n][j].id).Ok? {
        var j :| 0 <= j < n && fetch(ls[..n][j].id).Ok?;
        assert ls[j] == ls[..n][j];
      }
    }
  }

  /** Some fetch of a synced list of the unit succeeded. */
  predicate Contributes(registered: set<TaskProvider>, u: SyncUnit)
  {
    exists j :: 0 <= j < |SyncedLists(registered, u)| && u.fetch(SyncedLists(registered, u)[j].id).Ok?
  }

  /** The unit is configured with provider string `k` and contributes. */
  predicate ContributesAs(registered: set<TaskProvider>, u: SyncUnit, k: string)
  {
    u.config.provider == k && Contributes(registered, u)
  }

  lemma ContributesAsSnoc(registered: set<TaskProvider>, units: seq<SyncUnit>, prefix: seq<SyncUnit>, k: string)
    requires units != [] && prefix == units[..|units| - 1]
    ensures (exists i :: 0 <= i < |units| && ContributesAs(registered, units[i], k))
            <==> (exists i :: 0 <= i < |prefix| && ContributesAs(registered, prefix[i], k))
                 || ContributesAs(registered, units[|units| - 1], k)
  {
    if exists i :: 0 <= i < |units| && ContributesAs(registered, units[i], k) {
      var i :| 0 <= i < |units| && ContributesAs(registered, units[i], k);
      if i < |prefix| {
        assert prefix[i] == units[i];
      }
    }
    if exists i :: 0 <= i < |prefix| && ContributesAs(registered, prefix[i], k) {
      var i :| 0 <= i < |prefix| && ContributesAs(registered, prefix[i], k);
      assert units[i] == prefix[i];
    }
  }

  /** A provider string has a count exactly when some configuration with that string
      had a successful list fetch (possibly of no tasks). */
  lemma {:induction false} CountsKeys(registered: set<TaskProvider>, units: seq<SyncUnit>, k: string)
    ensures k in Counts(registered, units)
            <==> exists i :: 0 <= i < |units| && ContributesAs(registered, units[i], k)
    decreases |units|
  {
    if units != [] {
      var n := |units| - 1;
      var u := units[n];
      CountsKeys(registered, units[..n], k);
      ListCountsKeys(Counts(registered, units[..n]), u.config.provider, u.fetch, SyncedLists(registered, u), k);
      ContributesAsSnoc(registered, units, units[..n], k);
    }
  }

  lemma {:induction false} ListCountsCount(counts: map<string, nat>, key: string, fetch: string -> Outcome<seq<Task>>, ls: seq<TaskList>, k: string)
    ensures Count(ListCounts(counts, key, fetch, ls), k)
            == Count(counts, k) + (if k == key then |Flatten(PerList(ls, fetch))| else 0)
    decreases |ls|
  {
    if ls != [] {
      var n := |ls| - 1;
      ListCountsCount(counts, key, fetch, ls[..n], k);
      UnitTasksSnoc(ls, fetch);
    }
  }

  function ConfiguredFor(k: string): SyncUnit -> bool
  {
    (u: SyncUnit) => u.config.provider == k
  }

  /** Appending a unit appends its tasks. */
  lemma GatheredAppendOne(registered: set<TaskProvider>, us: seq<SyncUnit>, u: SyncUnit)
    ensures Gathered(registered, us + [u]) == Gathered(registered, us) + UnitTasks(registered, u)
  {
    GatheredSnoc(registered, us + [u]);
    assert (us + [u])[..|us|] == us;
  }

  /** Selecting units and then appending one more: its tasks are added exactly when
      it is selected. */
  lemma GatheredKeepSnoc(registered: set<TaskProvider>, us: seq<SyncUnit>, u: SyncUnit, p: SyncUnit -> bool)
    ensures Gathered(registered, Keep(us + [u], p))
            == Gathered(registered, Keep(us, p)) + (if p(u) then UnitTasks(registered, u) else [])
  {
    KeepSnoc(us, u, p);
    if p(u) {
      GatheredAppendOne(registered, Keep(us, p), u);
    } else {
      assert Keep(us + [u], p) == Keep(us, p);
    }
  }

  /** One more configuration adds its tasks to those gathered for `k` exactly when
      it is configured for `k`. */
  lemma GatheredForSnoc(registered: set<TaskProvider>, prefix: seq<SyncUnit>, u: SyncUnit, k: string)
    ensures |Gathered(registered, Keep(prefix + [u], ConfiguredFor(k)))|
            == |Gathered(registered, Keep(prefix, ConfiguredFor(k)))|
               + (if u.config.provider == k then |UnitTasks(registered, u)| else 0)
  {
    var p := ConfiguredFor(k);
    GatheredKeepSnoc(registered, prefix, u, p);
    assert p(u) <==> u.config.provider == k;
  }

  /** Configurations naming the same provider string accumulate into one count: the
      count of `k` is the number of tasks the units configured for `k` gathered. */
  lemma {:induction false} CountsPerProvider(registered: set<TaskProvider>, units: seq<SyncUnit>, k: string)
    ensures Count(Counts(registered, units), k) == |Gathered(registered, Keep(units, ConfiguredFor(k)))|
    decreases |units|
  {
    if units != [] {
      var n := |units| - 1;
      var prefix := units[..n];
      var u := units[n];
      CountsPerProvider(registered, prefix, k);
      var before := Counts(registered, prefix);
      assert Counts(registered, units) == ListCounts(before, u.config.provider, u.fetch, SyncedLists(registered, u));
      ListCountsCount(before, u.config.provider, u.fetch, SyncedLists(registered, u), k);
      assert units == prefix + [u];
      GatheredForSnoc(registered, prefix, u, k);
    }
  }

  /** What the tool reports, in terms of the definition: the sum of the counts is
      the number of tasks before the limit, a count exists only for a provider string
      with a successful list fetch, and each count is the number of tasks its
      configurations gathered. */
  lemma SyncAllCounts(registry: ProviderRegistry, units: seq<SyncUnit>, result: SyncResult, k: string)
    requires result.byProvider == Counts(registry.providers.Keys, units)
    ensures Sum(result.byProvider) == |Gathered(registry.providers.Keys, units)|
    ensures k in result.byProvider
            <==> exists i :: 0 <= i < |units| && ContributesAs(registry.providers.Keys, units[i], k)
    ensures Count(result.byProvider, k) == |Gathered(registry.providers.Keys, Keep(units, ConfiguredFor(k)))|
  {
    CountsSum(registry.providers.Keys, units);
    CountsKeys(registry.providers.Keys, units, k);
    CountsPerProvider(registry.providers.Keys, units, k);
  }
}
