/** What every provider adapter shares (src/types/provider.ts): its capability flags,
    the descriptor the registry stores, and the client-side filter pipeline
    `applyFilters`. */
module ProviderBase {
  import opened Wrappers
  import opened Seqs
  import opened Text
  import opened TaskTypes

  /** Static per-adapter feature flags; declared, never enforced. */
  datatype ProviderCapabilities = ProviderCapabilities(
    priorities: bool,
    tags: bool,
    descriptions: bool,
    dueDates: bool,
    subtasks: bool,
    search: bool)

  /** What `listProviders` reports about one adapter. */
  datatype ProviderInfo = ProviderInfo(id: TaskProvider, name: string, capabilities: ProviderCapabilities)

  /** A provider adapter as an object with a fixed identifier, display name and
      capability flags. Its network operations are modelled per adapter. */
  class ProviderAdapter {
    const id: TaskProvider
    const name: string
    const capabilities: ProviderCapabilities

    constructor (id: TaskProvider, name: string, capabilities: ProviderCapabilities)
      ensures this.id == id && this.name == name && this.capabilities == capabilities
    {
      this.id := id;
      this.name := name;
      this.capabilities := capabilities;
    }
  }

  // ---------------------------------------------------------------------------
  // The six predicate stages, each written as the test the source applies.

  function StatusIn(statuses: seq<TaskStatus>): Task -> bool
  {
    (t: Task) => t.status in statuses
  }

  function PriorityIn(priorities: seq<TaskPriority>): Task -> bool
  {
    (t: Task) => t.priority.Some? && t.priority.value in priorities
  }

  function DueNotBefore(bound: Instant): Task -> bool
  {
    (t: Task) => t.due.Some? && t.due.value >= bound
  }

  function DueNotAfter(bound: Instant): Task -> bool
  {
    (t: Task) => t.due.Some? && t.due.value <= bound
  }

  /** `wanted.some(tag => have.includes(tag))`. */
  predicate SharesTag(wanted: seq<string>, have: seq<string>)
  {
    exists i :: 0 <= i < |wanted| && wanted[i] in have
  }

  function SharesTagWith(wanted: seq<string>): Task -> bool
  {
    (t: Task) => t.tags.Some? && SharesTag(wanted, t.tags.value)
  }

  /** The lower-cased title, or the present and non-empty lower-cased description,
      contains the (already lower-cased) query `q`. */
  predicate MatchesText(t: Task, q: string)
  {
    Contains(Lower(t.title), q)
    || (t.description.Some? && t.description.value != "" && Contains(Lower(t.description.value), q))
  }

  function MentionsText(q: string): Task -> bool
  {
    (t: Task) => MatchesText(t, q)
  }

  /** The tag stage runs only for a present, non-empty array. */
  predicate TagsActive(f: TaskFilters)
  {
    f.tags.Some? && |f.tags.value| > 0
  }

  /** The search stage runs only for a present, non-empty string. */
  predicate SearchActive(f: TaskFilters)
  {
    f.search.Some? && f.search.value != ""
  }

  function ByStatus(tasks: seq<Task>, f: TaskFilters): seq<Task>
  {
    if f.status.Some? then Keep(tasks, StatusIn(f.status.value.Members())) else tasks
  }

  function ByPriority(tasks: seq<Task>, f: TaskFilters): seq<Task>
  {
    if f.priority.Some? then Keep(tasks, PriorityIn(f.priority.value.Members())) else tasks
  }

  function ByDueAfter(tasks: seq<Task>, f: TaskFilters): seq<Task>
  {
    if f.dueAfter.Some? then Keep(tasks, DueNotBefore(f.dueAfter.value)) else tasks
  }

  function ByDueBefore(tasks: seq<Task>, f: TaskFilters): seq<Task>
  {
    if f.dueBefore.Some? then Keep(tasks, DueNotAfter(f.dueBefore.value)) else tasks
  }

  function ByTags(tasks: seq<Task>, f: TaskFilters): seq<Task>
  {
    if TagsActive(f) then Keep(tasks, SharesTagWith(f.tags.value)) else tasks
  }

  function BySearch(tasks: seq<Task>, f: TaskFilters): seq<Task>
  {
    if SearchActive(f) then Keep(tasks, MentionsText(Lower(f.search.value))) else tasks
  }

  /** The result of the six predicate stages, in the source's order. */
  function Filtered(tasks: seq<Task>, f: TaskFilters): seq<Task>
  {
    BySearch(ByTags(ByDueBefore(ByDueAfter(ByPriority(ByStatus(tasks, f), f), f), f), f), f)
  }

  /** `slice(offset)` when `offset > 0`; a no-op otherwise. */
  function SkipOffset<T>(s: seq<T>, offset: Option<int>): (r: seq<T>)
    ensures offset.Some? && offset.value > 0 ==>
              |r| == (if offset.value < |s| then |s| - offset.value else 0)
    ensures !(offset.Some? && offset.value > 0) ==> r == s
    ensures r == s[|s| - |r|..]
  {
    if offset.Some? && offset.value > 0 then
      (if offset.value < |s| then s[offset.value..] else [])
    else s
  }

  /** `slice(0, limit)` when `limit > 0`; a no-op otherwise. */
  function TakeLimit<T>(s: seq<T>, limit: Option<int>): (r: seq<T>)
    ensures limit.Some? && limit.value > 0 ==>
              |r| == (if limit.value < |s| then limit.value else |s|)
    ensures !(limit.Some? && limit.value > 0) ==> r == s
    ensures r <= s
  {
    if limit.Some? && limit.value > 0 && limit.value < |s| then s[..limit.value] else s
  }

  /** `BaseTaskProvider.applyFilters`: the six predicate stages, then `offset`,
      then `limit`. */
  function ApplyFilters(tasks: seq<Task>, f: TaskFilters): (r: seq<Task>)
    ensures |r| <= |tasks|
  {
    TakeLimit(SkipOffset(Filtered(tasks, f), f.offset), f.limit)
  }

  // ---------------------------------------------------------------------------
  // The reference definition: one selection by the conjunction of all six tests,
  // each test holding trivially when its filter field is absent.

  predicate StatusOk(f: TaskFilters, t: Task)
  {
    f.status.Some? ==> t.status in f.status.value.Members()
  }

  predicate PriorityOk(f: TaskFilters, t: Task)
  {
    f.priority.Some? ==> t.priority.Some? && t.priority.value in f.priority.value.Members()
  }

  predicate DueAfterOk(f: TaskFilters, t: Task)
  {
    f.dueAfter.Some? ==> t.due.Some? && f.dueAfter.value <= t.due.value
  }

  predicate DueBeforeOk(f: TaskFilters, t: Task)
  {
    f.dueBefore.Some? ==> t.due.Some? && t.due.value <= f.dueBefore.value
  }

  predicate TagsOk(f: TaskFilters, t: Task)
  {
    TagsActive(f) ==> t.tags.Some? && exists tag :: tag in f.tags.value && tag in t.tags.value
  }

  predicate SearchOk(f: TaskFilters, t: Task)
  {
    SearchActive(f) ==> MatchesText(t, Lower(f.search.value))
  }

  /** A task passes every predicate stage of `f`. */
  predicate Matches(f: TaskFilters, t: Task)
  {
    StatusOk(f, t) && PriorityOk(f, t) && DueAfterOk(f, t) && DueBeforeOk(f, t) && TagsOk(f, t) && SearchOk(f, t)
  }

  function MatchesAll(f: TaskFilters): Task -> bool
  {
    (t: Task) => Matches(f, t)
  }

  /** The tasks that pass every stage, in input order. */
  function Selected(tasks: seq<Task>, f: TaskFilters): seq<Task>
  {
    Keep(tasks, MatchesAll(f))
  }

  /** Offset or limit will cut the selection. */
  predicate Paginates(f: TaskFilters)
  {
    (f.offset.Some? && f.offset.value > 0) || (f.limit.Some? && f.limit.value > 0)
  }

  // ---------------------------------------------------------------------------
  // Each stage is a selection by its test.

  lemma ByStatusIsKeep(s: seq<Task>, f: TaskFilters, p: Task -> bool)
    requires forall t :: p(t) == StatusOk(f, t)
    ensures ByStatus(s, f) == Keep(s, p)
  {
    if f.status.Some? {
      KeepExt(s, StatusIn(f.status.value.Members()), p);
    } else {
      KeepAll(s, p);
    }
  }

  lemma ByPriorityIsKeep(s: seq<Task>, f: TaskFilters, p: Task -> bool)
    requires forall t :: p(t) == PriorityOk(f, t)
    ensures ByPriority(s, f) == Keep(s, p)
  {
    if f.priority.Some? {
      KeepExt(s, PriorityIn(f.priority.value.Members()), p);
    } else {
      KeepAll(s, p);
    }
  }

  lemma ByDueAfterIsKeep(s: seq<Task>, f: TaskFilters, p: Task -> bool)
    requires forall t :: p(t) == DueAfterOk(f, t)
    ensures ByDueAfter(s, f) == Keep(s, p)
  {
    if f.dueAfter.Some? {
      KeepExt(s, DueNotBefore(f.dueAfter.value), p);
    } else {
      KeepAll(s, p);
    }
  }

  lemma ByDueBeforeIsKeep(s: seq<Task>, f: TaskFilters, p: Task -> bool)
    requires forall t :: p(t) == DueBeforeOk(f, t)
    ensures ByDueBefore(s, f) == Keep(s, p)
  {
    if f.dueBefore.Some? {
      KeepExt(s, DueNotAfter(f.dueBefore.value), p);
    } else {
      KeepAll(s, p);
    }
  }

  lemma ByTagsIsKeep(s: seq<Task>, f: TaskFilters, p: Task -> bool)
    requires forall t :: p(t) == TagsOk(f, t)
    ensures ByTags(s, f) == Keep(s, p)
  {
    if TagsActive(f) {
      forall t: Task
        ensures SharesTagWith(f.tags.value)(t) == p(t)
      {
        if t.tags.Some? && exists tag :: tag in f.tags.value && tag in t.tags.value {
          var tag :| tag in f.tags.value && tag in t.tags.value;
          var i :| 0 <= i < |f.tags.value| && f.tags.value[i] == tag;
          assert SharesTag(f.tags.value, t.tags.value);
        }
      }
      KeepExt(s, SharesTagWith(f.tags.value), p);
    } else {
      KeepAll(s, p);
    }
  }

  lemma BySearchIsKeep(s: seq<Task>, f: TaskFilters, p: Task -> bool)
    requires forall t :: p(t) == SearchOk(f, t)
    ensures BySearch(s, f) == Keep(s, p)
  {
    if SearchActive(f) {
      KeepExt(s, MentionsText(Lower(f.search.value)), p);
    } else {
      KeepAll(s, p);
    }
  }

  /** Running the six stages one after another selects exactly the tasks that pass
      all six tests at once, in input order. */
  lemma FilteredIsSelected(tasks: seq<Task>, f: TaskFilters)
    ensures Filtered(tasks, f) == Selected(tasks, f)
  {
    var p1 := (t: Task) => StatusOk(f, t);
    var p2 := (t: Task) => PriorityOk(f, t);
    var p3 := (t: Task) => DueAfterOk(f, t);
    var p4 := (t: Task) => DueBeforeOk(f, t);
    var p5 := (t: Task) => TagsOk(f, t);
    var p6 := (t: Task) => SearchOk(f, t);
    var q2 := (t: Task) => StatusOk(f, t) && PriorityOk(f, t);
    var q3 := (t: Task) => q2(t) && DueAfterOk(f, t);
    var q4 := (t: Task) => q3(t) && DueBeforeOk(f, t);
    var q5 := (t: Task) => q4(t) && TagsOk(f, t);

    var s1 := ByStatus(tasks, f);
    ByStatusIsKeep(tasks, f, p1);
    var s2 := ByPriority(s1, f);
    ByPriorityIsKeep(s1, f, p2);
    KeepFuse(tasks, p1, p2, q2);
    var s3 := ByDueAfter(s2, f);
    ByDueAfterIsKeep(s2, f, p3);
    KeepFuse(tasks, q2, p3, q3);
    var s4 := ByDueBefore(s3, f);
    ByDueBeforeIsKeep(s3, f, p4);
    KeepFuse(tasks, q3, p4, q4);
    var s5 := ByTags(s4, f);
    ByTagsIsKeep(s4, f, p5);
    KeepFuse(tasks, q4, p5, q5);
    BySearchIsKeep(s5, f, p6);
    KeepFuse(tasks, q5, p6, MatchesAll(f));
  }

  // ---------------------------------------------------------------------------
  // What applyFilters promises.

  /** The result is the selection, cut by offset and then by limit. */
  lemma ApplyFiltersIsPagedSelection(tasks: seq<Task>, f: TaskFilters)
    ensures ApplyFilters(tasks, f) == TakeLimit(SkipOffset(Selected(tasks, f), f.offset), f.limit)
  {
    FilteredIsSelected(tasks, f);
  }

  /** The output is a subsequence of the input: nothing is invented or reordered. */
  lemma ApplyFiltersIsSubsequence(tasks: seq<Task>, f: TaskFilters)
    ensures IsSubsequence(ApplyFilters(tasks, f), tasks)
  {
    var sel := Selected(tasks, f);
    FilteredIsSelected(tasks, f);
    KeepIsSubsequence(tasks, MatchesAll(f));
    var skipped := SkipOffset(sel, f.offset);
    DropIsSubsequence(sel, |sel| - |skipped|);
    SubsequenceTrans(skipped, sel, tasks);
    var r := TakeLimit(skipped, f.limit);
    assert r == skipped[..|r|];
    TakeIsSubsequence(skipped, |r|);
    SubsequenceTrans(r, skipped, tasks);
  }

  /** Every task returned comes from the input and passes every active stage. */
  lemma ApplyFiltersSound(tasks: seq<Task>, f: TaskFilters, t: Task)
    requires t in ApplyFilters(tasks, f)
    ensures t in tasks && Matches(f, t)
  {
    var sel := Selected(tasks, f);
    FilteredIsSelected(tasks, f);
    var skipped := SkipOffset(sel, f.offset);
    assert t in skipped;
    assert t in sel;
    KeepMember(tasks, MatchesAll(f), t);
  }

  /** Without offset or limit, the filters keep exactly the matching tasks. */
  lemma ApplyFiltersComplete(tasks: seq<Task>, f: TaskFilters, t: Task)
    requires !Paginates(f)
    ensures t in ApplyFilters(tasks, f) <==> t in tasks && Matches(f, t)
  {
    FilteredIsSelected(tasks, f);
    KeepMember(tasks, MatchesAll(f), t);
  }

  /** With no filter field set, the output equals the input. */
  lemma ApplyFiltersNoFilters(tasks: seq<Task>)
    ensures ApplyFilters(tasks, NoFilters) == tasks
  {
  }

  /** Status: every result's status is one of the requested ones. */
  lemma ApplyFiltersStatus(tasks: seq<Task>, f: TaskFilters)
    requires f.status.Some?
    ensures forall t :: t in ApplyFilters(tasks, f) ==>
              && (f.status.value.One? ==> t.status == f.status.value.value)
              && (f.status.value.Many? ==> t.status in f.status.value.values)
  {
    forall t | t in ApplyFilters(tasks, f) {
      ApplyFiltersSound(tasks, f, t);
    }
  }


  /** Priority: tasks without a priority are dropped; the rest have a requested one. */
  lemma ApplyFiltersPriority(tasks: seq<Task>, f: TaskFilters)
    requires f.priority.Some?
    ensures forall t :: t in ApplyFilters(tasks, f) ==>
              t.priority.Some? && t.priority.value in f.priority.value.Members()
  {
    forall t | t in ApplyFilters(tasks, f) {
      ApplyFiltersSound(tasks, f, t);
    }
  }


  /** The due range is inclusive at both ends; tasks without a due date are dropped
      as soon as either bound is set. */
  lemma ApplyFiltersDueRange(tasks: seq<Task>, f: TaskFilters)
    requires f.dueAfter.Some? || f.dueBefore.Some?
    ensures forall t :: t in ApplyFilters(tasks, f) ==>
              && t.due.Some?
              && (f.dueAfter.Some? ==> f.dueAfter.value <= t.due.value)
              && (f.dueBefore.Some? ==> t.due.value <= f.dueBefore.value)
  {
    forall t | t in ApplyFilters(tasks, f) {
      ApplyFiltersSound(tasks, f, t);
    }
  }


  /** Tags match any-of: a result shares at least one tag with the filter. */
  lemma ApplyFiltersTags(tasks: seq<Task>, f: TaskFilters)
    requires f.tags.Some? && f.tags.value != []
    ensures forall t :: t in ApplyFilters(tasks, f) ==>
              t.tags.Some? && exists tag :: tag in f.tags.value && tag in t.tags.value
  {
    forall t | t in ApplyFilters(tasks, f) {
      ApplyFiltersSound(tasks, f, t);
    }
  }


  /** An empty tag array selects nothing out: it is the same as no tag filter. */
  lemma ApplyFiltersEmptyTags(tasks: seq<Task>, f: TaskFilters)
    requires f.tags == Some([])
    ensures ApplyFilters(tasks, f) == ApplyFilters(tasks, f.(tags := None))
  {
  }

  /** Search: a result's lower-cased title, or its present lower-cased description,
      contains the lower-cased query. */
  lemma ApplyFiltersSearch(tasks: seq<Task>, f: TaskFilters)
    requires SearchActive(f)
    ensures forall t :: t in ApplyFilters(tasks, f) ==>
              || Contains(Lower(t.title), Lower(f.search.value))
              || (t.description.Some? && Contains(Lower(t.description.value), Lower(f.search.value)))
  {
    forall t | t in ApplyFilters(tasks, f) {
      ApplyFiltersSound(tasks, f, t);
    }
  }


  /** An empty search string is the same as no search filter. */
  lemma ApplyFiltersEmptySearch(tasks: seq<Task>, f: TaskFilters)
    requires f.search == Some("")
    ensures ApplyFilters(tasks, f) == ApplyFilters(tasks, f.(search := None))
  {
  }

  /** Pagination: the result is the selection from index `offset` on, truncated to
      `limit`; with a positive limit it never holds more than `limit` tasks. */
  lemma ApplyFiltersPagination(tasks: seq<Task>, f: TaskFilters)
    ensures var sel := Selected(tasks, f);
            var o := if f.offset.Some? && 0 < f.offset.value then (if f.offset.value < |sel| then f.offset.value else |sel|) else 0;
            var n := if f.limit.Some? && 0 < f.limit.value && f.limit.value < |sel| - o then f.limit.value else |sel| - o;
            ApplyFilters(tasks, f) == sel[o..][..n]
    ensures f.limit.Some? && f.limit.value > 0 ==> |ApplyFilters(tasks, f)| <= f.limit.value
  {
    FilteredIsSelected(tasks, f);
  }

  // ---------------------------------------------------------------------------
  // Worked examples of the stage order and of the matching rules.

  function SampleTask(title: string, due: Option<Instant>, tags: Option<seq<string>>): Task
  {
    Task("t", Google, "l", "List", title, None, Pending, due, 0, 0, None, None, tags, None)
  }

  /** Offset and limit apply after the range filter: of due dates 5, 15 and 25,
      the range [10, 20] with limit 1 keeps the task due at 15. */
  lemma StageOrderExample()
    ensures var tasks := [SampleTask("a", Some(5), None), SampleTask("a", Some(15), None), SampleTask("a", Some(25), None)];
            ApplyFilters(tasks, NoFilters.(dueAfter := Some(10), dueBefore := Some(20), limit := Some(1)))
              == [SampleTask("a", Some(15), None)]
  {
    var tasks := [SampleTask("a", Some(5), None), SampleTask("a", Some(15), None), SampleTask("a", Some(25), None)];
    var f := NoFilters.(dueAfter := Some(10), dueBefore := Some(20), limit := Some(1));
    assert Keep(tasks, DueNotBefore(10)) == tasks[1..];
    assert Keep(tasks[1..], DueNotAfter(20)) == [tasks[1]];
  }

  /** Tags match any-of: tags [a, c] meet the filter [b, c] but not [d]. */
  lemma TagsExample()
    ensures var t := SampleTask("x", None, Some(["a", "c"]));
            ApplyFilters([t], NoFilters.(tags := Some(["b", "c"]))) == [t]
            && ApplyFilters([t], NoFilters.(tags := Some(["d"]))) == []
  {
    var t := SampleTask("x", None, Some(["a", "c"]));
    var bc := NoFilters.(tags := Some(["b", "c"]));
    var d := NoFilters.(tags := Some(["d"]));
    assert SharesTag(["b", "c"], ["a", "c"]) by { assert ["b", "c"][1] in ["a", "c"]; }
    assert Keep([t], SharesTagWith(["b", "c"])) == [t];
    assert Filtered([t], bc) == [t];
    assert !SharesTag(["d"], ["a", "c"]) by {
      assert "d" != "a" && "d" != "c";
      assert ["d"][0] !in ["a", "c"];
    }
    assert Keep([t], SharesTagWith(["d"])) == [];
    assert Filtered([t], d) == [];
  }

  /** Search ignores case: the title "Buy Milk" matches the query "milk". */
  lemma SearchExample()
    ensures var t := SampleTask("Buy Milk", None, None);
            ApplyFilters([t], NoFilters.(search := Some("milk"))) == [t]
  {
    var t := SampleTask("Buy Milk", None, None);
    var f := NoFilters.(search := Some("milk"));
    var title := Lower("Buy Milk");
    assert title == "buy milk";
    assert Lower("milk") == "milk";
    assert Contains(title[4..], "milk") by { assert "milk" <= title[4..]; }
    assert Contains(title[3..], "milk");
    assert Contains(title[2..], "milk");
    assert Contains(title[1..], "milk");
    assert Contains(title, "milk");
    assert MatchesText(t, "milk");
    assert Keep([t], MentionsText("milk")) == [t];
    assert Filtered([t], f) == [t];
  }
}
