/** The task store and its reconciliation with the event store
    (src/hooks/useTasks.tsx). The pure part (the two type/priority mappings,
    the selectors, and one specification function per handler) comes first;
    class TaskBoard holds the hook's state and runs each handler as one
    atomic step, with the calendar provider it shares. */
module UseTasks {
  import opened Wrappers
  import opened Seqs
  import opened Clock
  import opened TaskTypes
  import opened CalendarService
  import opened CalendarContext

  // ---------------------------------------------------------------------
  // Mappings between event types and priorities

  /** `mapEventTypeToPriority`. */
  function TypeToPriority(k: EventType): (p: Priority)
    ensures p == High <==> k == Work
    ensures p == Low <==> k == Personal
    ensures p == Medium <==> k == Focus || k == Other
  {
    match k
    case Work => High
    case Focus => Medium
    case Personal => Low
    case Other => Medium
  }

  /** `mapPriorityToEventType`: a right inverse of `TypeToPriority` that
      never yields `Other`. */
  function PriorityToType(p: Priority): (k: EventType)
    ensures TypeToPriority(k) == p
    ensures k != Other
  {
    match p
    case High => Work
    case Medium => Focus
    case Low => Personal
  }

  /** Going from an event type to a priority and back loses `Other`, which
      comes back as `Focus`: the mappings are not inverse the other way. */
  lemma TypeRoundTripOnlyWithoutOther(k: EventType)
    ensures PriorityToType(TypeToPriority(k)) == k <==> k != Other
  {
  }

  /** The order of `priorities` in `handleTogglePriority`. */
  const Priorities: seq<Priority> := [High, Medium, Low]

  /** `priorities.indexOf(p)`. */
  function PriorityIndex(p: Priority): (i: nat)
    ensures i < |Priorities| && Priorities[i] == p
  {
    match p
    case High => 0
    case Medium => 1
    case Low => 2
  }

  /** The priority cycle of `handleTogglePriority`: the next entry of
      `['high', 'medium', 'low']`, wrapping around. */
  function NextPriority(p: Priority): (q: Priority)
    ensures q != p
    ensures PriorityIndex(q) == (PriorityIndex(p) + 1) % 3
  {
    match p
    case High => Medium
    case Medium => Low
    case Low => High
  }

  /** Three steps of the cycle come back to the start. */
  lemma NextPriorityThrice(p: Priority)
    ensures NextPriority(NextPriority(NextPriority(p))) == p
  {
  }

  // ---------------------------------------------------------------------
  // Mirroring events into tasks (the effect at useTasks.tsx:32-58)

  /** The truthy `eventId`s of the tasks (`taskEventIds`). */
  function LinkedIds(tasks: seq<Task>): set<string>
  {
    set t | t in tasks && IsLinked(t) :: t.eventId.value
  }

  function NotLinkedBy(tasks: seq<Task>): Event -> bool
  {
    (e: Event) => e.id !in LinkedIds(tasks)
  }

  /** `newEvents`: the events that no task references, in store order. */
  function Unmirrored(tasks: seq<Task>, events: seq<Event>): (r: seq<Event>)
    ensures Selects(r, events, NotLinkedBy(tasks))
  {
    FilterSelects(events, NotLinkedBy(tasks));
    Filter(events, NotLinkedBy(tasks))
  }

  /** The description of an event, `|| undefined`: an empty one is dropped. */
  function TruthyOrNone(s: Option<string>): (r: Option<string>)
    ensures r.Some? <==> s.Some? && s.value != ""
    ensures r.Some? ==> r == s
  {
    if s.Some? && s.value != "" then s else None
  }

  /** The task synthesized for an unreferenced event. */
  function MirrorTask(e: Event): (t: Task)
    ensures t.id == "task-" + e.id && t.title == e.title && !t.completed
    ensures t.priority == TypeToPriority(e.kind)
    ensures t.dueDate == OnDay(DayOf(e.start))
    ensures t.notes == TruthyOrNone(e.description)
    ensures t.eventId == Some(e.id)
  {
    Task("task-" + e.id, e.title, false, TypeToPriority(e.kind),
         OnDay(DayOf(e.start)), TruthyOrNone(e.description), Some(e.id))
  }

  function MirrorTasks(es: seq<Event>): (r: seq<Task>)
    ensures |r| == |es|
    ensures forall k :: 0 <= k < |es| ==> r[k] == MirrorTask(es[k])
  {
    seq(|es|, k requires 0 <= k < |es| => MirrorTask(es[k]))
  }

  /** The task list after one run of the mirror effect. */
  function Mirrored(tasks: seq<Task>, events: seq<Event>): (r: seq<Task>)
    ensures |r| >= |tasks| && r[..|tasks|] == tasks
    ensures forall k :: |tasks| <= k < |r| ==> !r[k].completed && r[k].eventId.Some?
  {
    tasks + MirrorTasks(Unmirrored(tasks, events))
  }

  lemma LinkedIdsConcat(a: seq<Task>, b: seq<Task>)
    ensures LinkedIds(a + b) == LinkedIds(a) + LinkedIds(b)
  {
    assert forall t :: t in a + b <==> t in a || t in b;
  }

  /** An event is referenced after a mirror pass exactly when it was
      referenced before or had a non-empty id. */
  lemma LinkedIdsAfterMirror(tasks: seq<Task>, events: seq<Event>, e: Event)
    requires e in events
    ensures e.id in LinkedIds(Mirrored(tasks, events))
        <==> e.id in LinkedIds(tasks) || e.id != ""
  {
    var u := Unmirrored(tasks, events);
    LinkedIdsConcat(tasks, MirrorTasks(u));
    LinkedIdsOfMirrorTasks(u);
    if e.id !in LinkedIds(tasks) && e.id != "" {
      assert multiset(u)[e] == multiset(events)[e];
    }
  }

  /** The mirrored tasks reference exactly the non-empty ids of their
      events. */
  lemma LinkedIdsOfMirrorTasks(u: seq<Event>)
    ensures LinkedIds(MirrorTasks(u)) == set e | e in u && e.id != "" :: e.id
  {
    var m := MirrorTasks(u);
    forall x | x in LinkedIds(m) ensures exists e :: e in u && e.id != "" && e.id == x {
      var t :| t in m && IsLinked(t) && t.eventId.value == x;
      var k :| 0 <= k < |m| && m[k] == t;
      assert u[k] in u && u[k].id == x;
    }
    forall e | e in u && e.id != "" ensures e.id in LinkedIds(m) {
      var k :| 0 <= k < |u| && u[k] == e;
      assert m[k] in m && IsLinked(m[k]);
    }
  }

  /** One mirror pass keeps the existing tasks unchanged in front and appends
      one task per unreferenced event, in store order. */
  lemma MirrorAppends(tasks: seq<Task>, events: seq<Event>)
    ensures var r := Mirrored(tasks, events);
      && r[..|tasks|] == tasks
      && |r| == |tasks| + |Unmirrored(tasks, events)|
      && forall k :: 0 <= k < |Unmirrored(tasks, events)| ==>
           r[|tasks| + k] == MirrorTask(Unmirrored(tasks, events)[k])
  {
  }

  /** A second pass right after the first adds nothing, provided no event id
      is the empty string. */
  lemma MirrorIdempotent(tasks: seq<Task>, events: seq<Event>)
    requires forall e :: e in events ==> e.id != ""
    ensures Unmirrored(Mirrored(tasks, events), events) == []
    ensures Mirrored(Mirrored(tasks, events), events) == Mirrored(tasks, events)
  {
    var r := Mirrored(tasks, events);
    forall i | 0 <= i < |events| ensures !NotLinkedBy(r)(events[i]) {
      LinkedIdsAfterMirror(tasks, events, events[i]);
    }
    FilterDropsAll(events, NotLinkedBy(r));
  }

  /** An event whose id is the empty string yields a task whose `eventId` is
      falsy, so every pass mirrors it again. */
  lemma MirrorRepeatsEmptyId(tasks: seq<Task>, e: Event)
    requires e.id == ""
    ensures Unmirrored(Mirrored(tasks, [e]), [e]) == [e]
  {
    var r := Mirrored(tasks, [e]);
    LinkedIdsAfterMirror(tasks, [e], e);
    assert "" !in LinkedIds(tasks) by {
      assert forall t :: t in tasks && IsLinked(t) ==> t.eventId.value != "";
    }
    assert NotLinkedBy(r)(e);
    assert [e][1..] == [];
  }

  /** Every event is referenced by some task: the state a mirror pass
      produces. */
  ghost predicate Synced(tasks: seq<Task>, events: seq<Event>): (b: bool)
    ensures b <==> Unmirrored(tasks, events) == []
  {
    AllLinkedIffNothingToMirror(tasks, events);
    forall e :: e in events ==> e.id in LinkedIds(tasks)
  }

  lemma AllLinkedIffNothingToMirror(tasks: seq<Task>, events: seq<Event>)
    ensures (forall e :: e in events ==> e.id in LinkedIds(tasks)) <==> Unmirrored(tasks, events) == []
  {
    var u := Unmirrored(tasks, events);
    if forall e :: e in events ==> e.id in LinkedIds(tasks) {
      forall i | 0 <= i < |events| ensures !NotLinkedBy(tasks)(events[i]) {
        assert events[i] in events;
      }
      FilterDropsAll(events, NotLinkedBy(tasks));
    } else {
      var e :| e in events && e.id !in LinkedIds(tasks);
      assert multiset(u)[e] == multiset(events)[e] > 0;
    }
  }

  lemma SyncedNothingToMirror(tasks: seq<Task>, events: seq<Event>)
    requires Synced(tasks, events)
    ensures Unmirrored(tasks, events) == []
  {
    forall i | 0 <= i < |events| ensures !NotLinkedBy(tasks)(events[i]) {
      assert events[i] in events;
    }
    FilterDropsAll(events, NotLinkedBy(tasks));
  }

  // ---------------------------------------------------------------------
  // Selectors (useTasks.tsx:78-85)

  datatype TaskFilter = ShowAll | ShowCompleted | ShowActive

  function Passes(f: TaskFilter): Task -> bool
  {
    (t: Task) => match f
      case ShowAll => true
      case ShowCompleted => t.completed
      case ShowActive => !t.completed
  }

  /** `filteredTasks`. */
  function FilteredTasks(tasks: seq<Task>, f: TaskFilter): (r: seq<Task>)
    ensures Selects(r, tasks, Passes(f))
  {
    FilterSelects(tasks, Passes(f));
    Filter(tasks, Passes(f))
  }

  /** The filter `all` shows the whole list; `completed` and `active`
      split it between them. */
  lemma FilterModes(tasks: seq<Task>)
    ensures FilteredTasks(tasks, ShowAll) == tasks
    ensures multiset(FilteredTasks(tasks, ShowCompleted))
          + multiset(FilteredTasks(tasks, ShowActive)) == multiset(tasks)
    ensures forall t :: t in FilteredTasks(tasks, ShowCompleted) ==> t.completed
    ensures forall t :: t in FilteredTasks(tasks, ShowActive) ==> !t.completed
  {
    FilterKeepsAll(tasks, Passes(ShowAll));
    FilterPartition(tasks, Passes(ShowCompleted), Passes(ShowActive));
  }

  function Undated(): Task -> bool
  {
    (t: Task) => !HasDueDate(t)
  }

  function Dated(): Task -> bool
  {
    (t: Task) => HasDueDate(t)
  }

  /** `simpleTasks`: the shown tasks with a missing or empty due date. */
  function SimpleTasks(tasks: seq<Task>, f: TaskFilter): (r: seq<Task>)
    ensures Selects(r, FilteredTasks(tasks, f), Undated())
  {
    FilterSelects(FilteredTasks(tasks, f), Undated());
    Filter(FilteredTasks(tasks, f), Undated())
  }

  /** `complexTasks`: the shown tasks with a due date. */
  function ComplexTasks(tasks: seq<Task>, f: TaskFilter): (r: seq<Task>)
    ensures Selects(r, FilteredTasks(tasks, f), Dated())
  {
    FilterSelects(FilteredTasks(tasks, f), Dated());
    Filter(FilteredTasks(tasks, f), Dated())
  }

  /** Simple and scheduled tasks partition the shown tasks: both keep the
      list order, and together they hold every shown task exactly once. */
  lemma SimpleComplexPartition(tasks: seq<Task>, f: TaskFilter)
    ensures multiset(SimpleTasks(tasks, f)) + multiset(ComplexTasks(tasks, f))
         == multiset(FilteredTasks(tasks, f))
    ensures |SimpleTasks(tasks, f)| + |ComplexTasks(tasks, f)| == |FilteredTasks(tasks, f)|
    ensures IsSubsequence(SimpleTasks(tasks, f), tasks)
    ensures IsSubsequence(ComplexTasks(tasks, f), tasks)
  {
    var shown := FilteredTasks(tasks, f);
    FilterPartition(shown, Undated(), Dated());
    SubsequenceTrans(SimpleTasks(tasks, f), shown, tasks);
    SubsequenceTrans(ComplexTasks(tasks, f), shown, tasks);
  }

  // ---------------------------------------------------------------------
  // Specification of the handlers

  /** The task `handleAddTask` creates; `id` stands for `task-<Date.now()>`. */
  function NewTask(id: string, title: string): (t: Task)
    ensures t.id == id && t.title == title
    ensures !t.completed && t.priority == Medium && !HasDueDate(t) && !IsLinked(t)
  {
    Task(id, title, false, Medium, Unset, None, None)
  }

  function ToggledComplete(tasks: seq<Task>, id: string): (r: seq<Task>)
    ensures |r| == |tasks|
    ensures forall i :: 0 <= i < |r| ==> r[i] == tasks[i].(completed := r[i].completed)
  {
    seq(|tasks|, i requires 0 <= i < |tasks| =>
      if tasks[i].id == id then tasks[i].(completed := !tasks[i].completed) else tasks[i])
  }

  /** Toggling completion flips `completed` on the tasks with the id, and
      nothing else. */
  lemma ToggleCompleteEffect(tasks: seq<Task>, id: string)
    ensures |ToggledComplete(tasks, id)| == |tasks|
    ensures forall i :: 0 <= i < |tasks| ==>
      var t := ToggledComplete(tasks, id)[i];
      && t.completed == (if tasks[i].id == id then !tasks[i].completed else tasks[i].completed)
      && t == tasks[i].(completed := t.completed)
  {
  }

  /** Toggling completion twice is the identity. */
  lemma ToggleCompleteTwice(tasks: seq<Task>, id: string)
    ensures ToggledComplete(ToggledComplete(tasks, id), id) == tasks
  {
  }

  function TogglePriorityOf(t: Task, id: string): Task
  {
    if t.id == id then t.(priority := NextPriority(t.priority)) else t
  }

  function ToggledPriority(tasks: seq<Task>, id: string): (r: seq<Task>)
    ensures |r| == |tasks|
    ensures forall i :: 0 <= i < |r| ==> r[i] == tasks[i].(priority := r[i].priority)
  {
    seq(|tasks|, i requires 0 <= i < |tasks| => TogglePriorityOf(tasks[i], id))
  }

  /** Toggling the priority moves the tasks with the id one step along the
      cycle and leaves every other field and every other task as it was. */
  lemma TogglePriorityEffect(tasks: seq<Task>, id: string)
    ensures |ToggledPriority(tasks, id)| == |tasks|
    ensures forall i :: 0 <= i < |tasks| && tasks[i].id != id ==> ToggledPriority(tasks, id)[i] == tasks[i]
    ensures forall i :: 0 <= i < |tasks| && tasks[i].id == id ==>
      ToggledPriority(tasks, id)[i] == tasks[i].(priority := NextPriority(tasks[i].priority))
  {
  }

  /** Three toggles of the same task give the original list back. */
  lemma TogglePriorityThrice(tasks: seq<Task>, id: string)
    ensures ToggledPriority(ToggledPriority(ToggledPriority(tasks, id), id), id) == tasks
  {
    var r := ToggledPriority(ToggledPriority(ToggledPriority(tasks, id), id), id);
    forall i | 0 <= i < |tasks| ensures r[i] == tasks[i] {
      NextPriorityThrice(tasks[i].priority);
    }
  }

  /** The `editEvent` call the toggle makes for one task, if any: the type
      of the first event (in the list as it was before the handler) whose id
      the task's truthy `eventId` names becomes the mapped new priority. */
  function PriorityEditFor(t: Task, id: string, events0: seq<Event>): (r: seq<Event>)
    ensures |r| <= 1
    ensures |r| == 1 ==> r[0].id in Ids(events0)
  {
    if t.id == id && IsLinked(t) then
      match FindEvent(events0, t.eventId.value)
      case Some(ev) => [ev.(kind := PriorityToType(NextPriority(t.priority)))]
      case None => []
    else []
  }

  /** The `editEvent` calls of a toggle, in task order. */
  function PriorityEdits(tasks: seq<Task>, id: string, events0: seq<Event>): (r: seq<Event>)
    ensures |r| <= |tasks|
    ensures forall k :: 0 <= k < |r| ==> r[k].id in Ids(events0)
    decreases |tasks|
  {
    if tasks == [] then []
    else PriorityEdits(tasks[..|tasks| - 1], id, events0) + PriorityEditFor(tasks[|tasks| - 1], id, events0)
  }

  /** The queued `setEvents(prev => updateEvent(prev, e))` updates, applied in
      order. */
  function ApplyEdits(events: seq<Event>, edits: seq<Event>): (r: seq<Event>)
    ensures |r| == |events|
    ensures forall i :: 0 <= i < |r| ==> r[i].id == events[i].id
    decreases |edits|
  {
    if edits == [] then events
    else UpdateEvent(ApplyEdits(events, edits[..|edits| - 1]), edits[|edits| - 1])
  }

  lemma ApplyEditsStep(events: seq<Event>, edits: seq<Event>, more: seq<Event>)
    requires |more| <= 1
    ensures ApplyEdits(events, edits + more)
         == if more == [] then ApplyEdits(events, edits) else UpdateEvent(ApplyEdits(events, edits), more[0])
  {
    if more == [] {
      assert edits + more == edits;
    } else {
      assert (edits + more)[..|edits|] == edits;
    }
  }

  /** Applying two runs of edits is applying the first, then the second. */
  lemma {:induction false} ApplyEditsConcat(events: seq<Event>, a: seq<Event>, b: seq<Event>)
    ensures ApplyEdits(events, a + b) == ApplyEdits(ApplyEdits(events, a), b)
    decreases |b|
  {
    if b == [] {
      assert a + b == a;
    } else {
      var b' := b[..|b| - 1];
      assert (a + b)[..|a + b| - 1] == a + b';
      assert (a + b)[|a + b| - 1] == b[|b| - 1];
      ApplyEditsConcat(events, a, b');
    }
  }

  /** One more task of the `tasks.map` callback: its toggled copy is
      appended, and its `editEvent` call, if it makes one, is applied after
      the earlier ones. */
  lemma TogglePriorityStep(ts: seq<Task>, i: nat, id: string, events0: seq<Event>)
    requires i < |ts|
    ensures ToggledPriority(ts[..i + 1], id) == ToggledPriority(ts[..i], id) + [TogglePriorityOf(ts[i], id)]
    ensures ApplyEdits(events0, PriorityEdits(ts[..i + 1], id, events0))
         == ApplyEdits(ApplyEdits(events0, PriorityEdits(ts[..i], id, events0)), PriorityEditFor(ts[i], id, events0))
  {
    ToggledPriorityStep(ts, i, id);
    PriorityEditsStep(ts, i, id, events0);
  }

  lemma ToggledPriorityStep(ts: seq<Task>, i: nat, id: string)
    requires i < |ts|
    ensures ToggledPriority(ts[..i + 1], id) == ToggledPriority(ts[..i], id) + [TogglePriorityOf(ts[i], id)]
  {
    var a, b := ToggledPriority(ts[..i + 1], id), ToggledPriority(ts[..i], id) + [TogglePriorityOf(ts[i], id)];
    assert |a| == |b|;
    forall k | 0 <= k < |a| ensures a[k] == b[k] {
      assert ts[..i + 1][k] == ts[k];
    }
  }

  lemma PriorityEditsStep(ts: seq<Task>, i: nat, id: string, events0: seq<Event>)
    requires i < |ts|
    ensures ApplyEdits(events0, PriorityEdits(ts[..i + 1], id, events0))
         == ApplyEdits(ApplyEdits(events0, PriorityEdits(ts[..i], id, events0)), PriorityEditFor(ts[i], id, events0))
  {
    assert ts[..i + 1][..i] == ts[..i];
    assert PriorityEdits(ts[..i + 1], id, events0)
        == PriorityEdits(ts[..i], id, events0) + PriorityEditFor(ts[i], id, events0);
    ApplyEditsConcat(events0, PriorityEdits(ts[..i], id, events0), PriorityEditFor(ts[i], id, events0));
  }

  /** When no task but the one at `k` has the id, the toggle issues just that
      task's edit. */
  lemma {:induction false} PriorityEditsUnique(tasks: seq<Task>, id: string, events0: seq<Event>, k: nat, n: nat)
    requires k < |tasks| && n <= |tasks|
    requires forall i :: 0 <= i < |tasks| && tasks[i].id == id ==> i == k
    ensures PriorityEdits(tasks[..n], id, events0)
         == if k < n then PriorityEditFor(tasks[k], id, events0) else []
  {
    if n > 0 {
      PriorityEditsUnique(tasks, id, events0, k, n - 1);
      assert tasks[..n][..n - 1] == tasks[..n - 1];
      if n - 1 != k {
        assert tasks[n - 1].id != id;
      }
    }
  }

  /** With ids unique on both sides, toggling a linked task whose event
      exists changes only that event's type, to the mapped new priority. */
  lemma TogglePriorityRetypesLinkedEvent(tasks: seq<Task>, id: string, events: seq<Event>, k: nat, j: nat)
    requires k < |tasks| && tasks[k].id == id
    requires forall i :: 0 <= i < |tasks| && tasks[i].id == id ==> i == k
    requires DistinctIds(events) && j < |events|
    requires IsLinked(tasks[k]) && tasks[k].eventId.value == events[j].id
    ensures ApplyEdits(events, PriorityEdits(tasks, id, events))
         == events[j := events[j].(kind := PriorityToType(NextPriority(tasks[k].priority)))]
  {
    PriorityEditsUnique(tasks, id, events, k, |tasks|);
    assert tasks[..|tasks|] == tasks;
    FindEventAt(events, j);
    var e := events[j].(kind := PriorityToType(NextPriority(tasks[k].priority)));
    ApplyEditsStep(events, [], [e]);
    UpdateAt(events, j, e);
  }

  /** When every task with the id is unlinked or names an event that does
      not exist, the toggle issues no edit. */
  lemma {:induction false} NoPriorityEdits(tasks: seq<Task>, id: string, events: seq<Event>)
    requires forall i :: 0 <= i < |tasks| && tasks[i].id == id ==>
      !IsLinked(tasks[i]) || tasks[i].eventId.value !in Ids(events)
    ensures PriorityEdits(tasks, id, events) == []
    decreases |tasks|
  {
    if tasks != [] {
      NoPriorityEdits(tasks[..|tasks| - 1], id, events);
    }
  }

  /** A dangling `eventId`, or none, on every task with the id leaves the
      events as they were. */
  lemma TogglePriorityDanglingKeepsEvents(tasks: seq<Task>, id: string, events: seq<Event>)
    requires forall i :: 0 <= i < |tasks| && tasks[i].id == id ==>
      !IsLinked(tasks[i]) || tasks[i].eventId.value !in Ids(events)
    ensures ApplyEdits(events, PriorityEdits(tasks, id, events)) == events
  {
    NoPriorityEdits(tasks, id, events);
  }

  function TaskIdIs(id: string): Task -> bool
  {
    (t: Task) => t.id == id
  }

  function TaskIdIsNot(id: string): Task -> bool
  {
    (t: Task) => t.id != id
  }

  /** `tasks.find(task => task.id === id)`. */
  function FindTask(tasks: seq<Task>, id: string): (r: Option<Task>)
    ensures r.None? <==> forall t :: t in tasks ==> t.id != id
    ensures r.Some? ==> r.value in tasks && r.value.id == id
    ensures r.Some? ==> exists k :: 0 <= k < |tasks| && tasks[k] == r.value
                                    && forall i :: 0 <= i < k ==> tasks[i].id != id
  {
    Find(tasks, TaskIdIs(id))
  }

  /** The tasks left by `handleDeleteTask`. */
  function TasksAfterDelete(tasks: seq<Task>, id: string): (r: seq<Task>)
    ensures Selects(r, tasks, TaskIdIsNot(id))
  {
    FilterSelects(tasks, TaskIdIsNot(id));
    Filter(tasks, TaskIdIsNot(id))
  }

  /** The events left by `handleDeleteTask`: the first task with the id
      takes its linked event with it. */
  function EventsAfterDelete(tasks: seq<Task>, events: seq<Event>, id: string): (r: seq<Event>)
    ensures IsSubsequence(r, events)
    ensures FindTask(tasks, id).None? ==> r == events
  {
    SubsequenceRefl(events);
    match FindTask(tasks, id)
    case Some(t) => if IsLinked(t) then DeleteEvent(events, t.eventId.value) else events
    case None => events
  }

  /** `k` is the index of the first task with the id. */
  ghost predicate FirstWithId(tasks: seq<Task>, id: string, k: int)
  {
    0 <= k < |tasks| && tasks[k].id == id && forall i :: 0 <= i < k ==> tasks[i].id != id
  }

  lemma FirstWithIdUnique(tasks: seq<Task>, id: string, k: int, k0: int)
    requires FirstWithId(tasks, id, k) && FirstWithId(tasks, id, k0)
    ensures k == k0
  {
  }

  /** The delete cascade: no task with the id survives, the other tasks stay
      in order; the linked event of the first task with the id is gone, the
      other events stay in order; when that task has no link or a dangling
      one, or no task has the id, no event changes. */
  lemma DeleteCascade(tasks: seq<Task>, events: seq<Event>, id: string)
    ensures forall t :: t in TasksAfterDelete(tasks, id) ==> t.id != id
    ensures forall t :: t in tasks && t.id != id ==> t in TasksAfterDelete(tasks, id)
    ensures forall k :: FirstWithId(tasks, id, k) && IsLinked(tasks[k]) ==>
      EventsAfterDelete(tasks, events, id) == DeleteEvent(events, tasks[k].eventId.value)
    ensures forall k :: FirstWithId(tasks, id, k) && (!IsLinked(tasks[k]) || tasks[k].eventId.value !in Ids(events)) ==>
      EventsAfterDelete(tasks, events, id) == events
    ensures (forall t :: t in tasks ==> t.id != id) ==> EventsAfterDelete(tasks, events, id) == events
  {
    var r := TasksAfterDelete(tasks, id);
    forall t | t in tasks && t.id != id ensures t in r {
      assert multiset(r)[t] == multiset(tasks)[t];
    }
    match FindTask(tasks, id)
    case Some(t) =>
      var k0 :| 0 <= k0 < |tasks| && tasks[k0] == t && forall i :: 0 <= i < k0 ==> tasks[i].id != id;
      forall k | FirstWithId(tasks, id, k) ensures k == k0 {
        FirstWithIdUnique(tasks, id, k, k0);
      }
      if IsLinked(t) && t.eventId.value !in Ids(events) {
        DeleteAbsentIsNoop(events, t.eventId.value);
      }
    case None =>
      forall k | FirstWithId(tasks, id, k) ensures tasks[k] in tasks {
      }
  }

  /** With unique task ids, looking a task's id up finds that task. */
  lemma FindTaskUnique(tasks: seq<Task>, t: Task)
    requires forall i, j :: 0 <= i < j < |tasks| ==> tasks[i].id != tasks[j].id
    requires t in tasks
    ensures FindTask(tasks, t.id) == Some(t)
  {
    var d := FindTask(tasks, t.id).value;
    var a :| 0 <= a < |tasks| && tasks[a] == d;
    var b :| 0 <= b < |tasks| && tasks[b] == t;
    assert a == b;
  }

  /** With unique task ids, deleting a task from a synced state leaves a
      synced state: the next mirror pass does not bring it back. */
  lemma DeleteKeepsSynced(tasks: seq<Task>, events: seq<Event>, id: string)
    requires forall i, j :: 0 <= i < j < |tasks| ==> tasks[i].id != tasks[j].id
    requires Synced(tasks, events)
    ensures Synced(TasksAfterDelete(tasks, id), EventsAfterDelete(tasks, events, id))
  {
    forall e | e in EventsAfterDelete(tasks, events, id) ensures e.id in LinkedIds(TasksAfterDelete(tasks, id)) {
      assert e in events;
      var t :| t in tasks && IsLinked(t) && t.eventId.value == e.id;
      SurvivorKeepsLink(tasks, events, id, e, t);
    }
  }

  /** An event that survives the delete is still referenced by the task that
      referenced it, which cannot be the deleted one. */
  lemma SurvivorKeepsLink(tasks: seq<Task>, events: seq<Event>, id: string, e: Event, t: Task)
    requires forall i, j :: 0 <= i < j < |tasks| ==> tasks[i].id != tasks[j].id
    requires e in EventsAfterDelete(tasks, events, id)
    requires t in tasks && IsLinked(t) && t.eventId.value == e.id
    ensures e.id in LinkedIds(TasksAfterDelete(tasks, id))
  {
    var ts := TasksAfterDelete(tasks, id);
    FindTaskUnique(tasks, t);
    assert e.id in Ids(EventsAfterDelete(tasks, events, id));
    assert multiset(ts)[t] == multiset(tasks)[t];
    assert t in ts;
  }

  /** The event "add to calendar" creates; `new Date(dueDate)` is midnight of
      the due day. */
  function CalendarDraft(task: Task): (d: EventDraft)
    requires HasDueDate(task)
    ensures d.title == task.title && d.kind == PriorityToType(task.priority)
    ensures d.start == Midnight(task.dueDate.day) && d.end == d.start + MsPerHour
    ensures d.description == task.notes && d.location == Some("")
  {
    EventDraft(task.title, Midnight(task.dueDate.day), Midnight(task.dueDate.day) + MsPerHour,
               PriorityToType(task.priority), Some(""), task.notes)
  }

  /** "Add to calendar" gets past its two guards. */
  predicate AddToCalendarProceeds(task: Task)
  {
    HasDueDate(task) && !IsLinked(task)
  }

  /** The toast "add to calendar" shows. */
  datatype CalendarOutcome = NoDueDate | AlreadyLinked | AddedToCalendar

  function AddToCalendarOutcome(task: Task): (r: CalendarOutcome)
    ensures r == AddedToCalendar <==> AddToCalendarProceeds(task)
    ensures r == NoDueDate <==> !HasDueDate(task)
  {
    if !HasDueDate(task) then NoDueDate
    else if IsLinked(task) then AlreadyLinked
    else AddedToCalendar
  }

  function LinkTask(tasks: seq<Task>, id: string, eventId: string): (r: seq<Task>)
    ensures |r| == |tasks|
    ensures forall i :: 0 <= i < |r| ==> r[i] == tasks[i].(eventId := r[i].eventId)
    ensures forall i :: 0 <= i < |r| && tasks[i].id == id ==> IsLinked(r[i]) || eventId == ""
    ensures forall i :: 0 <= i < |r| && tasks[i].id == id ==> r[i].eventId == Some(eventId)
    ensures forall i :: 0 <= i < |r| && tasks[i].id != id ==> r[i] == tasks[i]
  {
    seq(|tasks|, i requires 0 <= i < |tasks| =>
      if tasks[i].id == id then tasks[i].(eventId := Some(eventId)) else tasks[i])
  }

  lemma LinkedIdsAfterLink(tasks: seq<Task>, id: string, eventId: string)
    requires eventId != ""
    requires exists t :: t in tasks && t.id == id
    ensures LinkedIds(LinkTask(tasks, id, eventId))
         == (set t | t in tasks && IsLinked(t) && t.id != id :: t.eventId.value) + {eventId}
  {
    var r := LinkTask(tasks, id, eventId);
    var t0 :| t0 in tasks && t0.id == id;
    var k :| 0 <= k < |tasks| && tasks[k] == t0;
    assert r[k] in r;
    forall x | x in LinkedIds(r)
      ensures x in (set t | t in tasks && IsLinked(t) && t.id != id :: t.eventId.value) + {eventId}
    {
      var t :| t in r && IsLinked(t) && t.eventId.value == x;
      var i :| 0 <= i < |r| && r[i] == t;
      assert tasks[i] in tasks;
    }
    forall t | t in tasks && IsLinked(t) && t.id != id ensures t.eventId.value in LinkedIds(r) {
      var i :| 0 <= i < |tasks| && tasks[i] == t;
      assert r[i] in r;
    }
  }

  /** As written, "add to calendar" links the task to the id of the event
      that was last before the append: the new event, under a fresh id, is
      left unreferenced, so the next mirror pass makes a second task for
      it. */
  lemma StaleLinkLeavesNewEventUnmirrored(tasks: seq<Task>, events: seq<Event>, task: Task, freshId: string)
    requires AddToCalendarProceeds(task) && |events| > 0
    requires freshId !in Ids(events) && freshId !in LinkedIds(tasks)
    ensures var events' := CreateEvent(events, CalendarDraft(task), freshId);
      var tasks' := LinkTask(tasks, task.id, events[|events| - 1].id);
      && events[|events| - 1].id != freshId
      && Unmirrored(tasks', events') == Unmirrored(tasks', events) + [WithId(CalendarDraft(task), freshId)]
  {
    var last := events[|events| - 1];
    assert last in events;
    var tasks' := LinkTask(tasks, task.id, last.id);
    var created := WithId(CalendarDraft(task), freshId);
    assert freshId !in LinkedIds(tasks') by {
      forall t | t in tasks' && IsLinked(t) ensures t.eventId.value != freshId {
        var i :| 0 <= i < |tasks'| && tasks'[i] == t;
        assert tasks[i] in tasks;
      }
    }
    FilterConcat(events, [created], NotLinkedBy(tasks'));
    assert [created][1..] == [];
  }

  /** Corrected "add to calendar", linking to the created event's own id:
      from a synced state it leaves a synced state, so the mirror adds no
      duplicate task. */
  lemma FreshLinkKeepsSynced(tasks: seq<Task>, events: seq<Event>, task: Task, freshId: string)
    requires AddToCalendarProceeds(task) && freshId != ""
    requires exists t :: t in tasks && t.id == task.id
    requires forall t :: t in tasks && t.id == task.id ==> !IsLinked(t)
    requires Synced(tasks, events)
    ensures Synced(LinkTask(tasks, task.id, freshId), CreateEvent(events, CalendarDraft(task), freshId))
  {
    var tasks' := LinkTask(tasks, task.id, freshId);
    var events' := CreateEvent(events, CalendarDraft(task), freshId);
    LinkedIdsAfterLink(tasks, task.id, freshId);
    forall e | e in events' ensures e.id in LinkedIds(tasks') {
      if e in events {
        var t :| t in tasks && IsLinked(t) && t.eventId.value == e.id;
        assert t.id != task.id;
      } else {
        assert e == events'[|events|];
      }
    }
  }

  function ReplaceTask(tasks: seq<Task>, u: Task): (r: seq<Task>)
    ensures |r| == |tasks|
    ensures forall i :: 0 <= i < |tasks| ==> r[i] == if tasks[i].id == u.id then u else tasks[i]
  {
    seq(|tasks|, i requires 0 <= i < |tasks| => if tasks[i].id == u.id then u else tasks[i])
  }

  /** The linked event as `handleUpdateTask` rewrites it: title, type,
      description and a one-hour slot from midnight of the due day, or from
      `now` when the due date is missing or empty. */
  function RetimedEvent(ev: Event, u: Task, now: int): (r: Event)
    ensures r.id == ev.id && r.location == ev.location
    ensures r.title == u.title && r.kind == PriorityToType(u.priority) && r.description == u.notes
    ensures r.start == (if HasDueDate(u) then Midnight(u.dueDate.day) else now)
    ensures r.end == r.start + MsPerHour
  {
    var start := if HasDueDate(u) then Midnight(u.dueDate.day) else now;
    ev.(title := u.title, kind := PriorityToType(u.priority), description := u.notes,
        start := start, end := start + MsPerHour)
  }

  /** The events left by `handleUpdateTask`. */
  function EventsAfterUpdate(events: seq<Event>, u: Task, now: int): (r: seq<Event>)
    ensures |r| == |events|
    ensures forall i :: 0 <= i < |r| ==> r[i].id == events[i].id
    ensures !IsLinked(u) ==> r == events
  {
    if IsLinked(u) then
      match FindEvent(events, u.eventId.value)
      case Some(ev) => UpdateEvent(events, RetimedEvent(ev, u, now))
      case None => events
    else events
  }

  /** With distinct event ids, updating a task rewrites its linked event and
      no other; with no link, or a dangling one, no event changes. */
  lemma UpdatePropagates(events: seq<Event>, u: Task, now: int)
    requires DistinctIds(events)
    ensures IsLinked(u) && u.eventId.value in Ids(events) ==>
      exists j :: 0 <= j < |events| && events[j].id == u.eventId.value
        && EventsAfterUpdate(events, u, now) == events[j := RetimedEvent(events[j], u, now)]
    ensures !IsLinked(u) || u.eventId.value !in Ids(events) ==>
      EventsAfterUpdate(events, u, now) == events
  {
    if IsLinked(u) && u.eventId.value in Ids(events) {
      var j :| 0 <= j < |events| && events[j].id == u.eventId.value;
      FindEventAt(events, j);
      UpdateAt(events, j, RetimedEvent(events[j], u, now));
    }
  }

  /** The persisted list as the mount effect finds it. */
  datatype Saved = NothingSaved | Unparsable | Parsed(tasks: seq<Task>)

  /** The fail-soft load: a parsed list replaces the tasks, a corrupt one
      empties them, a missing (or empty) entry leaves them as they were. */
  function Restored(current: seq<Task>, saved: Saved): (r: seq<Task>)
    ensures saved.Parsed? ==> r == saved.tasks
    ensures saved.Unparsable? ==> r == []
    ensures saved.NothingSaved? ==> r == current
  {
    match saved
    case NothingSaved => current
    case Unparsable => []
    case Parsed(ts) => ts
  }

  // ---------------------------------------------------------------------
  // The hook's state

  class TaskBoard {
    const calendar: CalendarProvider
    var tasks: seq<Task>
    var filter: TaskFilter
    var isEditingTask: bool
    var currentTask: Option<Task>

    constructor (calendar: CalendarProvider)
      ensures this.calendar == calendar
      ensures tasks == [] && filter == ShowAll && !isEditingTask && currentTask == None
    {
      this.calendar := calendar;
      tasks := [];
      filter := ShowAll;
      isEditingTask := false;
      currentTask := None;
    }

    /** The mount effect reading local storage. */
    method LoadSaved(saved: Saved)
      modifies this
      ensures tasks == Restored(old(tasks), saved)
      ensures filter == old(filter) && isEditingTask == old(isEditingTask) && currentTask == old(currentTask)
    {
      tasks := Restored(tasks, saved);
    }

    /** The mirror effect; `added` is the count its toast reports. */
    method Mirror() returns (added: nat)
      modifies this
      ensures tasks == Mirrored(old(tasks), calendar.events)
      ensures added == |Unmirrored(old(tasks), calendar.events)|
      ensures filter == old(filter) && isEditingTask == old(isEditingTask) && currentTask == old(currentTask)
    {
      var newEvents := Unmirrored(tasks, calendar.events);
      added := |newEvents|;
      if added > 0 {
        tasks := tasks + MirrorTasks(newEvents);
      }
    }

    method SetFilter(f: TaskFilter)
      modifies this
      ensures filter == f
      ensures tasks == old(tasks) && isEditingTask == old(isEditingTask) && currentTask == old(currentTask)
    {
      filter := f;
    }

    /** `handleAddTask`; `id` stands for `task-<Date.now()>`. */
    method HandleAddTask(id: string, title: string)
      modifies this
      ensures tasks == old(tasks) + [NewTask(id, title)]
      ensures filter == old(filter) && isEditingTask == old(isEditingTask) && currentTask == old(currentTask)
    {
      tasks := tasks + [NewTask(id, title)];
    }

    method HandleToggleComplete(id: string)
      modifies this
      ensures tasks == ToggledComplete(old(tasks), id)
      ensures filter == old(filter) && isEditingTask == old(isEditingTask) && currentTask == old(currentTask)
    {
      tasks := ToggledComplete(tasks, id);
    }

    /** The `tasks.map` callback of `handleTogglePriority`
        (useTasks.tsx:105-125): a matching task moves one step along the
        cycle and, when its truthy `eventId` names an event among those of
        this render, `editEvent` retypes that event. */
    method TogglePriorityCallback(t: Task, id: string, events0: seq<Event>) returns (r: Task)
      modifies calendar
      ensures r == TogglePriorityOf(t, id)
      ensures calendar.events == ApplyEdits(old(calendar.events), PriorityEditFor(t, id, events0))
      ensures calendar.selectedDate == old(calendar.selectedDate) && calendar.view == old(calendar.view)
    {
      r := t;
      if t.id == id {
        var next := NextPriority(t.priority);
        if IsLinked(t) {
          var found := FindEvent(events0, t.eventId.value);
          if found.Some? {
            calendar.EditEvent(found.value.(kind := PriorityToType(next)));
            ApplyEditsStep(old(calendar.events), [], [found.value.(kind := PriorityToType(next))]);
          }
        }
        r := t.(priority := next);
      }
    }

    /** `handleTogglePriority`: the callback runs once per task, in order,
        against the events of this render. */
    method HandleTogglePriority(id: string)
      modifies this, calendar
      ensures tasks == ToggledPriority(old(tasks), id)
      ensures calendar.events == ApplyEdits(old(calendar.events), PriorityEdits(old(tasks), id, old(calendar.events)))
      ensures calendar.selectedDate == old(calendar.selectedDate) && calendar.view == old(calendar.view)
      ensures filter == old(filter) && isEditingTask == old(isEditingTask) && currentTask == old(currentTask)
    {
      var ts := tasks;
      var events0 := calendar.events;
      var out: seq<Task> := [];
      for i := 0 to |ts|
        invariant tasks == ts && filter == old(filter)
        invariant isEditingTask == old(isEditingTask) && currentTask == old(currentTask)
        invariant out == ToggledPriority(ts[..i], id)
        invariant calendar.events == ApplyEdits(events0, PriorityEdits(ts[..i], id, events0))
        invariant calendar.selectedDate == old(calendar.selectedDate) && calendar.view == old(calendar.view)
      {
        TogglePriorityStep(ts, i, id, events0);
        var t := TogglePriorityCallback(ts[i], id, events0);
        out := out + [t];
      }
      assert ts[..|ts|] == ts;
      tasks := out;
    }

    /** `handleDeleteTask`. */
    method HandleDeleteTask(id: string)
      modifies this, calendar
      ensures tasks == TasksAfterDelete(old(tasks), id)
      ensures calendar.events == EventsAfterDelete(old(tasks), old(calendar.events), id)
      ensures calendar.selectedDate == old(calendar.selectedDate) && calendar.view == old(calendar.view)
      ensures filter == old(filter) && isEditingTask == old(isEditingTask) && currentTask == old(currentTask)
    {
      var toDelete := FindTask(tasks, id);
      if toDelete.Some? && IsLinked(toDelete.value) {
        calendar.RemoveEvent(toDelete.value.eventId.value);
      }
      tasks := TasksAfterDelete(tasks, id);
    }

    /** `handleAddToCalendar` as written: after `addEvent`, the task is
        linked to `events[events.length - 1]` of this render's events, the
        event that was last before the append. With no events at all that
        read throws, hence the precondition on the proceeding path. */
    method HandleAddToCalendar(task: Task, freshId: string) returns (outcome: CalendarOutcome)
      requires AddToCalendarProceeds(task) ==> |calendar.events| > 0
      modifies this, calendar
      ensures outcome == AddToCalendarOutcome(task)
      ensures !AddToCalendarProceeds(task) ==> tasks == old(tasks) && calendar.events == old(calendar.events)
      ensures AddToCalendarProceeds(task) ==>
        && calendar.events == CreateEvent(old(calendar.events), CalendarDraft(task), freshId)
        && tasks == LinkTask(old(tasks), task.id, old(calendar.events)[|old(calendar.events)| - 1].id)
      ensures calendar.selectedDate == old(calendar.selectedDate) && calendar.view == old(calendar.view)
      ensures filter == old(filter) && isEditingTask == old(isEditingTask) && currentTask == old(currentTask)
    {
      if !HasDueDate(task) {
        return NoDueDate;
      }
      if IsLinked(task) {
        return AlreadyLinked;
      }
      var staleEvents := calendar.events;
      calendar.AddEvent(CalendarDraft(task), freshId);
      var createdEvent := staleEvents[|staleEvents| - 1];
      tasks := LinkTask(tasks, task.id, createdEvent.id);
      outcome := AddedToCalendar;
    }

    /** Corrected `handleAddToCalendar`: the task is linked to the id of the
        event just created. */
    method HandleAddToCalendarFixed(task: Task, freshId: string) returns (outcome: CalendarOutcome)
      modifies this, calendar
      ensures outcome == AddToCalendarOutcome(task)
      ensures !AddToCalendarProceeds(task) ==> tasks == old(tasks) && calendar.events == old(calendar.events)
      ensures AddToCalendarProceeds(task) ==>
        && calendar.events == CreateEvent(old(calendar.events), CalendarDraft(task), freshId)
        && tasks == LinkTask(old(tasks), task.id, freshId)
      ensures calendar.selectedDate == old(calendar.selectedDate) && calendar.view == old(calendar.view)
      ensures filter == old(filter) && isEditingTask == old(isEditingTask) && currentTask == old(currentTask)
    {
      if !HasDueDate(task) {
        return NoDueDate;
      }
      if IsLinked(task) {
        return AlreadyLinked;
      }
      calendar.AddEvent(CalendarDraft(task), freshId);
      tasks := LinkTask(tasks, task.id, freshId);
      outcome := AddedToCalendar;
    }

    /** `handleEditTask`: opens the editor on a task. */
    method HandleEditTask(task: Task)
      modifies this
      ensures currentTask == Some(task) && isEditingTask
      ensures tasks == old(tasks) && filter == old(filter)
    {
      currentTask := Some(task);
      isEditingTask := true;
    }

    /** `handleUpdateTask`; `now` stands for `new Date()`. */
    method HandleUpdateTask(u: Task, now: int)
      modifies this, calendar
      ensures tasks == ReplaceTask(old(tasks), u)
      ensures calendar.events == EventsAfterUpdate(old(calendar.events), u, now)
      ensures !isEditingTask && currentTask == None
      ensures calendar.selectedDate == old(calendar.selectedDate) && calendar.view == old(calendar.view)
      ensures filter == old(filter)
    {
      tasks := ReplaceTask(tasks, u);
      if IsLinked(u) {
        var found := FindEvent(calendar.events, u.eventId.value);
        if found.Some? {
          calendar.EditEvent(RetimedEvent(found.value, u, now));
        }
      }
      isEditingTask := false;
      currentTask := None;
    }
  }
}
