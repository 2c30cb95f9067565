/** The event store's pure operations (src/services/calendarService.ts):
    every operation returns a new list and never mutates its argument. */
module CalendarService {
  import opened Wrappers
  import opened Seqs
  import opened Clock

  datatype EventType = Work | Personal | Focus | Other

  /** `CalendarEvent`; `start` and `end` are timestamps (see module Clock). */
  datatype Event = Event(
    id: string,
    title: string,
    start: int,
    end: int,
    kind: EventType,
    location: Option<string>,
    description: Option<string>)

  /** `Omit<CalendarEvent, "id">`: what a caller hands to `createEvent`. */
  datatype EventDraft = EventDraft(
    title: string,
    start: int,
    end: int,
    kind: EventType,
    location: Option<string>,
    description: Option<string>)

  function WithId(d: EventDraft, id: string): Event
  {
    Event(id, d.title, d.start, d.end, d.kind, d.location, d.description)
  }

  function Ids(events: seq<Event>): set<string>
  {
    set e | e in events :: e.id
  }

  ghost predicate DistinctIds(events: seq<Event>)
  {
    forall i, j :: 0 <= i < j < |events| ==> events[i].id != events[j].id
  }

  function IdIs(id: string): Event -> bool
  {
    (e: Event) => e.id == id
  }

  function IdIsNot(id: string): Event -> bool
  {
    (e: Event) => e.id != id
  }

  /** `createEvent`: the new event, carrying `freshId` (the source draws it
      from `Math.random`), goes at the end. */
  function CreateEvent(events: seq<Event>, draft: EventDraft, freshId: string): (r: seq<Event>)
    ensures |r| == |events| + 1 && r[..|events|] == events
    ensures r[|events|].id == freshId
    ensures r[|events|] == WithId(draft, freshId)
  {
    events + [WithId(draft, freshId)]
  }

  /** `updateEvent`: every event whose id matches is replaced by `e`. */
  function UpdateEvent(events: seq<Event>, e: Event): (r: seq<Event>)
    ensures |r| == |events|
    ensures forall i :: 0 <= i < |r| && events[i].id != e.id ==> r[i] == events[i]
    ensures forall i :: 0 <= i < |r| && events[i].id == e.id ==> r[i] == e
  {
    seq(|events|, i requires 0 <= i < |events| => if events[i].id == e.id then e else events[i])
  }

  /** `deleteEvent`: drops every event with the id, keeping the rest in order. */
  function DeleteEvent(events: seq<Event>, id: string): (r: seq<Event>)
    ensures Selects(r, events, IdIsNot(id))
    ensures id !in Ids(r)
  {
    FilterSelects(events, IdIsNot(id));
    Filter(events, IdIsNot(id))
  }

  /** `events.find(event => event.id === id)`: the first event with the id. */
  function FindEvent(events: seq<Event>, id: string): (r: Option<Event>)
    ensures r.None? <==> id !in Ids(events)
    ensures r.Some? ==> r.value in events && r.value.id == id
    ensures r.Some? ==> exists k :: 0 <= k < |events| && events[k] == r.value
                                    && forall i :: 0 <= i < k ==> events[i].id != id
  {
    var r := Find(events, IdIs(id));
    assert id in Ids(events) ==> exists i :: 0 <= i < |events| && IdIs(id)(events[i]) by {
      if id in Ids(events) {
        var e :| e in events && e.id == id;
        var i :| 0 <= i < |events| && events[i] == e;
        assert IdIs(id)(events[i]);
      }
    }
    r
  }

  /** With distinct ids, `find` returns the event at the unique matching index. */
  lemma FindEventAt(events: seq<Event>, k: nat)
    requires DistinctIds(events) && k < |events|
    ensures FindEvent(events, events[k].id) == Some(events[k])
  {
    var r := FindEvent(events, events[k].id);
    var j :| 0 <= j < |events| && events[j] == r.value;
    assert j == k;
  }

  /** `updateEvent` is a no-op when no event has the id. */
  lemma UpdateAbsentIsNoop(events: seq<Event>, e: Event)
    requires e.id !in Ids(events)
    ensures UpdateEvent(events, e) == events
  {
    var r := UpdateEvent(events, e);
    forall i | 0 <= i < |events| ensures r[i] == events[i] {
      assert events[i] in events;
    }
  }

  /** `updateEvent` applied twice with the same event changes nothing more. */
  lemma UpdateIdempotent(events: seq<Event>, e: Event)
    ensures UpdateEvent(UpdateEvent(events, e), e) == UpdateEvent(events, e)
  {
  }

  /** With distinct ids, updating with a copy of the event at `k` changes
      that one position only. */
  lemma UpdateAt(events: seq<Event>, k: nat, e: Event)
    requires DistinctIds(events) && k < |events| && e.id == events[k].id
    ensures UpdateEvent(events, e) == events[k := e]
    ensures DistinctIds(UpdateEvent(events, e))
  {
  }

  /** `deleteEvent` is a no-op when no event has the id. */
  lemma DeleteAbsentIsNoop(events: seq<Event>, id: string)
    requires id !in Ids(events)
    ensures DeleteEvent(events, id) == events
  {
    forall i | 0 <= i < |events| ensures IdIsNot(id)(events[i]) {
      assert events[i] in events;
    }
    FilterKeepsAll(events, IdIsNot(id));
  }

  /** Deleting twice is deleting once. */
  lemma DeleteIdempotent(events: seq<Event>, id: string)
    ensures DeleteEvent(DeleteEvent(events, id), id) == DeleteEvent(events, id)
  {
    FilterIdempotent(events, IdIsNot(id));
  }

  /** Creating an event under a fresh id and deleting that id restores the
      list. */
  lemma DeleteUndoesCreate(events: seq<Event>, draft: EventDraft, freshId: string)
    requires freshId !in Ids(events)
    ensures DeleteEvent(CreateEvent(events, draft, freshId), freshId) == events
  {
    FilterConcat(events, [WithId(draft, freshId)], IdIsNot(freshId));
    DeleteAbsentIsNoop(events, freshId);
  }

  function StartsOn(day: int): Event -> bool
  {
    (e: Event) => DayOf(e.start) == day
  }

  function StartsWithin(lo: int, hi: int): Event -> bool
  {
    (e: Event) => lo <= e.start <= hi
  }

  /** `getEventsForDay`: the events starting on the day, in store order. */
  function EventsForDay(events: seq<Event>, day: int): (r: seq<Event>)
    ensures Selects(r, events, StartsOn(day))
  {
    FilterSelects(events, StartsOn(day));
    Filter(events, StartsOn(day))
  }

  /** `getEventsForWeek`: the events starting between `startOfWeek(t)` and
      `endOfWeek(t)`, both ends included, in store order. */
  function EventsForWeek(events: seq<Event>, t: int): (r: seq<Event>)
    ensures Selects(r, events, StartsWithin(StartOfWeek(t), EndOfWeek(t)))
  {
    FilterSelects(events, StartsWithin(StartOfWeek(t), EndOfWeek(t)));
    Filter(events, StartsWithin(StartOfWeek(t), EndOfWeek(t)))
  }

  /** The inclusive millisecond range of a week is exactly its seven days,
      Sunday to Saturday. */
  lemma WeekIsSevenDays(t: int, x: int)
    ensures StartOfWeek(t) <= x <= EndOfWeek(t)
        <==> WeekStartDay(DayOf(t)) <= DayOf(x) < WeekStartDay(DayOf(t)) + 7
  {
    var s := WeekStartDay(DayOf(t));
    DayOfWindow(x, DayOf(x));
    if DayOf(x) < s {
      assert Midnight(DayOf(x)) <= Midnight(s - 1);
    } else if DayOf(x) >= s + 7 {
      assert Midnight(DayOf(x)) >= Midnight(s + 7);
    }
  }

  /** `generateMockEvents(baseDate)`: eight fixed events on the Monday to
      Friday of the week holding `baseDate`. */
  function MockEvents(base: int): (r: seq<Event>)
    ensures |r| == 8
    ensures forall i :: 0 <= i < |r| ==>
      WeekStartDay(DayOf(base)) + 1 <= DayOf(r[i].start) <= WeekStartDay(DayOf(base)) + 5
  {
    var d := WeekStartDay(DayOf(base));
    [ Event("1", "Team Meeting", At(d + 1, 10, 0), At(d + 1, 11, 0), Work,
            Some("Conference Room A"), Some("Weekly team sync meeting")),
      Event("2", "Project Planning", At(d + 1, 14, 0), At(d + 1, 15, 30), Work,
            Some("Virtual"), Some("Planning session for Q2 roadmap")),
      Event("3", "Gym Session", At(d + 2, 18, 0), At(d + 2, 19, 30), Personal,
            Some("City Gym"), None),
      Event("4", "Deep Work: Report", At(d + 3, 9, 0), At(d + 3, 12, 0), Focus,
            None, Some("Focus time for quarterly report")),
      Event("5", "Lunch with Sarah", At(d + 3, 12, 30), At(d + 3, 13, 30), Personal,
            Some("Cafe Central"), None),
      Event("6", "Client Call", At(d + 4, 15, 0), At(d + 4, 16, 0), Work,
            Some("Virtual"), Some("Review progress with client")),
      Event("7", "Deep Work: Code", At(d + 4, 9, 0), At(d + 4, 11, 0), Focus,
            None, Some("Focus time for feature implementation")),
      Event("8", "Dentist Appointment", At(d + 5, 11, 0), At(d + 5, 12, 0), Personal,
            Some("Downtown Dental"), Some("Regular checkup")) ]
  }

  /** The fixture: eight events with the ids "1" to "8", in that order. */
  lemma MockEventsIds(base: int)
    ensures |MockEvents(base)| == 8
    ensures forall i :: 0 <= i < 8 ==> MockEvents(base)[i].id == [('1' as int + i) as char]
    ensures DistinctIds(MockEvents(base))
  {
  }

  /** Every fixture event ends after it starts. */
  lemma MockEventsWellFormed(base: int)
    ensures forall e :: e in MockEvents(base) ==> e.start < e.end
  {
  }

  /** Every fixture event starts on a Monday to Friday of the week of the
      base date, so the week query returns the whole fixture. */
  lemma MockEventsInWeek(base: int)
    ensures forall i :: 0 <= i < |MockEvents(base)| ==>
      var d := WeekStartDay(DayOf(base));
      d + 1 <= DayOf(MockEvents(base)[i].start) <= d + 5
    ensures EventsForWeek(MockEvents(base), base) == MockEvents(base)
  {
    var m := MockEvents(base);
    forall i | 0 <= i < |m|
      ensures StartsWithin(StartOfWeek(base), EndOfWeek(base))(m[i])
    {
      WeekIsSevenDays(base, m[i].start);
    }
    FilterKeepsAll(m, StartsWithin(StartOfWeek(base), EndOfWeek(base)));
  }
}
