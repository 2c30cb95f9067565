/** The dashboard's selectors over the event store (src/pages/Dashboard.tsx).
    `today` is the calendar day of `new Date()`; comparing "yyyy-MM-dd"
    strings is comparing calendar days. */
module Dashboard {
  import opened Seqs
  import opened Clock
  import opened CalendarService

  /** `todayEvents`: the day query for today. */
  function TodayEvents(events: seq<Event>, today: int): (r: seq<Event>)
    ensures Selects(r, events, StartsOn(today))
  {
    EventsForDay(events, today)
  }

  function StartsInNextWeek(today: int): Event -> bool
  {
    (e: Event) => today < DayOf(e.start) <= today + 7
  }

  /** `upcomingEvents`: the events of the next seven days, today excluded,
      first five in store order, unsorted. */
  function UpcomingEvents(events: seq<Event>, today: int): (r: seq<Event>)
    ensures |r| <= 5 && |r| <= |Filter(events, StartsInNextWeek(today))|
    ensures |r| == if |Filter(events, StartsInNextWeek(today))| < 5 then |Filter(events, StartsInNextWeek(today))| else 5
    ensures r == Filter(events, StartsInNextWeek(today))[..|r|]
    ensures |Filter(events, StartsInNextWeek(today))| <= 5 ==> r == Filter(events, StartsInNextWeek(today))
    ensures IsSubsequence(r, events)
    ensures forall e :: e in r ==> e in events && today < DayOf(e.start) <= today + 7
  {
    var all := Filter(events, StartsInNextWeek(today));
    FilterSelects(events, StartsInNextWeek(today));
    var r := Take(all, 5);
    PrefixIsSubsequence(all, |r|);
    SubsequenceTrans(r, all, events);
    assert forall e :: e in r ==> e in all;
    r
  }

  /** No event is both today's and upcoming. */
  lemma TodayAndUpcomingDisjoint(events: seq<Event>, today: int, e: Event)
    requires e in TodayEvents(events, today)
    ensures e !in UpcomingEvents(events, today)
  {
  }

  /** The length of an event, in hours. */
  function Hours(e: Event): real
  {
    (e.end - e.start) as real / 3600000.0
  }

  /** `focusTimeHours`: the summed length of all focus events, whatever
      their date. */
  function FocusHours(events: seq<Event>): (r: real)
    ensures (forall e :: e in events ==> e.kind != Focus) ==> r == 0.0
  {
    if events == [] then 0.0
    else
      assert forall e :: e in events[1..] ==> e in events;
      (if events[0].kind == Focus then Hours(events[0]) else 0.0) + FocusHours(events[1..])
  }

  /** The summed length of the focus events, in milliseconds. */
  function FocusMs(events: seq<Event>): int
  {
    if events == [] then 0
    else (if events[0].kind == Focus then events[0].end - events[0].start else 0) + FocusMs(events[1..])
  }

  /** The hour total is the millisecond total over the length of an hour. */
  lemma {:induction false} FocusHoursIsMs(events: seq<Event>)
    ensures FocusHours(events) == FocusMs(events) as real / 3600000.0
  {
    if events != [] {
      FocusHoursIsMs(events[1..]);
    }
  }

  lemma {:induction false} FocusHoursConcat(a: seq<Event>, b: seq<Event>)
    ensures FocusHours(a + b) == FocusHours(a) + FocusHours(b)
  {
    if a == [] {
      assert a + b == b;
    } else {
      assert (a + b)[1..] == a[1..] + b;
      FocusHoursConcat(a[1..], b);
    }
  }

  /** Only focus events count: dropping the others leaves the total. */
  lemma {:induction false} FocusHoursOnlyFocus(events: seq<Event>)
    ensures FocusHours(events) == FocusHours(Filter(events, (e: Event) => e.kind == Focus))
  {
    if events != [] {
      FocusHoursOnlyFocus(events[1..]);
      FilterCons(events[0], events[1..], (e: Event) => e.kind == Focus);
      assert events == [events[0]] + events[1..];
      if events[0].kind == Focus {
        var rest := Filter(events[1..], (e: Event) => e.kind == Focus);
        assert ([events[0]] + rest)[1..] == rest;
      }
    }
  }

  /** With no event ending before it starts, the total is not negative. */
  lemma {:induction false} FocusHoursNonNegative(events: seq<Event>)
    requires forall e :: e in events ==> e.start <= e.end
    ensures FocusHours(events) >= 0.0
  {
    if events != [] {
      assert events[0] in events;
      assert forall e :: e in events[1..] ==> e in events;
      FocusHoursNonNegative(events[1..]);
    }
  }

  /** The width of the progress bar, in percent of 15 hours:
      `Math.min(hours / 15 * 100, 100)`. */
  function ProgressWidth(hours: real): (w: real)
    ensures w <= 100.0
    ensures w == 100.0 <==> hours >= 15.0
    ensures hours < 15.0 ==> w == hours / 15.0 * 100.0
    ensures hours >= 0.0 ==> w >= 0.0
  {
    if hours / 15.0 * 100.0 < 100.0 then hours / 15.0 * 100.0 else 100.0
  }
}
