/** The day view of the calendar (src/components/calendar/DayView.tsx): the
    selected day's events, split into 24 hour rows by start hour. */
module DayView {
  import opened Seqs
  import opened Clock
  import opened CalendarService

  /** `HOURS`: the row labels 0 to 23. */
  function HourRows(): (r: seq<int>)
    ensures |r| == 24
    ensures forall i :: 0 <= i < 24 ==> r[i] == i
  {
    seq(24, i => i)
  }

  /** `dayEvents`: the day query for the selected instant's day. */
  function DayEvents(events: seq<Event>, selected: int): (r: seq<Event>)
    ensures Selects(r, events, StartsOn(DayOf(selected)))
  {
    EventsForDay(events, DayOf(selected))
  }

  function StartsAtHour(h: int): Event -> bool
  {
    (e: Event) => HourOf(e.start) == h
  }

  /** `getEventsForHour`. */
  function EventsForHour(dayEvents: seq<Event>, h: int): (r: seq<Event>)
    ensures Selects(r, dayEvents, StartsAtHour(h))
  {
    FilterSelects(dayEvents, StartsAtHour(h));
    Filter(dayEvents, StartsAtHour(h))
  }

  /** The rows as rendered, one per entry of `HOURS`. */
  function Rows(dayEvents: seq<Event>): (r: seq<seq<Event>>)
    ensures |r| == 24
    ensures forall h :: 0 <= h < 24 ==> r[h] == EventsForHour(dayEvents, h)
  {
    seq(24, h requires 0 <= h < 24 => EventsForHour(dayEvents, HourRows()[h]))
  }

  /** An event of the day is in exactly one row: the row of its start hour. */
  lemma EachEventInOneRow(dayEvents: seq<Event>, e: Event, h: int)
    requires e in dayEvents && 0 <= h < 24
    ensures e in Rows(dayEvents)[h] <==> h == HourOf(e.start)
  {
    var r := EventsForHour(dayEvents, h);
    if h == HourOf(e.start) {
      assert multiset(r)[e] == multiset(dayEvents)[e];
    }
  }

  /** The number of events in the first `k` rows. */
  function CountUpTo(dayEvents: seq<Event>, k: nat): nat
  {
    if k == 0 then 0 else CountUpTo(dayEvents, k - 1) + |EventsForHour(dayEvents, k - 1)|
  }

  lemma {:induction false} CountCons(x: Event, s: seq<Event>, k: nat)
    ensures CountUpTo([x] + s, k) == CountUpTo(s, k) + (if HourOf(x.start) < k then 1 else 0)
  {
    if k > 0 {
      CountCons(x, s, k - 1);
      FilterCons(x, s, StartsAtHour(k - 1));
    }
  }

  lemma {:induction false} CountEmpty(k: nat)
    ensures CountUpTo([], k) == 0
  {
    if k > 0 {
      CountEmpty(k - 1);
    }
  }

  lemma {:induction false} CountCoversDay(dayEvents: seq<Event>)
    ensures CountUpTo(dayEvents, 24) == |dayEvents|
  {
    if dayEvents != [] {
      var x, s := dayEvents[0], dayEvents[1..];
      assert dayEvents == [x] + s;
      CountCons(x, s, 24);
      CountCoversDay(s);
    } else {
      CountEmpty(24);
    }
  }

  /** The number of events in a list of rows. */
  function TotalLength(rows: seq<seq<Event>>): nat
  {
    if rows == [] then 0 else TotalLength(rows[..|rows| - 1]) + |rows[|rows| - 1]|
  }

  lemma {:induction false} TotalLengthOfRows(dayEvents: seq<Event>, k: nat)
    requires k <= 24
    ensures TotalLength(Rows(dayEvents)[..k]) == CountUpTo(dayEvents, k)
  {
    if k > 0 {
      assert Rows(dayEvents)[..k][..k - 1] == Rows(dayEvents)[..k - 1];
      TotalLengthOfRows(dayEvents, k - 1);
    }
  }

  /** The rendered rows together hold as many events as the day has. */
  lemma RowsCoverDay(dayEvents: seq<Event>)
    ensures TotalLength(Rows(dayEvents)) == |dayEvents|
  {
    CountCoversDay(dayEvents);
    TotalLengthOfRows(dayEvents, 24);
    assert Rows(dayEvents)[..24] == Rows(dayEvents);
  }
}
