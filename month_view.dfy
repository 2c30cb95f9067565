/** The month grid of the calendar (src/components/calendar/MonthView.tsx):
    each cell lists at most three of its day's events, then a "+N more"
    line. */
module MonthView {
  import opened Wrappers
  import opened Seqs
  import opened CalendarService

  /** `dayEvents.slice(0, 3)`. */
  function ShownEvents(cell: seq<Event>): (r: seq<Event>)
    ensures |r| == if |cell| < 3 then |cell| else 3
    ensures r == cell[..|r|]
  {
    Take(cell, 3)
  }

  /** The count in the "+N more" line, if the line shows. */
  function MoreCount(cell: seq<Event>): (r: Option<nat>)
    ensures r.Some? <==> |cell| > 3
    ensures r.Some? ==> r.value == |cell| - 3
  {
    if |cell| > 3 then Some(|cell| - 3) else None
  }

  /** Shown and hidden events account for the whole cell. */
  lemma ShownPlusMore(cell: seq<Event>)
    ensures |ShownEvents(cell)| + (if MoreCount(cell).Some? then MoreCount(cell).value else 0) == |cell|
    ensures MoreCount(cell).None? ==> ShownEvents(cell) == cell
  {
  }

  /** A cell (`renderDay`'s `dayEvents`, the day query for its day) shows
      events of that day only, in store order, and the first of them. */
  lemma CellShowsItsDay(events: seq<Event>, day: int)
    ensures var cell := EventsForDay(events, day);
      && IsSubsequence(ShownEvents(cell), events)
      && (forall e :: e in ShownEvents(cell) ==> e in events && StartsOn(day)(e))
      && (|cell| <= 3 ==> forall e :: e in events && StartsOn(day)(e) ==> e in ShownEvents(cell))
  {
    var cell := EventsForDay(events, day);
    var shown := ShownEvents(cell);
    PrefixIsSubsequence(cell, |shown|);
    SubsequenceTrans(shown, cell, events);
    assert forall e :: e in shown ==> e in cell;
    if |cell| <= 3 {
      forall e | e in events && StartsOn(day)(e) ensures e in shown {
        assert multiset(cell)[e] == multiset(events)[e];
      }
    }
  }
}
