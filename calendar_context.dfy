/** The calendar provider (src/context/CalendarContext.tsx): the state cells
    `events`, `selectedDate` and `view`, reassigned through the store
    operations of module CalendarService. */
module CalendarContext {
  import opened CalendarService

  datatype View = DayView | WeekView | MonthView

  class CalendarProvider {
    var events: seq<Event>
    var selectedDate: int
    var view: View

    /** The first render: no events, `selectedDate` is the current time,
        week view. */
    constructor (now: int)
      ensures events == [] && selectedDate == now && view == WeekView
    {
      events := [];
      selectedDate := now;
      view := WeekView;
    }

    /** The mount effect: the events become the fixture for the week of
        `selectedDate`. */
    method Mount()
      modifies this
      ensures events == MockEvents(old(selectedDate))
      ensures selectedDate == old(selectedDate) && view == old(view)
    {
      events := MockEvents(selectedDate);
    }

    /** `addEvent`; `freshId` stands for the random id `createEvent` draws. */
    method AddEvent(draft: EventDraft, freshId: string)
      modifies this
      ensures events == CreateEvent(old(events), draft, freshId)
      ensures selectedDate == old(selectedDate) && view == old(view)
    {
      events := CreateEvent(events, draft, freshId);
    }

    /** `editEvent`. */
    method EditEvent(e: Event)
      modifies this
      ensures events == UpdateEvent(old(events), e)
      ensures selectedDate == old(selectedDate) && view == old(view)
    {
      events := UpdateEvent(events, e);
    }

    /** `removeEvent`. */
    method RemoveEvent(id: string)
      modifies this
      ensures events == DeleteEvent(old(events), id)
      ensures selectedDate == old(selectedDate) && view == old(view)
    {
      events := DeleteEvent(events, id);
    }

    method SetSelectedDate(t: int)
      modifies this
      ensures selectedDate == t
      ensures events == old(events) && view == old(view)
    {
      selectedDate := t;
    }

    method SetView(v: View)
      modifies this
      ensures view == v
      ensures events == old(events) && selectedDate == old(selectedDate)
    {
      view := v;
    }
  }
}
