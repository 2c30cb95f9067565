/** The `Task` record (src/types/task.ts) and the JavaScript truthiness tests
    the source applies to its optional fields. */
module TaskTypes {
  import opened Wrappers

  datatype Priority = High | Medium | Low

  /** `dueDate?: string`. `Unset` is `undefined`, `Blank` is the empty string
      (present but falsy), `OnDay(d)` is a non-empty "yyyy-MM-dd" string,
      represented by the calendar day it names. */
  datatype DueDate = Unset | Blank | OnDay(day: int)

  datatype Task = Task(
    id: string,
    title: string,
    completed: bool,
    priority: Priority,
    dueDate: DueDate,
    notes: Option<string>,
    eventId: Option<string>)

  /** `task.dueDate` is truthy. */
  predicate HasDueDate(t: Task)
  {
    t.dueDate.OnDay?
  }

  /** `task.eventId` is truthy: set and not the empty string. */
  predicate IsLinked(t: Task)
  {
    t.eventId.Some? && t.eventId.value != ""
  }
}
