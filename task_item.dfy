/** The rules of one task row (src/components/tasks/TaskItem.tsx): the
    days-remaining count, the due-date badge, which badges and buttons
    show, and the priority labels. */
module TaskItem {
  import opened Wrappers
  import opened Text
  import opened TaskTypes
  import opened UseTasks

  /** `getDaysRemaining`: both dates are taken at midnight, so the rounded-up
      quotient of their difference by a day is the difference of the days. */
  function DaysRemaining(t: Task, today: int): (r: Option<int>)
    ensures r.None? <==> !HasDueDate(t)
    ensures r.Some? ==> r.value == t.dueDate.day - today
  {
    if HasDueDate(t) then Some(t.dueDate.day - today) else None
  }

  /** The four kinds of due-date badge, with the count each shows. */
  datatype DueBadge = Overdue(days: nat) | DueToday | DueSoon(days: nat) | DueLater(days: nat)

  function Classify(d: int): (b: DueBadge)
    ensures b.Overdue? <==> d < 0
    ensures b.DueToday? <==> d == 0
    ensures b.DueSoon? <==> 1 <= d <= 2
    ensures b.DueLater? <==> d > 2
    ensures b.Overdue? ==> b.days == -d
    ensures b.DueSoon? || b.DueLater? ==> b.days == d
  {
    if d < 0 then Overdue(-d)
    else if d == 0 then DueToday
    else if d <= 2 then DueSoon(d)
    else DueLater(d)
  }

  function DayUnit(n: nat): (s: string)
    ensures s == "day" <==> n == 1
  {
    if n == 1 then "day" else "days"
  }

  /** The badge's text. */
  function BadgeText(b: DueBadge): (s: string)
    ensures s == "Due today" <==> b.DueToday?
    ensures |s| > 0 && (s[0] == 'O' <==> b.Overdue?)
  {
    match b
    case Overdue(n) => "Overdue by " + NatToString(n) + " " + DayUnit(n)
    case DueToday => "Due today"
    case DueSoon(n) => "Due in " + NatToString(n) + " " + DayUnit(n)
    case DueLater(n) => "Due in " + NatToString(n) + " days"
  }

  predicate EndsInSingular(s: string)
  {
    |s| >= 4 && s[|s| - 4..] == " day"
  }

  lemma UnitEnding(prefix: string, n: nat)
    ensures EndsInSingular(prefix + " " + DayUnit(n)) <==> n == 1
  {
    var s := prefix + " " + DayUnit(n);
    if n == 1 {
      assert s[|s| - 4..] == " day";
    } else {
      assert s[|s| - 1] == 's';
    }
  }

  /** The unit is the singular "day" exactly when the count is one, in
      either direction. */
  lemma BadgeSingularIffOne(d: int)
    ensures EndsInSingular(BadgeText(Classify(d))) <==> d == 1 || d == -1
  {
    var b := Classify(d);
    match b
    case Overdue(n) => UnitEnding("Overdue by " + NatToString(n), n);
    case DueToday => assert "Due today"[5..] == "oday";
    case DueSoon(n) => UnitEnding("Due in " + NatToString(n), n);
    case DueLater(n) => UnitEnding("Due in " + NatToString(n), 2);
  }

  /** The number in the badge text reads back as the count of days. */
  lemma BadgeShowsCount(d: int)
    requires d != 0
    ensures var s := BadgeText(Classify(d));
      var lead := if d < 0 then "Overdue by " else "Due in ";
      var n := if d < 0 then -d else d;
      && s[..|lead|] == lead
      && s[|lead|..|lead| + |NatToString(n)|] == NatToString(n)
      && ParseNat(NatToString(n)) == n
  {
    var n := if d < 0 then -d else d;
    ParseNatToString(n);
  }

  /** The due-date badge shows for an open task with a due date. */
  predicate ShowsDueBadge(t: Task)
  {
    !t.completed && HasDueDate(t)
  }

  function DueBadgeOf(t: Task, today: int): (r: Option<DueBadge>)
    ensures r.Some? <==> ShowsDueBadge(t)
    ensures r.Some? ==> r.value == Classify(t.dueDate.day - today)
  {
    if ShowsDueBadge(t) then Some(Classify(DaysRemaining(t, today).value)) else None
  }

  predicate ShowsPriorityBadge(t: Task)
  {
    !t.completed
  }

  /** The "Calendar" badge shows for a linked task. */
  predicate ShowsCalendarBadge(t: Task)
  {
    IsLinked(t)
  }

  predicate ShowsAddToCalendar(t: Task)
  {
    HasDueDate(t) && !IsLinked(t)
  }

  /** The add-to-calendar button shows exactly for the tasks the handler
      goes through with, so its two refusals are unreachable from the row. */
  lemma AddButtonIffProceeds(t: Task)
    ensures ShowsAddToCalendar(t) <==> AddToCalendarOutcome(t) == AddedToCalendar
    ensures ShowsCalendarBadge(t) ==> !ShowsAddToCalendar(t)
  {
  }

  function PriorityLabel(p: Priority): (s: string)
    ensures s == "High" <==> p == High
    ensures s == "Medium" <==> p == Medium
    ensures s == "Low" <==> p == Low
  {
    match p
    case High => "High"
    case Medium => "Medium"
    case Low => "Low"
  }

  /** Distinct priorities get distinct labels. */
  lemma PriorityLabelInjective(p: Priority, q: Priority)
    requires PriorityLabel(p) == PriorityLabel(q)
    ensures p == q
  {
  }
}
