/**
 * The period calendar shared by app/schedule/create.tsx, app/travel/add-hotel.tsx
 * and app/travel/create.tsx: the same `handleDayPress` state machine over
 * startDate/endDate, and two variants of the `markedDates` object. Days are
 * integer day ordinals, so `isBefore` is `<` and equal date strings are equal
 * numbers.
 */
module DateRange {
  import opened Common

  /** Whether a picked range is shown solid (its ends) or light (the days between). */
  datatype Shade = Solid | Light

  /** One entry of `markedDates`; every entry is also `selected`. */
  datatype Mark = Mark(startingDay: bool, endingDay: bool, shade: Shade)

  const StartMark := Mark(true, false, Solid)
  const EndMark := Mark(false, true, Solid)
  const SingleMark := Mark(true, true, Solid)
  const BetweenMark := Mark(false, false, Light)

  /** The state the picker keeps: an end only after a start, never before it. */
  predicate Ordered(start: Option<int>, end: Option<int>) {
    end.Some? ==> start.Some? && start.value <= end.value
  }

  /** The entry for `day` of a marks object. */
  function MarkOf(marks: map<int, Mark>, day: int): Option<Mark> {
    if day in marks then Some(marks[day]) else None
  }

  /**
   * The marking app/schedule/create.tsx intends, day by day: a lone start is a
   * starting day only; with both ends set the end's mark wins on the end day,
   * the start's on the start day, and the days strictly between are light.
   */
  function ScheduleMark(start: Option<int>, end: Option<int>, day: int): Option<Mark>
    requires Ordered(start, end)
  {
    if start.None? then None
    else if end.None? then (if day == start.value then Some(StartMark) else None)
    else if day == end.value then Some(EndMark)
    else if day == start.value then Some(StartMark)
    else if start.value < day < end.value then Some(BetweenMark)
    else None
  }

  /** The travel screens' marking: a lone start is both a starting and an ending day. */
  function TravelMark(start: Option<int>, end: Option<int>, day: int): Option<Mark>
    requires Ordered(start, end)
  {
    if start.Some? && end.None? then (if day == start.value then Some(SingleMark) else None)
    else ScheduleMark(start, end, day)
  }

  class RangePicker {
    var startDate: Option<int>
    var endDate: Option<int>

    ghost predicate Valid()
      reads this
    {
      Ordered(startDate, endDate)
    }

    constructor()
      ensures startDate == None && endDate == None && Valid()
    {
      startDate := None;
      endDate := None;
    }

    /**
     * `handleDayPress`: with no start, or with both ends set, the tap starts a
     * new range; with only a start, an earlier day restarts the range and any
     * other day becomes its end.
     */
    method HandleDayPress(day: int)
      modifies this
      ensures Valid()
      ensures old(startDate).None? || old(endDate).Some? ==> startDate == Some(day) && endDate == None
      ensures old(startDate).Some? && old(endDate).None? && day < old(startDate).value ==>
        startDate == Some(day) && endDate == None
      ensures old(startDate).Some? && old(endDate).None? && day >= old(startDate).value ==>
        startDate == old(startDate) && endDate == Some(day)
    {
      if startDate.None? || endDate.Some? {
        startDate := Some(day);
        endDate := None;
      } else if day < startDate.value {
        startDate := Some(day);
        endDate := None;
      } else {
        endDate := Some(day);
      }
    }
  }

  /**
   * The start and end marks of a set range, then a walk over every day of the
   * interval marking the ones that are neither end.
   */
  method MarkInterval(start: int, end: int) returns (marks: map<int, Mark>)
    requires start <= end
    ensures forall day :: MarkOf(marks, day) == ScheduleMark(Some(start), Some(end), day)
  {
    marks := map[start := StartMark];
    marks := marks[end := EndMark];
    var d := start;
    while d <= end
      invariant start <= d <= end + 1
      invariant forall x :: x in marks <==> x == start || x == end || start < x < d
      invariant forall x :: x in marks ==> marks[x] == if x == end then EndMark else if x == start then StartMark else BetweenMark
    {
      if d != start && d != end {
        marks := marks[d := BetweenMark];
      }
      d := d + 1;
    }
  }

  /** `markedDates` of app/schedule/create.tsx. */
  method ScheduleMarks(start: Option<int>, end: Option<int>) returns (marks: map<int, Mark>)
    requires Ordered(start, end)
    ensures forall day :: MarkOf(marks, day) == ScheduleMark(start, end, day)
  {
    if end.Some? {
      marks := MarkInterval(start.value, end.value);
    } else if start.Some? {
      marks := map[start.value := StartMark];
    } else {
      marks := map[];
    }
  }

  /** `markedDates` of app/travel/add-hotel.tsx and app/travel/create.tsx. */
  method TravelMarks(start: Option<int>, end: Option<int>) returns (marks: map<int, Mark>)
    requires Ordered(start, end)
    ensures forall day :: MarkOf(marks, day) == TravelMark(start, end, day)
  {
    if start.Some? && end.None? {
      marks := map[start.value := SingleMark];
    } else if start.Some? {
      marks := MarkInterval(start.value, end.value);
    } else {
      marks := map[];
    }
  }

  /** Exactly the days of the range are marked, and only its two ends are solid. */
  lemma MarkedIffInRange(start: int, end: int, day: int)
    requires start <= end
    ensures ScheduleMark(Some(start), Some(end), day).Some? <==> start <= day <= end
    ensures TravelMark(Some(start), Some(end), day).Some? <==> start <= day <= end
    ensures start <= day <= end ==>
      (ScheduleMark(Some(start), Some(end), day).value.shade == Solid <==> day == start || day == end)
  {
  }

  /** A one-day range is a single mark that carries endingDay only: the end mark overwrote the start mark. */
  lemma OneDayRangeEndsOnly(day: int)
    ensures ScheduleMark(Some(day), Some(day), day) == Some(Mark(false, true, Solid))
    ensures TravelMark(Some(day), Some(day), day) == Some(Mark(false, true, Solid))
  {
  }

  /**
   * The two variants differ only while the end is unset: there the schedule
   * screen marks the start as a starting day, the travel screens as both ends.
   */
  lemma VariantsDifferOnlyOnLoneStart(start: Option<int>, end: Option<int>, day: int)
    requires Ordered(start, end)
    ensures end.Some? || start.None? ==> TravelMark(start, end, day) == ScheduleMark(start, end, day)
    ensures start.Some? && end.None? ==>
      ScheduleMark(start, end, start.value) == Some(Mark(true, false, Solid)) &&
      TravelMark(start, end, start.value) == Some(Mark(true, true, Solid))
  {
  }
}
