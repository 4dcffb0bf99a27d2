/** DateRangeFilter: the two date inputs of the dashboard. A change of either input is parsed
    into a date (`None` when the text gives an invalid date, whose `getTime()` is NaN) and
    forwarded to `onDateChange` together with the other, unchanged date, but only when the new
    range is still in order. Dates are milliseconds since the epoch. */
module DateRangeFilter {
  import opened Types

  /** The pair of dates handed to `onDateChange`. */
  datatype DateRange = DateRange(start: int, end: int)

  predicate Ordered(r: DateRange) { r.start <= r.end }

  /** `handleStartDateChange`: the callback's arguments, or `None` when it is not called. */
  function StartDateChange(newStart: Option<int>, current: DateRange): (r: Option<DateRange>)
    ensures r.Some? <==> newStart.Some? && newStart.value <= current.end
    ensures r.Some? ==> r.value.start == newStart.value && r.value.end == current.end
  {
    if newStart.Some? && newStart.value <= current.end then Some(DateRange(newStart.value, current.end))
    else None
  }

  /** `handleEndDateChange`: the callback's arguments, or `None` when it is not called. */
  function EndDateChange(newEnd: Option<int>, current: DateRange): (r: Option<DateRange>)
    ensures r.Some? <==> newEnd.Some? && newEnd.value >= current.start
    ensures r.Some? ==> r.value.start == current.start && r.value.end == newEnd.value
  {
    if newEnd.Some? && newEnd.value >= current.start then Some(DateRange(current.start, newEnd.value))
    else None
  }

  /** Whatever the current range, a forwarded range is in order, and an invalid date is never
      forwarded. */
  lemma ForwardedRangeOrdered(d: Option<int>, current: DateRange)
    ensures StartDateChange(d, current).Some? ==> Ordered(StartDateChange(d, current).value)
    ensures EndDateChange(d, current).Some? ==> Ordered(EndDateChange(d, current).value)
    ensures d.None? ==> StartDateChange(d, current).None? && EndDateChange(d, current).None?
  {
  }

  /** An edit of one of the two inputs. */
  datatype Edit = EditStart(date: Option<int>) | EditEnd(date: Option<int>)

  /** The range the parent holds after one edit: the forwarded range, or the old one when the
      callback is not called. */
  function ApplyEdit(current: DateRange, e: Edit): DateRange {
    var r := match e
      case EditStart(d) => StartDateChange(d, current)
      case EditEnd(d) => EndDateChange(d, current);
    r.GetOr(current)
  }

  /** The range after a sequence of edits, each seen against the range the previous ones
      left. */
  function ApplyEdits(current: DateRange, edits: seq<Edit>): DateRange
    decreases |edits|
  {
    if edits == [] then current else ApplyEdits(ApplyEdit(current, edits[0]), edits[1..])
  }

  /** Starting from an ordered range, no sequence of edits can put the range out of order;
      each end only ever takes a value some valid edit of that input supplied. */
  lemma {:induction false} EditsKeepOrder(current: DateRange, edits: seq<Edit>)
    requires Ordered(current)
    ensures Ordered(ApplyEdits(current, edits))
    ensures ApplyEdits(current, edits).start == current.start
      || exists k :: 0 <= k < |edits| && edits[k] == EditStart(Some(ApplyEdits(current, edits).start))
    ensures ApplyEdits(current, edits).end == current.end
      || exists k :: 0 <= k < |edits| && edits[k] == EditEnd(Some(ApplyEdits(current, edits).end))
    decreases |edits|
  {
    if edits != [] {
      var next := ApplyEdit(current, edits[0]);
      EditsKeepOrder(next, edits[1..]);
      var final := ApplyEdits(current, edits);
      assert final == ApplyEdits(next, edits[1..]);
      if final.start != current.start && final.start == next.start {
        assert edits[0] == EditStart(Some(final.start));
      } else if final.start != current.start {
        var k :| 0 <= k < |edits[1..]| && edits[1..][k] == EditStart(Some(final.start));
        assert edits[k + 1] == edits[1..][k];
      }
      if final.end != current.end && final.end == next.end {
        assert edits[0] == EditEnd(Some(final.end));
      } else if final.end != current.end {
        var k :| 0 <= k < |edits[1..]| && edits[1..][k] == EditEnd(Some(final.end));
        assert edits[k + 1] == edits[1..][k];
      }
    }
  }
}
