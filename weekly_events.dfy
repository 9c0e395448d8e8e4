/**
 * The weekly schedule (client/src/components/WeeklyEvents.tsx): events
 * grouped into per-day buckets, the fixed day order split into a left and a
 * right column, and the day headers.
 */
module WeeklyEvents {
  import opened Common
  import opened Text
  import Storage
  import GameData

  type WeeklyEvent = Storage.WeeklyEvent

  function DayIs(day: string): WeeklyEvent -> bool
  {
    (e: WeeklyEvent) => e.dayOfWeek == day
  }

  /** The events of one day, in input order. */
  function OnDay(events: seq<WeeklyEvent>, day: string): (r: seq<WeeklyEvent>)
    ensures IsSubsequence(r, events)
    ensures forall i :: 0 <= i < |r| ==> r[i].dayOfWeek == day
    ensures forall i :: 0 <= i < |events| && events[i].dayOfWeek == day ==> events[i] in r
    ensures forall e :: multiset(r)[e] == if e.dayOfWeek == day then multiset(events)[e] else 0
  {
    FilterCounts(events, DayIs(day));
    Filter(events, DayIs(day))
  }

  /** `byDay` is the grouping of `xs`: one bucket per day that occurs, holding that day's events in order. */
  ghost predicate Grouped(byDay: map<string, seq<WeeklyEvent>>, xs: seq<WeeklyEvent>)
  {
    && (forall d :: d in byDay <==> exists j :: 0 <= j < |xs| && xs[j].dayOfWeek == d)
    && (forall d :: d in byDay ==> byDay[d] == OnDay(xs, d))
  }

  /** The bucket a new day starts with is the (empty) list of its earlier events. */
  lemma GroupedOpen(byDay: map<string, seq<WeeklyEvent>>, xs: seq<WeeklyEvent>, day: string)
    requires Grouped(byDay, xs) && day !in byDay
    ensures OnDay(xs, day) == []
  {
    FilterKeepsNone(xs, DayIs(day));
  }

  /** Pushing an event onto its day's bucket extends the grouping by that event. */
  lemma GroupedPush(byDay: map<string, seq<WeeklyEvent>>, xs: seq<WeeklyEvent>, e: WeeklyEvent)
    requires e.dayOfWeek in byDay
    requires forall d :: d in byDay <==> d == e.dayOfWeek || exists j :: 0 <= j < |xs| && xs[j].dayOfWeek == d
    requires forall d :: d in byDay ==> byDay[d] == OnDay(xs, d)
    ensures Grouped(byDay[e.dayOfWeek := byDay[e.dayOfWeek] + [e]], xs + [e])
  {
    PushedBuckets(byDay, xs, e);
    PushedDays(byDay, xs, e);
  }

  /** After the push every bucket is its day's events of the extended input. */
  lemma PushedBuckets(byDay: map<string, seq<WeeklyEvent>>, xs: seq<WeeklyEvent>, e: WeeklyEvent)
    requires e.dayOfWeek in byDay
    requires forall d :: d in byDay ==> byDay[d] == OnDay(xs, d)
    ensures var after := byDay[e.dayOfWeek := byDay[e.dayOfWeek] + [e]];
            forall d :: d in after ==> after[d] == OnDay(xs + [e], d)
  {
    var after := byDay[e.dayOfWeek := byDay[e.dayOfWeek] + [e]];
    forall d | d in after
      ensures after[d] == OnDay(xs + [e], d)
    {
      FilterAppend(xs, [e], DayIs(d));
      assert [e][1..] == [];
      if d == e.dayOfWeek {
        assert Filter([e], DayIs(d)) == [e];
      } else {
        assert Filter([e], DayIs(d)) == [];
      }
    }
  }

  /** After the push the buckets are keyed by exactly the days of the extended input. */
  lemma PushedDays(byDay: map<string, seq<WeeklyEvent>>, xs: seq<WeeklyEvent>, e: WeeklyEvent)
    requires forall d :: d in byDay <==> d == e.dayOfWeek || exists j :: 0 <= j < |xs| && xs[j].dayOfWeek == d
    ensures var after := byDay[e.dayOfWeek := byDay[e.dayOfWeek] + [e]];
            forall d :: d in after <==> exists j :: 0 <= j < |xs + [e]| && (xs + [e])[j].dayOfWeek == d
  {
    var after := byDay[e.dayOfWeek := byDay[e.dayOfWeek] + [e]];
    forall d
      ensures d in after <==> exists j :: 0 <= j < |xs + [e]| && (xs + [e])[j].dayOfWeek == d
    {
      if d in after && d != e.dayOfWeek {
        var j :| 0 <= j < |xs| && xs[j].dayOfWeek == d;
        assert (xs + [e])[j] == xs[j];
      }
      if d == e.dayOfWeek {
        assert (xs + [e])[|xs|] == e;
      }
      if exists j :: 0 <= j < |xs + [e]| && (xs + [e])[j].dayOfWeek == d {
        var j :| 0 <= j < |xs + [e]| && (xs + [e])[j].dayOfWeek == d;
        if j < |xs| {
          assert (xs + [e])[j] == xs[j];
        }
      }
    }
  }

  /**
   * `eventsByDay`: the `reduce` that pushes each event onto the array of its day, creating the
   * array on the day's first event. A day has a bucket exactly when some event falls on it, and
   * its bucket holds that day's events in input order.
   */
  method GroupByDay(events: seq<WeeklyEvent>) returns (byDay: map<string, seq<WeeklyEvent>>)
    ensures forall d :: d in byDay <==> exists i :: 0 <= i < |events| && events[i].dayOfWeek == d
    ensures forall d :: d in byDay ==> byDay[d] == OnDay(events, d)
    ensures forall d :: d !in byDay ==> OnDay(events, d) == []
  {
    byDay := map[];
    for i := 0 to |events|
      invariant Grouped(byDay, events[..i])
    {
      var e := events[i];
      assert events[..i + 1] == events[..i] + [e];
      if e.dayOfWeek !in byDay {
        GroupedOpen(byDay, events[..i], e.dayOfWeek);
        byDay := byDay[e.dayOfWeek := []];
      }
      GroupedPush(byDay, events[..i], e);
      byDay := byDay[e.dayOfWeek := byDay[e.dayOfWeek] + [e]];
    }
    assert events[..|events|] == events;
    forall d | d !in byDay
      ensures OnDay(events, d) == []
    {
      GroupedOpen(byDay, events, d);
    }
  }

  /** The total size of the buckets of `days`. */
  function BucketSizes(events: seq<WeeklyEvent>, days: seq<string>): nat
    decreases |days|
  {
    if days == [] then 0 else |OnDay(events, days[0])| + BucketSizes(events, days[1..])
  }

  function DayIn(days: seq<string>): WeeklyEvent -> bool
  {
    (e: WeeklyEvent) => e.dayOfWeek in days
  }

  /** Over distinct days, the buckets together hold exactly the events on those days. */
  lemma {:induction false} BucketSizesCount(events: seq<WeeklyEvent>, days: seq<string>)
    requires Distinct(days)
    ensures BucketSizes(events, days) == |Filter(events, DayIn(days))|
    decreases |days|
  {
    if days == [] {
      FilterKeepsNone(events, DayIn(days));
    } else {
      assert Distinct(days[1..]);
      BucketSizesCount(events, days[1..]);
      forall x: WeeklyEvent ensures DayIn(days)(x) == (DayIs(days[0])(x) || DayIn(days[1..])(x)) {
        assert x.dayOfWeek in days <==> x.dayOfWeek == days[0] || x.dayOfWeek in days[1..];
      }
      FilterLengthDisjoint(events, DayIs(days[0]), DayIn(days[1..]), DayIn(days));
    }
  }

  /** When every event falls on one of the distinct days, the buckets hold every event once. */
  lemma BucketsHoldAll(events: seq<WeeklyEvent>, days: seq<string>)
    requires Distinct(days)
    requires forall i :: 0 <= i < |events| ==> events[i].dayOfWeek in days
    ensures BucketSizes(events, days) == |events|
  {
    BucketSizesCount(events, days);
    FilterKeepsAll(events, DayIn(days));
  }

  /** `dayOrder`. */
  const DayOrder: seq<string> := ["monday", "tuesday", "wednesday", "thursday", "friday", "saturday", "sunday"]

  const LeftColumn: seq<string> := DayOrder[..3]
  const RightColumn: seq<string> := DayOrder[3..]

  /** The columns split the week without overlap: three days on the left, four on the right. */
  lemma ColumnsCoverWeek()
    ensures DayOrder == GameData.DaysOfWeek
    ensures Distinct(DayOrder)
    ensures LeftColumn + RightColumn == DayOrder && |LeftColumn| == 3 && |RightColumn| == 4
    ensures forall d :: d in LeftColumn ==> d !in RightColumn
  {
  }

  /** `getDayDisplayName`: the first character upper-cased, the rest kept. */
  function DayDisplayName(day: string): (r: string)
    ensures |r| == |day|
    ensures |day| > 0 ==> r[0] == UpperChar(day[0]) && r[1..] == day[1..]
  {
    if day == [] then [] else [UpperChar(day[0])] + day[1..]
  }

  /** The header of a right-column day: saturday and sunday read WEEKEND, the other days their display name. */
  function RightHeader(day: string): (r: string)
    ensures GameData.IsWeekend(day) ==> r == "WEEKEND"
    ensures !GameData.IsWeekend(day) ==> r == DayDisplayName(day)
  {
    if day == "saturday" || day == "sunday" then "WEEKEND" else DayDisplayName(day)
  }

  /** The right column reads Thursday, Friday, WEEKEND, WEEKEND. */
  lemma RightHeaders()
    ensures RightHeader(RightColumn[0]) == "Thursday" && RightHeader(RightColumn[1]) == "Friday"
    ensures RightHeader(RightColumn[2]) == "WEEKEND" && RightHeader(RightColumn[3]) == "WEEKEND"
  {
    assert RightColumn == ["thursday", "friday", "saturday", "sunday"];
  }

  /**
   * On the right column the headers agree with `DAY_DISPLAY_NAMES` exactly on the weekend:
   * the weekdays are capitalised there, not upper-cased.
   */
  lemma RightHeadersAgainstDisplayNames()
    ensures forall d :: d in RightColumn ==> d in GameData.DayDisplayNames
    ensures forall d :: d in RightColumn ==> (RightHeader(d) == GameData.DayDisplayNames[d] <==> GameData.IsWeekend(d))
  {
    assert RightColumn == ["thursday", "friday", "saturday", "sunday"];
    RightHeaders();
    assert "Thursday"[1] != "THURSDAY"[1];
    assert "Friday"[1] != "FRIDAY"[1];
  }
}
