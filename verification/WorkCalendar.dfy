/** Working days: the search for the next one and the count of those in an interval. */
module WorkCalendar {
  import opened Collections
  import opened Contracts
  import opened Results

  const SEARCH_LIMIT: nat := 3660

  /** 0 is Sunday; day 0 was a Thursday. */
  function Weekday(d: Day): int {
    (d + 4) % 7
  }

  predicate Working(cal: Calendar, d: Day) {
    Weekday(d) in cal.weekdays && d !in cal.holidays
  }

  /** e is the first working day at or after d. */
  ghost predicate FirstWorkday(cal: Calendar, d: Day, e: Day) {
    d <= e && Working(cal, e) && forall x :: d <= x < e ==> !Working(cal, x)
  }

  /** The first working day in [d, end). */
  function Search(cal: Calendar, d: Day, end: Day): (r: Option<Day>)
    ensures r.Some? ==> FirstWorkday(cal, d, r.value) && r.value < end
    ensures r.None? <==> forall x :: d <= x < end ==> !Working(cal, x)
    decreases end - d
  {
    if end <= d then None
    else if Working(cal, d) then Some(d)
    else Search(cal, d + 1, end)
  }

  function NextWorkday(cal: Calendar, d: Day): (r: Option<Day>)
    ensures r.Some? ==> FirstWorkday(cal, d, r.value) && r.value < d + SEARCH_LIMIT
    ensures r.None? <==> forall x :: d <= x < d + SEARCH_LIMIT ==> !Working(cal, x)
  {
    Search(cal, d, d + SEARCH_LIMIT)
  }

  /** The inner search loop of the schedule evaluation. */
  method FindWorkday(cal: Calendar, from: Day) returns (r: Option<Day>)
    ensures r == NextWorkday(cal, from)
  {
    var date := from;
    for i := 0 to SEARCH_LIMIT
      invariant date == from + i
      invariant Search(cal, from, from + SEARCH_LIMIT) == Search(cal, date, from + SEARCH_LIMIT)
    {
      if Working(cal, date) {
        return Some(date);
      }
      date := date + 1;
    }
    r := None;
  }

  /** The working day that is `steps` working days after the working day d. */
  function Advance(cal: Calendar, d: Day, steps: nat): Option<Day>
    decreases steps
  {
    if steps == 0 then Some(d)
    else
      match NextWorkday(cal, d + 1)
      case None => None
      case Some(e) => Advance(cal, e, steps - 1)
  }

  /** Number of working days from a to b inclusive. */
  function WorkdaysIn(cal: Calendar, a: Day, b: Day): nat
    decreases b - a
  {
    if b < a then 0 else WorkdaysIn(cal, a, b - 1) + if Working(cal, b) then 1 else 0
  }

  lemma {:induction false} WorkdaysGrow(cal: Calendar, a: Day, a': Day, b: Day, b': Day)
    requires a <= a' && b' <= b
    ensures WorkdaysIn(cal, a', b') <= WorkdaysIn(cal, a, b)
    decreases b - a'
  {
    if b >= a' {
      if b' < b {
        WorkdaysGrow(cal, a, a', b - 1, b');
      } else {
        WorkdaysGrow(cal, a, a', b - 1, b - 1);
      }
    }
  }

  /** Working days of a calendar with fewer working days are fewer. */
  lemma {:induction false} WorkdaysOfSparserCalendar(cal: Calendar, cal': Calendar, a: Day, b: Day)
    requires forall d :: Working(cal', d) ==> Working(cal, d)
    ensures WorkdaysIn(cal', a, b) <= WorkdaysIn(cal, a, b)
    decreases b - a
  {
    if a <= b {
      WorkdaysOfSparserCalendar(cal, cal', a, b - 1);
    }
  }

  lemma {:induction false} NoWorkdaysBetween(cal: Calendar, a: Day, b: Day)
    requires forall x :: a <= x <= b ==> !Working(cal, x)
    ensures WorkdaysIn(cal, a, b) == 0
    decreases b - a
  {
    if a <= b {
      NoWorkdaysBetween(cal, a, b - 1);
    }
  }

  lemma {:induction false} WorkdaysSplit(cal: Calendar, a: Day, m: Day, b: Day)
    requires a <= m + 1 && m <= b
    ensures WorkdaysIn(cal, a, b) == WorkdaysIn(cal, a, m) + WorkdaysIn(cal, m + 1, b)
    decreases b - m
  {
    if m < b {
      WorkdaysSplit(cal, a, m, b - 1);
    }
  }

  lemma {:induction false} AdvanceCounts(cal: Calendar, d: Day, steps: nat)
    requires Working(cal, d) && Advance(cal, d, steps).Some?
    ensures var e := Advance(cal, d, steps).value;
      d <= e && Working(cal, e) && WorkdaysIn(cal, d, e) == steps + 1
    decreases steps
  {
    assert WorkdaysIn(cal, d, d - 1) == 0;
    assert WorkdaysIn(cal, d, d) == 1;
    if steps > 0 {
      var next := NextWorkday(cal, d + 1).value;
      AdvanceCounts(cal, next, steps - 1);
      NoWorkdaysBetween(cal, d + 1, next - 1);
      WorkdaysSplit(cal, d, d, next - 1);
      WorkdaysSplit(cal, d, next - 1, Advance(cal, d, steps).value);
    }
  }

  /** Advancing ends on the earliest day that gives the interval steps + 1 working days. */
  lemma AdvanceIsLeast(cal: Calendar, d: Day, steps: nat, x: Day)
    requires Working(cal, d) && Advance(cal, d, steps).Some?
    ensures steps + 1 <= WorkdaysIn(cal, d, x) <==> Advance(cal, d, steps).value <= x
  {
    var e := Advance(cal, d, steps).value;
    AdvanceCounts(cal, d, steps);
    if x < e {
      WorkdaysGrow(cal, d, d, e - 1, x);
    } else {
      WorkdaysGrow(cal, d, d, x, e);
    }
  }

  // ---------- The search always succeeds on a validated calendar ----------

  /** What validation demands of a calendar. */
  predicate ValidCalendar(cal: Calendar) {
    && cal.weekdays != [] && |cal.weekdays| <= 7
    && (forall i, j :: 0 <= i < j < |cal.weekdays| ==> cal.weekdays[i] != cal.weekdays[j])
    && (forall w :: w in cal.weekdays ==> 0 <= w <= 6)
    && |cal.holidays| <= 366
  }

  /** The first day at or after d that falls on weekday w. */
  function OnWeekday(d: Day, w: int): (e: Day)
    requires 0 <= w <= 6
    ensures d <= e < d + 7 && Weekday(e) == w
  {
    d + (w - d - 4) % 7
  }

  lemma {:induction false} SameWeekday(d: Day, k: nat)
    ensures Weekday(d + 7 * k) == Weekday(d)
  {
    if k > 0 {
      SameWeekday(d, k - 1);
      assert d + 7 * k == d + 7 * (k - 1) + 7;
    }
  }

  /** The k days d, d + 7, d + 14, ... */
  ghost function Weekly(d: Day, k: nat): (s: set<Day>)
    ensures |s| == k
    ensures forall x :: x in s ==> d <= x < d + 7 * k - 6
    ensures forall x :: x in s ==> Weekday(x) == Weekday(d)
  {
    if k == 0 then {}
    else
      SameWeekday(d, k - 1);
      var earlier := Weekly(d, k - 1);
      var last := d + 7 * (k - 1);
      assert last !in earlier;
      earlier + {last}
  }

  /** A weekday that works and at most 521 holidays: each 3660 days hold a working day. */
  lemma SearchSucceedsUnlessHolidaysAbound(cal: Calendar, d: Day, w: int)
    requires w in cal.weekdays && 0 <= w <= 6 && |cal.holidays| <= 521
    ensures NextWorkday(cal, d).Some?
  {
    var first := OnWeekday(d, w);
    var candidates := Weekly(first, 522);
    if forall x :: x in candidates ==> x in cal.holidays {
      DistinctMembers(candidates, cal.holidays);
      assert false;
    }
    var x :| x in candidates && x !in cal.holidays;
    assert Working(cal, x);
  }

  lemma SearchSucceeds(cal: Calendar, d: Day)
    requires ValidCalendar(cal)
    ensures NextWorkday(cal, d).Some?
  {
    SearchSucceedsUnlessHolidaysAbound(cal, d, cal.weekdays[0]);
  }

  lemma {:induction false} AdvanceSucceeds(cal: Calendar, d: Day, steps: nat)
    requires ValidCalendar(cal)
    ensures Advance(cal, d, steps).Some?
    decreases steps
  {
    if steps > 0 {
      SearchSucceeds(cal, d + 1);
      AdvanceSucceeds(cal, NextWorkday(cal, d + 1).value, steps - 1);
    }
  }

  /** 522 holidays can defeat the search: the bound on holidays is the exact one. */
  lemma SearchCanFailWith522Holidays()
    ensures exists cal: Calendar, d: Day :: |cal.holidays| == 522 && cal.weekdays == [0] && NextWorkday(cal, d).None?
  {
    var cal := Calendar([0], Sundays(522));
    forall x | 4 <= x < 4 + SEARCH_LIMIT
      ensures !Working(cal, x)
    {
      if Weekday(x) == 0 {
        assert Sundays(522)[(x - 10) / 7] == x;
      }
    }
    assert NextWorkday(cal, 4).None?;
  }

  /** The first k Sundays after day 9: day 10 was a Sunday. */
  function Sundays(k: nat): (s: seq<Day>)
    ensures |s| == k && forall i :: 0 <= i < k ==> s[i] == 10 + 7 * i
  {
    if k == 0 then [] else Sundays(k - 1) + [10 + 7 * (k - 1)]
  }
}
