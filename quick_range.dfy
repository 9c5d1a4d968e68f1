/**
 * The quick-range buttons (1m, 6m, 1y, 5y). Each button reports the time of
 * its last click (0 when never clicked); the resolver turns the four
 * timestamps into the date picker's (start, end) pair. Dates are day numbers
 * and `today` is a parameter in place of the wall clock.
 */
module QuickRange {
  import opened Wrappers

  datatype Button = OneMonth | SixMonths | OneYear | FiveYears

  /** The buttons in the order the resolver tests them. */
  const Buttons: seq<Button> := [OneMonth, SixMonths, OneYear, FiveYears]

  /** Days back from today that each button selects. */
  function Offset(b: Button): (d: nat)
    ensures 31 <= d <= 1826
  {
    match b
    case OneMonth => 31
    case SixMonths => 181
    case OneYear => 366
    case FiveYears => 1826
  }

  /** Days back from today when no button was ever clicked. */
  const DefaultOffset: nat := 181

  /** The last complete trading day: the day before today. */
  function Yesterday(today: int): (y: int)
    ensures y < today && today - y == 1
  {
    today - 1
  }

  /** The pair sent to the date picker; `start` is None while unassigned. */
  datatype DateRange = DateRange(start: Option<int>, end: int)

  /** Python's built-in `max` over a non-empty list. */
  function Max(ts: seq<int>): (m: int)
    requires ts != []
    ensures m in ts
    ensures forall k :: 0 <= k < |ts| ==> ts[k] <= m
  {
    if |ts| == 1 then ts[0]
    else
      var rest := Max(ts[1..]);
      if ts[0] >= rest then ts[0] else rest
  }

  /**
   * The resolver: when the largest timestamp is 0 the default range is
   * used; otherwise the first button, in the order 1m, 6m, 1y, 5y, whose
   * timestamp equals the largest one decides the start.
   */
  function SetButtonDates(m1: int, m6: int, y1: int, y5: int, today: int): (r: DateRange)
    ensures r.end == Yesterday(today)
    ensures r.start.Some? && r.start.value < r.end
    ensures r.start.value in {today - 31, today - 181, today - 366, today - 1826}
  {
    var rangeSelect := [m1, m6, y1, y5];
    if Max(rangeSelect) == 0 then
      DateRange(Some(today - DefaultOffset), Yesterday(today))
    else
      var start :=
        if m1 == Max(rangeSelect) then Some(today - Offset(OneMonth))
        else if m6 == Max(rangeSelect) then Some(today - Offset(SixMonths))
        else if y1 == Max(rangeSelect) then Some(today - Offset(OneYear))
        else if y5 == Max(rangeSelect) then Some(today - Offset(FiveYears))
        else None;
      DateRange(start, Yesterday(today))
  }

  // ---------------------------------------------------------------------
  // Reference definition of the chosen button

  /** Button k holds the largest timestamp and no earlier button does. */
  ghost predicate FirstLatest(ts: seq<int>, k: nat)
  {
    k < |ts|
    && (forall j :: 0 <= j < |ts| ==> ts[j] <= ts[k])
    && (forall j :: 0 <= j < k ==> ts[j] < ts[k])
  }

  /** Index of the first occurrence of x. */
  function IndexOf(ts: seq<int>, x: int): (k: nat)
    requires x in ts
    ensures k < |ts| && ts[k] == x
    ensures forall j :: 0 <= j < k ==> ts[j] != x
  {
    if ts[0] == x then 0 else 1 + IndexOf(ts[1..], x)
  }

  /** The first button, in priority order, whose timestamp is the largest. */
  function ChosenButton(ts: seq<int>): (k: nat)
    requires ts != []
    ensures FirstLatest(ts, k)
  {
    IndexOf(ts, Max(ts))
  }

  /** At most one button is the first latest one, so the choice is unambiguous. */
  lemma FirstLatestUnique(ts: seq<int>, k1: nat, k2: nat)
    requires FirstLatest(ts, k1) && FirstLatest(ts, k2)
    ensures k1 == k2
  {
    assert ts[k1] == ts[k2];
  }

  /**
   * The resolver against the reference definition: when the largest
   * timestamp is 0 the start is today minus the default offset, and
   * otherwise (negative maxima included) today minus the offset of the
   * first latest button.
   */
  lemma {:induction false} ResolvesChosenButton(m1: int, m6: int, y1: int, y5: int, today: int)
    ensures var ts := [m1, m6, y1, y5];
      SetButtonDates(m1, m6, y1, y5, today).start
        == Some(today - if Max(ts) == 0 then DefaultOffset else Offset(Buttons[ChosenButton(ts)]))
    ensures var ts := [m1, m6, y1, y5];
      forall k: nat :: Max(ts) != 0 && FirstLatest(ts, k) ==>
        SetButtonDates(m1, m6, y1, y5, today).start == Some(today - Offset(Buttons[k]))
  {
    var ts := [m1, m6, y1, y5];
    var k := ChosenButton(ts);
    assert ts[0] == m1 && ts[1] == m6 && ts[2] == y1 && ts[3] == y5;
    forall k': nat | Max(ts) != 0 && FirstLatest(ts, k')
      ensures SetButtonDates(m1, m6, y1, y5, today).start == Some(today - Offset(Buttons[k']))
    {
      FirstLatestUnique(ts, k, k');
    }
  }

  /** A negative largest timestamp is not the default case: the chain still picks a button. */
  lemma NegativeMaximumPicksButton(today: int)
    ensures SetButtonDates(-1, -5, -5, -5, today).start == Some(today - 31)
  {
    assert Max([-1, -5, -5, -5]) == -1;
  }

  /** Equal latest timestamps on 1m and 6m resolve to the 1m button. */
  lemma TieGoesToEarlier(t: int, y1: int, y5: int, today: int)
    requires t != 0 && y1 <= t && y5 <= t
    ensures SetButtonDates(t, t, y1, y5, today).start == Some(today - 31)
  {
    assert Max([t, t, y1, y5]) == t;
  }

  /** No click yet: the default six-month-style range. */
  lemma NoClickDefault(today: int)
    ensures SetButtonDates(0, 0, 0, 0, today) == DateRange(Some(today - 181), today - 1)
  {
  }
}
