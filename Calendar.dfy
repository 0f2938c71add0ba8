/** Days as integers: day 0 is 1970-01-01, a Thursday. Weekdays are numbered from Sunday (0) to
  * Saturday (6), as `Date.prototype.getDay` does. */
module Calendar {
  const Sunday := 0
  const Tuesday := 2
  const Friday := 5
  const Saturday := 6

  function Weekday(day: int): (w: int)
    ensures 0 <= w < 7
  {
    (day + 4) % 7
  }

  lemma WeekdayShift(day: int, n: int)
    ensures Weekday(day + 7 * n) == Weekday(day)
  {
  }

  /** `isTuesday(today) ? today : previousTuesday(today)`: the latest Tuesday not after `today`. */
  function WeekStart(today: int): (r: int)
    ensures Weekday(r) == Tuesday
    ensures r <= today < r + 7
  {
    today - (Weekday(today) - Tuesday) % 7
  }

  /** The week start is `today` exactly on Tuesdays. */
  lemma WeekStartOnTuesday(today: int)
    ensures WeekStart(today) == today <==> Weekday(today) == Tuesday
  {
  }

  /** No other Tuesday lies between the week start and `today`: it is the latest one. */
  lemma WeekStartLatest(today: int, t: int)
    requires Weekday(t) == Tuesday && t <= today
    ensures t <= WeekStart(today)
  {
    var r := WeekStart(today);
    assert (t - r) % 7 == 0 by {
      assert (t + 4) % 7 == (r + 4) % 7;
    }
  }

  /** The week of a day a week later starts a week later. */
  lemma WeekStartShift(today: int)
    ensures WeekStart(today + 7) == WeekStart(today) + 7
  {
  }
}
