/** get_nfl_week: the week of the season from the number of days between the
    season's start date and today. */
module Calendar {

  /** `int(difference_days.days / 7 + 1)` once today has reached the start
      date, 0 before it. `int()` of a non-negative float truncates, which is
      the floor. */
  function NflWeek(differenceDays: int): (week: int)
    ensures differenceDays < 0 ==> week == 0
    ensures 0 <= differenceDays ==> 1 <= week && 7 * (week - 1) <= differenceDays < 7 * week
  {
    if differenceDays >= 0 then (differenceDays as real / 7.0 + 1.0).Floor else 0
  }

  /** Days 0 to 6 are week 1. */
  lemma FirstWeek(differenceDays: int)
    requires 0 <= differenceDays < 7
    ensures NflWeek(differenceDays) == 1
  {
  }

  /** The week is `days div 7 + 1` from the start date on. */
  lemma WeekIsDaysDivSevenPlusOne(differenceDays: int)
    requires 0 <= differenceDays
    ensures NflWeek(differenceDays) == differenceDays / 7 + 1
  {
    var q := differenceDays / 7;
    assert 7 * q <= differenceDays < 7 * (q + 1);
  }

  /** Seven days later it is exactly one week later. */
  lemma NextWeekAfterSevenDays(differenceDays: int)
    requires 0 <= differenceDays
    ensures NflWeek(differenceDays + 7) == NflWeek(differenceDays) + 1
  {
    WeekIsDaysDivSevenPlusOne(differenceDays);
    WeekIsDaysDivSevenPlusOne(differenceDays + 7);
  }

  /** The week is never negative and never goes back as the date advances. */
  lemma WeekMonotone(d1: int, d2: int)
    requires d1 <= d2
    ensures 0 <= NflWeek(d1) <= NflWeek(d2)
  {
    if 0 <= d1 {
      WeekIsDaysDivSevenPlusOne(d1);
      WeekIsDaysDivSevenPlusOne(d2);
    }
  }
}
