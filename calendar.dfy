/** Calendar arithmetic shared by the trading-day rules: a date is a day
    number counted from 1970-01-01, which was a Thursday, and weekdays are
    numbered as Python's `date.weekday()` numbers them (Monday 0 ... Sunday
    6). Holidays are not modelled anywhere in the program: a trading day is a
    weekday. */
module Calendar {

  function Weekday(day: int): (w: int)
    ensures 0 <= w < 7
  {
    (day + 3) % 7
  }

  predicate IsWeekday(day: int) {
    Weekday(day) < 5
  }

  /** The day after a Sunday is a Monday, and otherwise the weekday number
      goes up by one. */
  lemma NextWeekday(day: int)
    ensures Weekday(day + 1) == if Weekday(day) == 6 then 0 else Weekday(day) + 1
  {
  }

  /** The two days after a Friday are not weekdays, and the third day is a
      Monday. */
  lemma WeekendFollowsFriday(day: int)
    requires Weekday(day) == 4
    ensures !IsWeekday(day + 1) && !IsWeekday(day + 2) && Weekday(day + 3) == 0
  {
  }

  /** Shifting by whole weeks keeps the weekday. */
  lemma {:induction false} WeekdayShift(day: int, weeks: nat)
    ensures Weekday(day + 7 * weeks) == Weekday(day)
  {
    if weeks > 0 {
      WeekdayShift(day, weeks - 1);
      assert day + 7 * weeks == (day + 7 * (weeks - 1)) + 7;
    }
  }
}
