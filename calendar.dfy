/** Calendar days as ordinals: day 0 is 1970-01-01 and `d + n` is the date
    `n` days later, which is what adding `timedelta(days=n)` does. */
module Calendar {

  /** 2025-01-01 and 2025-06-30, the generation horizon. */
  const FirstDay: int := 20089
  const LastDay: int := 20269
  /** 2025-05-01, the first day of the May/June peak season. */
  const PeakStart: int := 20209

  /** Month (1..12) of a day ordinal in the proleptic Gregorian calendar,
      by the civil-from-days conversion over 400-year eras. */
  function MonthOf(day: int): int {
    var z := day + 719468;
    var era := z / 146097;                // floor division: the divisor is positive
    var doe := z - era * 146097;          // day of era, 0..146096
    var yoe := (doe - doe / 1460 + doe / 36524 - doe / 146096) / 365;
    var doy := doe - (365 * yoe + yoe / 4 - yoe / 100);  // day of March-based year
    var mp := (5 * doy + 2) / 153;        // March-based month, 0..11
    if mp < 10 then mp + 3 else mp - 9
  }

  /** `pd.date_range(first, last)`: every day from first to last inclusive. */
  function DateRange(first: int, last: int): (dates: seq<int>)
    ensures first <= last ==> |dates| == last - first + 1
    ensures first > last ==> dates == []
    ensures forall i :: 0 <= i < |dates| ==> dates[i] == first + i
  {
    if first > last then [] else seq(last - first + 1, i => first + i)
  }

  predicate Increasing(dates: seq<int>) {
    forall i, j :: 0 <= i < j < |dates| ==> dates[i] < dates[j]
  }

  lemma DateRangeIncreasing(first: int, last: int)
    ensures Increasing(DateRange(first, last))
  {
  }

  /** First days of February, March, April and June 2025. */
  const FebStart: int := 20120
  const MarStart: int := 20148
  const AprStart: int := 20179
  const JunStart: int := 20240

  /** Inside the 2025 horizon the month of a day is the one whose first day
      is the latest not after it, as the civil calendar has it. */
  lemma MonthOfHorizon(day: int)
    requires FirstDay <= day <= LastDay
    ensures MonthOf(day) == if day < FebStart then 1 else if day < MarStart then 2
                            else if day < AprStart then 3 else if day < PeakStart then 4
                            else if day < JunStart then 5 else 6
  {
    var z := day + 719468;
    assert z / 146097 == 5;
    var doe := z - 5 * 146097;
    assert doe == day - 11017;
    assert doe / 1460 == 6 && doe / 36524 == 0 && doe / 146096 == 0;
    if day < MarStart {
      assert (doe - 6) / 365 == 24;
      var doy := doe - (365 * 24 + 24 / 4 - 24 / 100);
      assert doy == day - 19783;
      if day < FebStart {
        assert (5 * doy + 2) / 153 == 10;
      } else {
        assert (5 * doy + 2) / 153 == 11;
      }
    } else {
      assert (doe - 6) / 365 == 25;
      var doy := doe - (365 * 25 + 25 / 4 - 25 / 100);
      assert doy == day - MarStart;
      if day < AprStart {
        assert (5 * doy + 2) / 153 == 0;
      } else if day < PeakStart {
        assert (5 * doy + 2) / 153 == 1;
      } else if day < JunStart {
        assert (5 * doy + 2) / 153 == 2;
      } else {
        assert (5 * doy + 2) / 153 == 3;
      }
    }
  }

  /** Inside the 2025 horizon, the days in May or June are exactly those
      from 2025-05-01 on. */
  lemma PeakMonthsOfHorizon(day: int)
    requires FirstDay <= day <= LastDay
    ensures (MonthOf(day) == 5 || MonthOf(day) == 6) <==> day >= PeakStart
  {
    MonthOfHorizon(day);
  }
}
