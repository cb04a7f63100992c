/** Stage 1 of the generator: one demand record per day of the horizon. */
module Demand {
  import opened Util
  import opened Calendar
  import opened Records

  const BaseDemand: int := 300
  /** `randint(-40, 60)` draws from -40..59: the upper bound is exclusive. */
  const OffsetLow: int := -40
  const OffsetHigh: int := 59

  predicate ValidOffset(u: int) {
    OffsetLow <= u <= OffsetHigh
  }

  predicate IsPeakMonth(date: int) {
    MonthOf(date) == 5 || MonthOf(date) == 6
  }

  /** `int((base + u) * factor)` with factor 1.2 in May and June, 1 otherwise.
      Off peak the demand is 260..359; in peak months it is the 6/5 multiple
      of that level rounded down, 312..430; it is never negative. */
  function DailyDemand(date: int, u: int): (r: int)
    requires ValidOffset(u)
    ensures !IsPeakMonth(date) ==> r == BaseDemand + u && 260 <= r <= 359
    ensures IsPeakMonth(date) ==> r == (6 * (BaseDemand + u)) / 5 && 312 <= r <= 430
    ensures r >= 0
  {
    var level := BaseDemand + u;
    if IsPeakMonth(date) then Trunc(level as real * 1.2) else level
  }

  /** The demand loop: one record per date, in date order. */
  method GenerateDemand(dates: seq<int>, offsets: seq<int>) returns (records: seq<DemandRecord>)
    requires |offsets| == |dates|
    requires forall i :: 0 <= i < |offsets| ==> ValidOffset(offsets[i])
    ensures |records| == |dates|
    ensures forall i :: 0 <= i < |dates| ==>
      records[i] == DemandRecord(dates[i], RawMaterialId, DailyDemand(dates[i], offsets[i]))
  {
    records := [];
    for i := 0 to |dates|
      invariant |records| == i
      invariant forall k :: 0 <= k < i ==>
        records[k] == DemandRecord(dates[k], RawMaterialId, DailyDemand(dates[k], offsets[k]))
    {
      var demand := DailyDemand(dates[i], offsets[i]);
      records := records + [DemandRecord(dates[i], RawMaterialId, demand)];
    }
  }

  /** `demand_data.loc[demand_data["date"] == date, "actual_demand"].values[0]`:
      the demand of the first record on that date, None when there is none
      (where the source raises an IndexError). */
  function DemandOn(records: seq<DemandRecord>, date: int): (r: Option<int>)
    ensures r.Some? <==> exists i :: 0 <= i < |records| && records[i].date == date
  {
    if records == [] then None
    else if records[0].date == date then Some(records[0].actualDemand)
    else
      var r := DemandOn(records[1..], date);
      assert forall i :: 1 <= i < |records| ==> records[i] == records[1..][i - 1];
      r
  }

  /** On a series with one record per date in increasing date order, the
      lookup by the i-th date finds the i-th record. */
  lemma {:induction false} DemandOnSeries(records: seq<DemandRecord>, dates: seq<int>, i: nat)
    requires |records| == |dates| && Increasing(dates)
    requires forall k :: 0 <= k < |records| ==> records[k].date == dates[k]
    requires i < |dates|
    ensures DemandOn(records, dates[i]) == Some(records[i].actualDemand)
  {
    if i > 0 {
      DemandOnSeries(records[1..], dates[1..], i - 1);
    }
  }
}
