/** The read-only KPI endpoints of the API over the purchase-order table and
    the inventory ledger, taken as already loaded sequences of rows. */
module Kpi {
  import opened Util
  import opened Strings
  import opened Records
  import opened Ledger

  /** Whether a row passes the optional query filters. An empty supplier
      string is falsy in Python and so filters nothing. */
  predicate Selected(o: PurchaseOrder, start: Option<int>, end: Option<int>, supplier: Option<string>) {
    && (start.None? || o.actualDelivery >= start.value)
    && (end.None? || o.actualDelivery <= end.value)
    && (supplier.None? || supplier.value == "" || o.supplierId == supplier.value)
  }

  /** `filter_po_data`: three successive selections on the delivery date
      and the supplier, each applied only when its parameter is given. */
  function FilterPoData(rows: seq<PurchaseOrder>, start: Option<int>, end: Option<int>,
                        supplier: Option<string>): (df: seq<PurchaseOrder>)
    ensures |df| <= |rows|
    ensures forall o :: o in df <==> o in rows && Selected(o, start, end, supplier)
  {
    var afterStart := if start.Some? then Where(rows, (o: PurchaseOrder) => o.actualDelivery >= start.value) else rows;
    var beforeEnd := if end.Some? then Where(afterStart, (o: PurchaseOrder) => o.actualDelivery <= end.value) else afterStart;
    if supplier.Some? && supplier.value != "" then Where(beforeEnd, (o: PurchaseOrder) => o.supplierId == supplier.value)
    else beforeEnd
  }

  /** The successive selections keep exactly the selected rows, in their
      original order. */
  lemma FilterPoDataSelects(rows: seq<PurchaseOrder>, start: Option<int>, end: Option<int>,
                            supplier: Option<string>)
    ensures FilterPoData(rows, start, end, supplier)
         == Where(rows, (o: PurchaseOrder) => Selected(o, start, end, supplier))
  {
    var p1 := (o: PurchaseOrder) => start.None? || o.actualDelivery >= start.value;
    var p2 := (o: PurchaseOrder) => end.None? || o.actualDelivery <= end.value;
    var p3 := (o: PurchaseOrder) => supplier.None? || supplier.value == "" || o.supplierId == supplier.value;
    var p12 := (o: PurchaseOrder) => p1(o) && p2(o);
    var all := (o: PurchaseOrder) => Selected(o, start, end, supplier);
    var a := if start.Some? then Where(rows, (o: PurchaseOrder) => o.actualDelivery >= start.value) else rows;
    if start.Some? {
      WhereExt(rows, (o: PurchaseOrder) => o.actualDelivery >= start.value, p1);
    } else {
      WhereAll(rows, p1);
    }
    assert a == Where(rows, p1);
    var b := if end.Some? then Where(a, (o: PurchaseOrder) => o.actualDelivery <= end.value) else a;
    if end.Some? {
      WhereExt(a, (o: PurchaseOrder) => o.actualDelivery <= end.value, p2);
    } else {
      WhereAll(a, p2);
    }
    assert b == Where(a, p2);
    WhereWhere(rows, p1, p2, p12);
    assert b == Where(rows, p12);
    var c := FilterPoData(rows, start, end, supplier);
    if supplier.Some? && supplier.value != "" {
      WhereExt(b, (o: PurchaseOrder) => o.supplierId == supplier.value, p3);
    } else {
      WhereAll(b, p3);
    }
    assert c == Where(b, p3);
    WhereWhere(rows, p12, p3, all);
  }

  /** `count / total * 100` over a filtered table, and 0 for an empty one. */
  function Percentage(rows: seq<PurchaseOrder>, good: PurchaseOrder -> bool): (pct: real)
    ensures rows == [] ==> pct == 0.0
    ensures 0.0 <= pct <= 100.0
    ensures rows != [] ==> (pct == 100.0 <==> forall o :: o in rows ==> good(o))
    ensures rows != [] ==> (pct == 0.0 <==> forall o :: o in rows ==> !good(o))
  {
    if |rows| == 0 then 0.0
    else
      var count := |Where(rows, good)|;
      RatioBounds(count, |rows|);
      (count as real / |rows| as real) * 100.0
  }

  lemma RatioBounds(count: nat, total: nat)
    requires count <= total && total > 0
    ensures 0.0 <= (count as real / total as real) * 100.0 <= 100.0
    ensures (count as real / total as real) * 100.0 == 100.0 <==> count == total
    ensures (count as real / total as real) * 100.0 == 0.0 <==> count == 0
  {
    UnitRatio(count as real, total as real);
  }

  /** A part of a positive whole is a ratio in 0..1, which is 1 exactly
      for the whole and 0 exactly for nothing. */
  lemma UnitRatio(c: real, t: real)
    requires t > 0.0 && 0.0 <= c <= t
    ensures 0.0 <= c / t <= 1.0
    ensures c / t == 1.0 <==> c == t
    ensures c / t == 0.0 <==> c == 0.0
  {
    var r := c / t;
    assert r * t == c;
    if r < 0.0 {
      NegativeTimesPositive(r, t);
    }
    if r > 1.0 {
      NegativeTimesPositive(1.0 - r, t);
    }
    if c == t {
      ZeroProduct(r - 1.0, t);
    }
    if c == 0.0 {
      ZeroProduct(r, t);
    }
  }

  lemma NegativeTimesPositive(a: real, t: real)
    requires a < 0.0 && t > 0.0
    ensures a * t < 0.0
  {
  }

  lemma ZeroProduct(a: real, t: real)
    requires t != 0.0 && a * t == 0.0
    ensures a == 0.0
  {
  }

  /** Ratios over the same whole add up. */
  lemma RatioSum(a: real, b: real, t: real)
    requires t > 0.0
    ensures a / t + b / t == (a + b) / t
  {
    var x, y, z := a / t, b / t, (a + b) / t;
    assert x * t == a && y * t == b && z * t == a + b;
    assert (x + y - z) * t == 0.0;
    ZeroProduct(x + y - z, t);
  }

  /** `on_time_delivery`: share of the filtered orders without delay. */
  function OnTimeDelivery(rows: seq<PurchaseOrder>, start: Option<int>, end: Option<int>,
                          supplier: Option<string>): (pct: real)
    ensures FilterPoData(rows, start, end, supplier) == [] ==> pct == 0.0
    ensures 0.0 <= pct <= 100.0
    ensures FilterPoData(rows, start, end, supplier) != [] ==>
      (pct == 100.0 <==> forall o :: o in FilterPoData(rows, start, end, supplier) ==> !o.delayFlag)
  {
    Percentage(FilterPoData(rows, start, end, supplier), OnTime)
  }

  /** `allocation_compliance`: share of the filtered orders without the
      stored allocation-breach flag. */
  function AllocationCompliance(rows: seq<PurchaseOrder>, start: Option<int>, end: Option<int>,
                                supplier: Option<string>): (pct: real)
    ensures FilterPoData(rows, start, end, supplier) == [] ==> pct == 0.0
    ensures 0.0 <= pct <= 100.0
    ensures FilterPoData(rows, start, end, supplier) != [] ==>
      (pct == 100.0 <==> forall o :: o in FilterPoData(rows, start, end, supplier) ==> !o.breachFlag)
  {
    Percentage(FilterPoData(rows, start, end, supplier), Compliant)
  }

  /** The share of rows passing `good` is the share of rows not flagged
      when `good` is the negation of `flag`. */
  lemma UnflaggedShare(df: seq<PurchaseOrder>, flag: PurchaseOrder -> bool, good: PurchaseOrder -> bool,
                       flagged: nat)
    requires forall o :: good(o) == !flag(o)
    requires flagged == |Where(df, flag)|
    ensures flagged <= |df|
    ensures Percentage(df, good) == if df == [] then 0.0 else ((|df| - flagged) as real / |df| as real) * 100.0
  {
    if df != [] {
      WhereComplement(df, flag, good);
      var passing := |Where(df, good)|;
      assert Percentage(df, good) == (passing as real / |df| as real) * 100.0;
      assert passing as real == (|df| - flagged) as real;
    }
  }

  /** For any filter, the on-time percentage is the share of the kept
      orders that are not delayed, and 0 when nothing is kept. */
  lemma OnTimeIsUndelayedShare(rows: seq<PurchaseOrder>, start: Option<int>, end: Option<int>,
                               supplier: Option<string>, delayed: nat)
    requires delayed == |Where(FilterPoData(rows, start, end, supplier), Delayed)|
    ensures delayed <= |FilterPoData(rows, start, end, supplier)|
    ensures var df := FilterPoData(rows, start, end, supplier);
      OnTimeDelivery(rows, start, end, supplier)
        == if df == [] then 0.0 else ((|df| - delayed) as real / |df| as real) * 100.0
  {
    UnflaggedShare(FilterPoData(rows, start, end, supplier), Delayed, OnTime, delayed);
  }

  /** For any filter, the compliance is the share of the kept orders not
      flagged as breaches, and 0 when nothing is kept. */
  lemma ComplianceIsUnbreachedShare(rows: seq<PurchaseOrder>, start: Option<int>, end: Option<int>,
                                    supplier: Option<string>, breaches: nat)
    requires breaches == |Where(FilterPoData(rows, start, end, supplier), Breached)|
    ensures breaches <= |FilterPoData(rows, start, end, supplier)|
    ensures var df := FilterPoData(rows, start, end, supplier);
      AllocationCompliance(rows, start, end, supplier)
        == if df == [] then 0.0 else ((|df| - breaches) as real / |df| as real) * 100.0
  {
    UnflaggedShare(FilterPoData(rows, start, end, supplier), Breached, Compliant, breaches);
  }

  function SumDelay(rows: seq<PurchaseOrder>): int {
    if rows == [] then 0 else rows[0].delayDays + SumDelay(rows[1..])
  }

  /** Delays drawn from 0..5 sum to between 0 and 5 per row; the sum is 0
      exactly when no row is delayed. */
  lemma {:induction false} SumDelayBounds(rows: seq<PurchaseOrder>)
    requires forall o :: o in rows ==> 0 <= o.delayDays <= 5
    ensures 0 <= SumDelay(rows) <= 5 * |rows|
    ensures SumDelay(rows) == 0 <==> forall o :: o in rows ==> o.delayDays == 0
  {
    if rows != [] {
      assert forall o :: o in rows[1..] ==> o in rows;
      SumDelayBounds(rows[1..]);
      assert forall o :: o in rows ==> o == rows[0] || o in rows[1..];
    }
  }

  /** `avg_delay`: mean delay of the filtered orders, 0 for none. */
  function AvgDelay(rows: seq<PurchaseOrder>, start: Option<int>, end: Option<int>,
                    supplier: Option<string>): (avg: real)
    ensures FilterPoData(rows, start, end, supplier) == [] ==> avg == 0.0
  {
    var df := FilterPoData(rows, start, end, supplier);
    if |df| == 0 then 0.0 else SumDelay(df) as real / |df| as real
  }

  lemma MeanBounds(sum: int, total: nat)
    requires total > 0 && 0 <= sum <= 5 * total
    ensures 0.0 <= sum as real / total as real <= 5.0
    ensures sum as real / total as real == 0.0 <==> sum == 0
  {
    var m := sum as real / total as real;
    assert m * total as real == sum as real;
  }

  /** With delays drawn from {0, 1, 2, 3, 5} the mean lies in 0..5, and it is
      0 exactly when every filtered order is on time, so a zero average
      delay and a 100% on-time rate go together. */
  lemma AvgDelayAgreesWithOnTime(rows: seq<PurchaseOrder>, start: Option<int>, end: Option<int>,
                                 supplier: Option<string>)
    requires forall o :: o in rows ==> 0 <= o.delayDays <= 5 && (o.delayFlag <==> o.delayDays > 0)
    ensures 0.0 <= AvgDelay(rows, start, end, supplier) <= 5.0
    ensures FilterPoData(rows, start, end, supplier) != [] ==>
      (AvgDelay(rows, start, end, supplier) == 0.0 <==> OnTimeDelivery(rows, start, end, supplier) == 100.0)
  {
    var df := FilterPoData(rows, start, end, supplier);
    FilterPoDataSelects(rows, start, end, supplier);
    assert forall o :: o in df ==> o in rows;
    SumDelayBounds(df);
    if df != [] {
      MeanBounds(SumDelay(df), |df|);
      assert AvgDelay(rows, start, end, supplier) == SumDelay(df) as real / |df| as real;
      assert (forall o :: o in df ==> o.delayDays == 0) <==> (forall o :: o in df ==> !o.delayFlag);
    }
  }

  /** The supplier ids occurring in a table. */
  function SupplierIds(rows: seq<PurchaseOrder>): (ids: set<string>)
    ensures forall o :: o in rows ==> o.supplierId in ids
  {
    if rows == [] then {}
    else
      assert forall o :: o in rows ==> o == rows[0] || o in rows[1..];
      {rows[0].supplierId} + SupplierIds(rows[1..])
  }

  /** The rows of one supplier, in stored order. */
  function Group(rows: seq<PurchaseOrder>, key: string): (group: seq<PurchaseOrder>)
    ensures forall o :: o in group <==> o in rows && o.supplierId == key
  {
    Where(rows, (o: PurchaseOrder) => o.supplierId == key)
  }

  /** Every supplier id that occurs has a non-empty group. */
  lemma {:induction false} GroupNonEmpty(rows: seq<PurchaseOrder>, key: string)
    requires key in SupplierIds(rows)
    ensures Group(rows, key) != []
  {
    assert rows != [];
    if rows[0].supplierId == key {
      assert rows[0] in Group(rows, key);
    } else {
      GroupNonEmpty(rows[1..], key);
      var o := Group(rows[1..], key)[0];
      assert o in rows[1..];
      assert o in Group(rows, key);
    }
  }

  /** The distinct supplier ids of a table in ascending order, as
      `groupby` lists its groups. */
  function SupplierKeys(rows: seq<PurchaseOrder>): (keys: seq<string>)
    ensures StrictlySorted(keys)
    ensures forall k :: k in keys <==> k in SupplierIds(rows)
  {
    if rows == [] then []
    else InsertKey(rows[0].supplierId, SupplierKeys(rows[1..]))
  }

  datatype SupplierScore = SupplierScore(supplierId: string, percentage: real)

  /** The supplier column of a score table. */
  function ScoreIds(scores: seq<SupplierScore>): (ids: seq<string>)
    ensures |ids| == |scores|
    ensures forall i :: 0 <= i < |scores| ==> ids[i] == scores[i].supplierId
  {
    seq(|scores|, i requires 0 <= i < |scores| => scores[i].supplierId)
  }

  /** Row predicates the supplier endpoints average over. */
  predicate Delayed(o: PurchaseOrder) { o.delayFlag }
  predicate Breached(o: PurchaseOrder) { o.breachFlag }
  predicate OnTime(o: PurchaseOrder) { !o.delayFlag }
  predicate Compliant(o: PurchaseOrder) { !o.breachFlag }

  /** `(1 - group[flag].mean()) * 100` for the group of one supplier: the
      share of its rows without the flag. */
  function GroupCompliance(df: seq<PurchaseOrder>, key: string, flag: PurchaseOrder -> bool): (pct: real)
    requires key in SupplierIds(df)
    ensures 0.0 <= pct <= 100.0
    ensures pct == 100.0 <==> forall o :: o in Group(df, key) ==> !flag(o)
  {
    var group := Group(df, key);
    GroupNonEmpty(df, key);
    var flagged := |Where(group, flag)|;
    ShareComplement(flagged, |group| - flagged, |group|);
    RatioBounds(|group| - flagged, |group|);
    (1.0 - flagged as real / |group| as real) * 100.0
  }

  /** One minus the flagged share is the unflagged share. */
  lemma ShareComplement(flagged: nat, unflagged: nat, total: nat)
    requires total > 0 && flagged + unflagged == total
    ensures (1.0 - flagged as real / total as real) * 100.0 == (unflagged as real / total as real) * 100.0
    ensures 0.0 <= (unflagged as real / total as real) * 100.0 <= 100.0
  {
    RatioBounds(unflagged, total);
    var t := total as real;
    RatioSum(flagged as real, unflagged as real, t);
    UnitRatio(t, t);
  }

  /** One score per supplier present, in ascending supplier order, each the
      unflagged share of that supplier's rows. */
  function GroupScores(df: seq<PurchaseOrder>, flag: PurchaseOrder -> bool): (r: seq<SupplierScore>)
    ensures ScoreIds(r) == SupplierKeys(df)
    ensures forall i :: 0 <= i < |r| ==> r[i].supplierId in SupplierIds(df)
    ensures forall i :: 0 <= i < |r| ==> r[i].percentage == GroupCompliance(df, r[i].supplierId, flag)
  {
    var keys := SupplierKeys(df);
    seq(|keys|, i requires 0 <= i < |keys| =>
      assert keys[i] in keys;
      SupplierScore(keys[i], GroupCompliance(df, keys[i], flag)))
  }

  /** `supplier_performance`: per supplier, in ascending id order, the share
      of its orders in the date window without delay; `[]` when nothing
      passes the date filter. */
  function SupplierPerformance(rows: seq<PurchaseOrder>, start: Option<int>, end: Option<int>)
    : (r: seq<SupplierScore>)
    ensures StrictlySorted(ScoreIds(r))
    ensures forall k :: k in ScoreIds(r) <==> k in SupplierIds(FilterPoData(rows, start, end, None))
    ensures forall i :: 0 <= i < |r| ==> 0.0 <= r[i].percentage <= 100.0
  {
    var df := FilterPoData(rows, start, end, None);
    if |df| == 0 then [] else GroupScores(df, Delayed)
  }

  /** `supplier_allocation_compliance`: per supplier, in ascending id order,
      the share of its orders in the date window without the stored breach
      flag; `[]` when nothing passes the date filter. */
  function SupplierAllocationCompliance(rows: seq<PurchaseOrder>, start: Option<int>, end: Option<int>)
    : (r: seq<SupplierScore>)
    ensures StrictlySorted(ScoreIds(r))
    ensures forall k :: k in ScoreIds(r) <==> k in SupplierIds(FilterPoData(rows, start, end, None))
    ensures forall i :: 0 <= i < |r| ==> 0.0 <= r[i].percentage <= 100.0
  {
    var df := FilterPoData(rows, start, end, None);
    if |df| == 0 then [] else GroupScores(df, Breached)
  }

  /** A group score is the percentage the single-supplier endpoint reports
      for that supplier over the same dates. */
  lemma GroupScoreIsSupplierPercentage(rows: seq<PurchaseOrder>, start: Option<int>, end: Option<int>,
                                       key: string, flag: PurchaseOrder -> bool, good: PurchaseOrder -> bool)
    requires key != ""
    requires forall o :: good(o) == !flag(o)
    requires key in SupplierIds(FilterPoData(rows, start, end, None))
    ensures GroupCompliance(FilterPoData(rows, start, end, None), key, flag)
         == Percentage(FilterPoData(rows, start, end, Some(key)), good)
  {
    var df := FilterPoData(rows, start, end, None);
    var group := Group(df, key);
    GroupNonEmpty(df, key);
    WhereExt(df, (o: PurchaseOrder) => o.supplierId == key, (o: PurchaseOrder) => o.supplierId == Some(key).value);
    assert FilterPoData(rows, start, end, Some(key)) == group;
    WhereComplement(group, flag, good);
    ShareComplement(|Where(group, flag)|, |Where(group, good)|, |group|);
  }

  /** Each `supplier_performance` entry equals `on_time_delivery` asked for
      that supplier over the same dates. */
  lemma SupplierPerformanceMatchesOnTime(rows: seq<PurchaseOrder>, start: Option<int>, end: Option<int>, i: nat)
    requires i < |SupplierPerformance(rows, start, end)|
    requires SupplierPerformance(rows, start, end)[i].supplierId != ""
    ensures SupplierPerformance(rows, start, end)[i].percentage
         == OnTimeDelivery(rows, start, end, Some(SupplierPerformance(rows, start, end)[i].supplierId))
  {
    var df := FilterPoData(rows, start, end, None);
    var r := GroupScores(df, Delayed);
    assert SupplierPerformance(rows, start, end) == r;
    GroupScoreIsSupplierPercentage(rows, start, end, r[i].supplierId, Delayed, OnTime);
  }

  /** Each `supplier_allocation_compliance` entry equals
      `allocation_compliance` asked for that supplier over the same dates. */
  lemma SupplierComplianceMatchesCompliance(rows: seq<PurchaseOrder>, start: Option<int>, end: Option<int>, i: nat)
    requires i < |SupplierAllocationCompliance(rows, start, end)|
    requires SupplierAllocationCompliance(rows, start, end)[i].supplierId != ""
    ensures SupplierAllocationCompliance(rows, start, end)[i].percentage
         == AllocationCompliance(rows, start, end, Some(SupplierAllocationCompliance(rows, start, end)[i].supplierId))
  {
    var df := FilterPoData(rows, start, end, None);
    var r := GroupScores(df, Breached);
    assert SupplierAllocationCompliance(rows, start, end) == r;
    GroupScoreIsSupplierPercentage(rows, start, end, r[i].supplierId, Breached, Compliant);
  }

  /** `stockout_days`: the number of ledger days flagged as stockouts. */
  function StockoutDays(ledger: seq<LedgerEntry>): (n: nat)
    ensures n <= |ledger|
    ensures n == 0 <==> forall e :: e in ledger ==> !e.stockout
  {
    |Where(ledger, (e: LedgerEntry) => e.stockout)|
  }

  /** On a chained ledger the stockout days are the days that close below
      the safety stock. */
  lemma StockoutDaysCountsLowClosings(ledger: seq<LedgerEntry>, initial: int)
    requires Chained(ledger, initial)
    ensures StockoutDays(ledger) == |Where(ledger, (e: LedgerEntry) => e.closing < e.safetyStock)|
  {
    forall e | e in ledger ensures e.stockout == (e.closing < e.safetyStock) {
      var i :| 0 <= i < |ledger| && ledger[i] == e;
      assert Balanced(ledger[i]);
    }
    WhereExt(ledger, (e: LedgerEntry) => e.stockout, (e: LedgerEntry) => e.closing < e.safetyStock);
  }

  /** `current_stock`: the closing stock of the last row in stored order;
      None for an empty ledger, where the source raises an IndexError. */
  function CurrentStock(ledger: seq<LedgerEntry>): (r: Option<int>)
    ensures r.None? <==> ledger == []
  {
    if ledger == [] then None else Some(ledger[|ledger| - 1].closing)
  }

  /** On a chained ledger the current stock is the initial stock plus all
      receipts minus all consumption. */
  lemma CurrentStockIsNetFlow(ledger: seq<LedgerEntry>, initial: int)
    requires Chained(ledger, initial) && ledger != []
    ensures CurrentStock(ledger) == Some(initial + TotalReceived(ledger) - TotalConsumed(ledger))
  {
    ClosingIsNetFlow(ledger, initial, |ledger| - 1);
    assert ledger[..|ledger|] == ledger;
  }

  /** The last stored row is the latest day only when rows are stored in
      date order: a ledger stored newest-first reports its oldest day. */
  lemma CurrentStockFollowsStoredOrder(a: LedgerEntry, b: LedgerEntry)
    requires a.date < b.date && a.closing != b.closing
    ensures CurrentStock([b, a]) == Some(a.closing) != Some(b.closing)
  {
  }
}
