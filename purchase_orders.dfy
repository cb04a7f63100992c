/** Stage 2 of the generator: one purchase order per (date, supplier). */
module PurchaseOrders {
  import opened Util
  import opened Strings
  import opened Calendar
  import opened Records
  import opened Demand

  /** The random draws one order consumes: the normal variate of the order
      quantity (mean 1, deviation 0.1), the delay chosen from
      {0, 1, 2, 3, 5} and the shrinkage drawn by `randint(0, 5)`. */
  datatype OrderDraw = OrderDraw(variation: real, delay: int, shrinkage: int)

  predicate ValidDraw(d: OrderDraw) {
    (d.delay == 0 || d.delay == 1 || d.delay == 2 || d.delay == 3 || d.delay == 5)
    && 0 <= d.shrinkage <= 4
  }

  /** `f"PO{k}"` */
  function PoId(k: nat): (id: string)
    ensures |id| >= 3 && id[..2] == "PO"
    ensures forall i :: 2 <= i < |id| ==> '0' <= id[i] <= '9'
  {
    "PO" + NatToString(k)
  }

  lemma PoIdInjective(a: nat, b: nat)
    requires a != b
    ensures PoId(a) != PoId(b)
  {
    if PoId(a) == PoId(b) {
      assert PoId(a)[2..] == NatToString(a) && PoId(b)[2..] == NatToString(b);
      NatToStringInjective(a, b);
    }
  }

  /** `daily_demand * allocation`, exactly. */
  function AllocatedQuantity(dailyDemand: int, s: Supplier): real {
    (dailyDemand * s.allocationPct) as real / 100.0
  }

  /** `int(allocated_qty * variation)` */
  function OrderedQuantity(target: real, variation: real): int {
    Trunc(target * variation)
  }

  /** `actual_order_qty > allocated_qty`, compared exactly. */
  predicate AllocationBreach(target: real, variation: real) {
    OrderedQuantity(target, variation) as real > target
  }

  /** The order of the inner loop body for counter value `counter`. */
  function MakeOrder(counter: nat, date: int, dailyDemand: int, s: Supplier, draw: OrderDraw): (o: PurchaseOrder)
    requires ValidDraw(draw)
    ensures o.poId == PoId(counter) && o.supplierId == s.id && o.materialId == RawMaterialId
    ensures o.orderDate == date
    ensures o.plannedDelivery == date + s.leadTime
    ensures o.actualDelivery == o.plannedDelivery + o.delayDays
    ensures date <= o.plannedDelivery <= o.actualDelivery <= o.plannedDelivery + 5
    ensures o.ordered == Trunc(AllocatedQuantity(dailyDemand, s) * draw.variation)
    ensures o.delayDays == draw.delay
    ensures o.delayFlag <==> o.delayDays > 0
    ensures o.received == o.ordered - draw.shrinkage && o.ordered - 4 <= o.received <= o.ordered
  {
    var target := AllocatedQuantity(dailyDemand, s);
    var qty := OrderedQuantity(target, draw.variation);
    var planned := date + s.leadTime;
    PurchaseOrder(
      PoId(counter), s.id, RawMaterialId, date, planned, planned + draw.delay,
      qty, qty - draw.shrinkage, draw.delay, draw.delay > 0,
      AllocationBreach(target, draw.variation))
  }

  /** A breach flag is only ever raised by a draw above its mean of 1:
      truncation never rounds an order up. */
  lemma BreachNeedsVariationAboveOne(counter: nat, date: int, dailyDemand: nat, s: Supplier, draw: OrderDraw)
    requires ValidDraw(draw)
    ensures MakeOrder(counter, date, dailyDemand, s, draw).breachFlag ==> draw.variation > 1.0
  {
    var target := AllocatedQuantity(dailyDemand, s);
    assert MakeOrder(counter, date, dailyDemand, s, draw).breachFlag == AllocationBreach(target, draw.variation);
    AllocatedNonNegative(dailyDemand, s);
    BreachNeedsScaleAboveOne(target, draw.variation);
  }

  lemma BreachNeedsScaleAboveOne(target: real, variation: real)
    requires target >= 0.0
    ensures AllocationBreach(target, variation) ==> variation > 1.0
  {
    if variation <= 1.0 {
      TruncScaledAtMost(target, variation);
    }
  }

  /** The flag compares the order with the exact allocated share, so it is
      the integer comparison `ordered * 100 > demand * percentage`. */
  lemma BreachFlagIsIntegerComparison(counter: nat, date: int, dailyDemand: int, s: Supplier, draw: OrderDraw)
    requires ValidDraw(draw)
    ensures MakeOrder(counter, date, dailyDemand, s, draw).breachFlag
        <==> MakeOrder(counter, date, dailyDemand, s, draw).ordered * 100 > dailyDemand * s.allocationPct
  {
    var o := MakeOrder(counter, date, dailyDemand, s, draw);
    ScaledComparison(o.ordered, dailyDemand * s.allocationPct);
  }

  lemma ScaledComparison(q: int, m: int)
    ensures (q as real > m as real / 100.0) <==> q * 100 > m
  {
  }

  lemma AllocatedNonNegative(dailyDemand: nat, s: Supplier)
    ensures AllocatedQuantity(dailyDemand, s) >= 0.0
  {
    if dailyDemand >= 1 {
      MulAtLeast(dailyDemand, s.allocationPct);
    }
  }

  lemma ScaleAtMost(a: real, v: real)
    requires a >= 0.0 && v <= 1.0
    ensures a * v <= a
  {
    assert a * (1.0 - v) >= 0.0;
  }

  lemma TruncScaledAtMost(a: real, v: real)
    requires a >= 0.0 && v <= 1.0
    ensures Trunc(a * v) as real <= a
  {
    ScaleAtMost(a, v);
  }

  /** Received quantities are not clamped: a zero order with shrinkage
      received a negative quantity. */
  lemma ReceivedCanBeNegative(date: int, s: Supplier)
    ensures MakeOrder(1, date, 300, s, OrderDraw(0.0, 0, 4)).received == -4
  {
  }

  lemma {:induction false} MulAtLeast(d: nat, n: nat)
    requires d >= 1
    ensures d * n >= n
  {
    if d > 1 {
      MulAtLeast(d - 1, n);
      assert d * n == (d - 1) * n + n;
    }
  }

  /** Index `i * n + j` of the flat order table belongs to date `i` and
      supplier `j`. */
  lemma DivModOfPair(i: nat, j: nat, n: nat)
    requires j < n
    ensures (i * n + j) / n == i && (i * n + j) % n == j
  {
    var k := i * n + j;
    var q, r := k / n, k % n;
    assert k == q * n + r && 0 <= r < n;
    if q > i {
      MulAtLeast(q - i, n);
      assert false;
    } else if q < i {
      MulAtLeast(i - q, n);
      assert false;
    }
  }

  lemma PairIndexBound(i: nat, j: nat, m: nat, n: nat)
    requires i < m && j < n
    ensures i * n + j < m * n
  {
    MulAtLeast(m - i, n);
    assert m * n == i * n + (m - i) * n;
  }

  lemma RowOfIndex(k: nat, m: nat, n: nat)
    requires k < m * n
    ensures n > 0 && k / n < m
  {
  }

  /** Entry `k` of the order table: date `k / n`, supplier `k % n`,
      draws `k` and counter value `k + 1`. */
  function OrderAt(dates: seq<int>, demand: seq<DemandRecord>, suppliers: seq<Supplier>,
                   draws: seq<OrderDraw>, k: nat): PurchaseOrder
    requires |draws| == |dates| * |suppliers| && k < |draws|
    requires forall k :: 0 <= k < |draws| ==> ValidDraw(draws[k])
    requires forall i :: 0 <= i < |dates| ==> DemandOn(demand, dates[i]).Some?
  {
    RowOfIndex(k, |dates|, |suppliers|);
    var date := dates[k / |suppliers|];
    MakeOrder(k + 1, date, DemandOn(demand, date).value, suppliers[k % |suppliers|], draws[k])
  }

  /** The order for date `i` and supplier `j` sits at index `i * n + j`. */
  lemma OrderAtPair(dates: seq<int>, demand: seq<DemandRecord>, suppliers: seq<Supplier>,
                    draws: seq<OrderDraw>, i: nat, j: nat)
    requires i < |dates| && j < |suppliers|
    requires |draws| == |dates| * |suppliers|
    requires forall k :: 0 <= k < |draws| ==> ValidDraw(draws[k])
    requires forall i :: 0 <= i < |dates| ==> DemandOn(demand, dates[i]).Some?
    ensures i * |suppliers| + j < |draws|
    ensures OrderAt(dates, demand, suppliers, draws, i * |suppliers| + j)
         == MakeOrder(i * |suppliers| + j + 1, dates[i], DemandOn(demand, dates[i]).value,
                      suppliers[j], draws[i * |suppliers| + j])
  {
    PairIndexBound(i, j, |dates|, |suppliers|);
    DivModOfPair(i, j, |suppliers|);
  }

  /** The purchase-order loop: date-major, then suppliers in list order, with
      `po_counter` starting at 1 and advancing once per order. */
  method GeneratePurchaseOrders(dates: seq<int>, demand: seq<DemandRecord>,
                                suppliers: seq<Supplier>, draws: seq<OrderDraw>)
    returns (orders: seq<PurchaseOrder>)
    requires forall i :: 0 <= i < |dates| ==> DemandOn(demand, dates[i]).Some?
    requires |draws| == |dates| * |suppliers|
    requires forall k :: 0 <= k < |draws| ==> ValidDraw(draws[k])
    ensures |orders| == |dates| * |suppliers|
    ensures forall k :: 0 <= k < |orders| ==> orders[k] == OrderAt(dates, demand, suppliers, draws, k)
    ensures forall a, b :: 0 <= a < b < |orders| ==> orders[a].poId != orders[b].poId
  {
    var n := |suppliers|;
    orders := [];
    var poCounter := 1;
    for i := 0 to |dates|
      invariant |orders| == i * n && poCounter == |orders| + 1 && |orders| <= |draws|
      invariant forall k :: 0 <= k < |orders| ==> orders[k] == OrderAt(dates, demand, suppliers, draws, k)
    {
      var dailyDemand := DemandOn(demand, dates[i]).value;
      for j := 0 to n
        invariant |orders| == i * n + j && poCounter == |orders| + 1 && |orders| <= |draws|
        invariant forall k :: 0 <= k < |orders| ==> orders[k] == OrderAt(dates, demand, suppliers, draws, k)
      {
        OrderAtPair(dates, demand, suppliers, draws, i, j);
        var order := MakeOrder(poCounter, dates[i], dailyDemand, suppliers[j], draws[poCounter - 1]);
        orders := orders + [order];
        poCounter := poCounter + 1;
      }
      assert i * n + n == (i + 1) * n;
    }
    forall a, b | 0 <= a < b < |orders| ensures orders[a].poId != orders[b].poId {
      PoIdInjective(a + 1, b + 1);
    }
  }
}
