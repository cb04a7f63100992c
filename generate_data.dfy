/** The generation script end to end: demand, then purchase orders, then the
    inventory ledger, over 2025-01-01 .. 2025-06-30 and the three suppliers. */
module GenerateData {
  import opened Util
  import opened Calendar
  import opened Records
  import opened Demand
  import opened PurchaseOrders
  import opened Ledger

  /** The 181 days of the horizon. */
  function Horizon(): (dates: seq<int>)
    ensures |dates| == 181
    ensures Increasing(dates)
    ensures dates[0] == FirstDay && dates[180] == LastDay
  {
    DateRange(FirstDay, LastDay)
  }

  /** Runs the three stages on the given random draws: `offsets` holds one
      demand offset per day, `draws` one draw triple per order. */
  method Generate(offsets: seq<int>, draws: seq<OrderDraw>)
    returns (demand: seq<DemandRecord>, orders: seq<PurchaseOrder>, ledger: seq<LedgerEntry>)
    requires |offsets| == 181 && forall i :: 0 <= i < 181 ==> ValidOffset(offsets[i])
    requires |draws| == 181 * 3 && forall k :: 0 <= k < |draws| ==> ValidDraw(draws[k])
    ensures |demand| == 181 && |orders| == 181 * 3 && |ledger| == 181
    ensures forall i :: 0 <= i < 181 ==>
      demand[i].date == FirstDay + i && demand[i].actualDemand == DailyDemand(FirstDay + i, offsets[i])
    ensures forall k :: 0 <= k < |orders| ==>
      orders[k] == MakeOrder(k + 1, FirstDay + k / 3, demand[k / 3].actualDemand, Suppliers[k % 3], draws[k])
    ensures forall a, b :: 0 <= a < b < |orders| ==> orders[a].poId != orders[b].poId
    ensures forall i :: 0 <= i < 181 ==>
      && ledger[i].date == FirstDay + i
      && ledger[i].materialId == RawMaterialId
      && ledger[i].safetyStock == SafetyStock
      && ledger[i].received == ReceivedOn(orders, FirstDay + i)
      && ledger[i].consumed == demand[i].actualDemand
    ensures Chained(ledger, InitialStock)
  {
    var dates := Horizon();
    demand := GenerateDemand(dates, offsets);
    forall i | 0 <= i < |dates| ensures DemandOn(demand, dates[i]) == Some(demand[i].actualDemand) {
      DemandOnSeries(demand, dates, i);
    }
    orders := GeneratePurchaseOrders(dates, demand, Suppliers, draws);
    OrdersOnHorizon(dates, demand, draws, orders);
    ledger := BuildLedger(dates, demand, orders);
  }

  /** Order `k` of the horizon is the order for day `k / 3` and supplier
      `k % 3`, sized from that day's demand record. */
  lemma OrdersOnHorizon(dates: seq<int>, demand: seq<DemandRecord>, draws: seq<OrderDraw>,
                        orders: seq<PurchaseOrder>)
    requires |dates| == 181 && forall i :: 0 <= i < 181 ==> dates[i] == FirstDay + i
    requires |demand| == 181
    requires forall i :: 0 <= i < 181 ==> DemandOn(demand, dates[i]) == Some(demand[i].actualDemand)
    requires |draws| == 181 * 3 && forall k :: 0 <= k < |draws| ==> ValidDraw(draws[k])
    requires |orders| == |draws|
    requires forall k :: 0 <= k < |orders| ==> orders[k] == OrderAt(dates, demand, Suppliers, draws, k)
    ensures forall k :: 0 <= k < |orders| ==>
      orders[k] == MakeOrder(k + 1, FirstDay + k / 3, demand[k / 3].actualDemand, Suppliers[k % 3], draws[k])
  {
    forall k | 0 <= k < |orders|
      ensures orders[k] == MakeOrder(k + 1, FirstDay + k / 3, demand[k / 3].actualDemand, Suppliers[k % 3], draws[k])
    {
      assert orders[k] == OrderAt(dates, demand, Suppliers, draws, k);
      assert 0 <= k / 3 < 181;
    }
  }
}
