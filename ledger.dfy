/** Stage 3 of the generator: the chained daily inventory ledger. */
module Ledger {
  import opened Util
  import opened Records
  import opened Demand

  const InitialStock: int := 5000
  const SafetyStock: int := 1000

  /** Sum of the received quantities of some orders. */
  function SumReceived(orders: seq<PurchaseOrder>): int {
    if orders == [] then 0 else orders[0].received + SumReceived(orders[1..])
  }

  /** `purchase_orders.loc[actual_delivery_date == date, "received_quantity"].sum()`:
      what arrives on `date`; 0 when nothing arrives. */
  function ReceivedOn(orders: seq<PurchaseOrder>, date: int): int {
    SumReceived(Where(orders, (o: PurchaseOrder) => o.actualDelivery == date))
  }

  lemma {:induction false} SumReceivedAppend(a: seq<PurchaseOrder>, b: seq<PurchaseOrder>)
    ensures SumReceived(a + b) == SumReceived(a) + SumReceived(b)
  {
    if a == [] {
      assert a + b == b;
    } else {
      assert (a + b)[0] == a[0] && (a + b)[1..] == a[1..] + b;
      SumReceivedAppend(a[1..], b);
    }
  }

  /** One order contributes its received quantity to its delivery day only. */
  lemma ReceivedOnSingle(o: PurchaseOrder, date: int)
    ensures ReceivedOn([o], date) == if o.actualDelivery == date then o.received else 0
  {
    assert [o][1..] == [];
    var arrived := Where([o], (p: PurchaseOrder) => p.actualDelivery == date);
    assert arrived == if o.actualDelivery == date then [o] else [];
    assert SumReceived([o]) == o.received;
  }

  /** Receipts of a day add up over the parts of the order table, so with
      ReceivedOnSingle they are the sum of the received quantities of the
      orders delivered that day. */
  lemma ReceivedOnAppend(a: seq<PurchaseOrder>, b: seq<PurchaseOrder>, date: int)
    ensures ReceivedOn(a + b, date) == ReceivedOn(a, date) + ReceivedOn(b, date)
  {
    var arrives := (o: PurchaseOrder) => o.actualDelivery == date;
    WhereAppend(a, b, arrives);
    SumReceivedAppend(Where(a, arrives), Where(b, arrives));
  }

  lemma NothingArrivesNothingReceived(orders: seq<PurchaseOrder>, date: int)
    requires forall o :: o in orders ==> o.actualDelivery != date
    ensures ReceivedOn(orders, date) == 0
  {
  }

  /** An entry is balanced when its closing stock is opening plus received
      minus consumed, and it is flagged exactly when below safety stock. */
  predicate Balanced(e: LedgerEntry) {
    e.closing == e.opening + e.received - e.consumed
    && (e.stockout <==> e.closing < e.safetyStock)
  }

  /** A single continuous ledger starting from `initial`: every entry is
      balanced and each day opens with the previous day's closing stock. */
  predicate Chained(ledger: seq<LedgerEntry>, initial: int) {
    (|ledger| > 0 ==> ledger[0].opening == initial)
    && (forall i :: 0 <= i < |ledger| ==> Balanced(ledger[i]))
    && (forall i :: 0 < i < |ledger| ==> ledger[i].opening == ledger[i - 1].closing)
  }

  /** A balanced entry that opens at the previous closing stock extends a
      chained ledger. */
  lemma ChainedAppend(ledger: seq<LedgerEntry>, initial: int, e: LedgerEntry)
    requires Chained(ledger, initial) && Balanced(e)
    requires e.opening == if ledger == [] then initial else ledger[|ledger| - 1].closing
    ensures Chained(ledger + [e], initial)
  {
  }

  /** Totals over a run of ledger entries. */
  function TotalReceived(entries: seq<LedgerEntry>): int {
    if entries == [] then 0 else TotalReceived(entries[..|entries| - 1]) + entries[|entries| - 1].received
  }

  function TotalConsumed(entries: seq<LedgerEntry>): int {
    if entries == [] then 0 else TotalConsumed(entries[..|entries| - 1]) + entries[|entries| - 1].consumed
  }

  /** The inventory loop: one entry per date, in date order, carrying the
      closing stock forward as the next opening stock. */
  method BuildLedger(dates: seq<int>, demand: seq<DemandRecord>, orders: seq<PurchaseOrder>)
    returns (ledger: seq<LedgerEntry>)
    requires forall i :: 0 <= i < |dates| ==> DemandOn(demand, dates[i]).Some?
    ensures |ledger| == |dates|
    ensures forall i :: 0 <= i < |ledger| ==>
      && ledger[i].date == dates[i]
      && ledger[i].materialId == RawMaterialId
      && ledger[i].received == ReceivedOn(orders, dates[i])
      && ledger[i].consumed == DemandOn(demand, dates[i]).value
      && ledger[i].safetyStock == SafetyStock
    ensures Chained(ledger, InitialStock)
  {
    ledger := [];
    var openingStock := InitialStock;
    for i := 0 to |dates|
      invariant |ledger| == i
      invariant forall k :: 0 <= k < i ==>
        && ledger[k].date == dates[k]
        && ledger[k].materialId == RawMaterialId
        && ledger[k].received == ReceivedOn(orders, dates[k])
        && ledger[k].consumed == DemandOn(demand, dates[k]).value
        && ledger[k].safetyStock == SafetyStock
      invariant Chained(ledger, InitialStock)
      invariant openingStock == if i == 0 then InitialStock else ledger[i - 1].closing
    {
      var receivedToday := ReceivedOn(orders, dates[i]);
      var consumedToday := DemandOn(demand, dates[i]).value;
      var closingStock := openingStock + receivedToday - consumedToday;
      var entry := LedgerEntry(dates[i], RawMaterialId, openingStock, receivedToday,
                               consumedToday, closingStock, SafetyStock, closingStock < SafetyStock);
      ChainedAppend(ledger, InitialStock, entry);
      ledger := ledger + [entry];
      openingStock := closingStock;
    }
  }

  /** The recurrence telescopes: day n closes at the initial stock plus
      everything received minus everything consumed up to and including day n. */
  lemma {:induction false} ClosingIsNetFlow(ledger: seq<LedgerEntry>, initial: int, n: nat)
    requires Chained(ledger, initial) && n < |ledger|
    ensures ledger[n].closing == initial + TotalReceived(ledger[..n + 1]) - TotalConsumed(ledger[..n + 1])
  {
    assert Balanced(ledger[n]);
    assert ledger[..n + 1][..n] == ledger[..n];
    if n > 0 {
      ClosingIsNetFlow(ledger, initial, n - 1);
    }
  }

  /** Day n opens at the initial stock plus the net flow of the days before it. */
  lemma OpeningIsNetFlow(ledger: seq<LedgerEntry>, initial: int, n: nat)
    requires Chained(ledger, initial) && n < |ledger|
    ensures ledger[n].opening == initial + TotalReceived(ledger[..n]) - TotalConsumed(ledger[..n])
  {
    if n > 0 {
      ClosingIsNetFlow(ledger, initial, n - 1);
    }
  }
}
