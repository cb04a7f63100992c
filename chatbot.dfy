/** The keyword chatbot endpoint: a lower-cased query is matched against
    three fixed phrases in priority order, each answered from the current
    tables, with a fixed fallback reply. */
module Chatbot {
  import opened Util
  import opened Strings
  import opened Records
  import opened Kpi

  const OnTimeKeyword: string := "on-time delivery"
  const BreachKeyword: string := "allocation breach"
  const StockoutKeyword: string := "stockout"
  const FallbackText: string := "I can answer only about KPIs and suppliers for now."

  /** The figure each reply carries; the text around it is formatting. */
  datatype ChatReply =
    | OnTimeReply(percentage: real)
    | BreachCountReply(breaches: nat)
    | StockoutReply(days: nat)
    | FallbackReply(text: string)

  /** The on-time branch divides by the number of orders, which fails on an
      empty order table. */
  datatype ChatError = DivisionByZero

  predicate AsksOnTime(query: string) { Contains(Lower(query), OnTimeKeyword) }
  predicate AsksBreaches(query: string) { Contains(Lower(query), BreachKeyword) }
  predicate AsksStockouts(query: string) { Contains(Lower(query), StockoutKeyword) }

  /** `chatbot`: the first phrase found decides the reply. */
  function Chat(query: string, orders: seq<PurchaseOrder>, ledger: seq<LedgerEntry>)
    : (r: Result<ChatReply, ChatError>)
    ensures r.Err? <==> AsksOnTime(query) && orders == []
    ensures AsksOnTime(query) && r.Ok? ==>
      r.value.OnTimeReply? && 0.0 <= r.value.percentage <= 100.0
      && (r.value.percentage == 100.0 <==> forall o :: o in orders ==> !o.delayFlag)
    ensures !AsksOnTime(query) && AsksBreaches(query) ==>
      r.Ok? && r.value.BreachCountReply? && r.value.breaches <= |orders|
      && (r.value.breaches == 0 <==> forall o :: o in orders ==> !o.breachFlag)
    ensures !AsksOnTime(query) && !AsksBreaches(query) && AsksStockouts(query) ==>
      r.Ok? && r.value.StockoutReply? && r.value.days <= |ledger|
      && (r.value.days == 0 <==> forall e :: e in ledger ==> !e.stockout)
    ensures r == Ok(FallbackReply(FallbackText)) <==>
      !AsksOnTime(query) && !AsksBreaches(query) && !AsksStockouts(query)
  {
    if AsksOnTime(query) then
      if |orders| == 0 then Err(DivisionByZero)
      else
        var onTime := |Where(orders, OnTime)|;
        RatioBounds(onTime, |orders|);
        Ok(OnTimeReply((onTime as real / |orders| as real) * 100.0))
    else if AsksBreaches(query) then
      Ok(BreachCountReply(|Where(orders, Breached)|))
    else if AsksStockouts(query) then
      Ok(StockoutReply(StockoutDays(ledger)))
    else
      Ok(FallbackReply(FallbackText))
  }

  /** The query is lower-cased first, so its case never changes the reply. */
  lemma ChatIgnoresCase(query: string, orders: seq<PurchaseOrder>, ledger: seq<LedgerEntry>)
    ensures Chat(Lower(query), orders, ledger) == Chat(query, orders, ledger)
  {
    LowerIdempotent(query);
  }

  /** A capitalised question still asks about on-time delivery. */
  lemma CapitalisedQueryAsksOnTime()
    ensures AsksOnTime("On-Time Delivery?")
  {
    var q := "On-Time Delivery?";
    assert Lower(q)[..|OnTimeKeyword|] == OnTimeKeyword;
  }

  /** The on-time reply is the unfiltered `on_time_delivery` figure. */
  lemma ChatOnTimeMatchesKpi(query: string, orders: seq<PurchaseOrder>, ledger: seq<LedgerEntry>)
    requires AsksOnTime(query) && orders != []
    ensures Chat(query, orders, ledger) == Ok(OnTimeReply(OnTimeDelivery(orders, None, None, None)))
  {
    assert FilterPoData(orders, None, None, None) == orders;
  }

  /** The breach count and the unfiltered `allocation_compliance` figure
      describe the same rows: when the reply counts `n` breaches, the
      compliance is the share of the other orders. */
  lemma ChatBreachesMatchCompliance(query: string, orders: seq<PurchaseOrder>, ledger: seq<LedgerEntry>, n: nat)
    requires orders != [] && Chat(query, orders, ledger) == Ok(BreachCountReply(n))
    ensures n <= |orders|
    ensures AllocationCompliance(orders, None, None, None) == ((|orders| - n) as real / |orders| as real) * 100.0
  {
    BreachReplyAnswersBreachQuestion(query, orders, ledger);
    assert FilterPoData(orders, None, None, None) == orders;
    assert n == |Where(orders, Breached)|;
    UnflaggedShare(orders, Breached, Compliant, n);
  }

  /** A breach count is only ever the answer to a question about breaches
      that does not also ask about on-time delivery. */
  lemma BreachReplyAnswersBreachQuestion(query: string, orders: seq<PurchaseOrder>, ledger: seq<LedgerEntry>)
    requires Chat(query, orders, ledger).Ok? && Chat(query, orders, ledger).value.BreachCountReply?
    ensures !AsksOnTime(query) && AsksBreaches(query)
  {
  }

  /** The stockout reply is the `stockout_days` figure. */
  lemma ChatStockoutsMatchKpi(query: string, orders: seq<PurchaseOrder>, ledger: seq<LedgerEntry>)
    requires !AsksOnTime(query) && !AsksBreaches(query) && AsksStockouts(query)
    ensures Chat(query, orders, ledger) == Ok(StockoutReply(StockoutDays(ledger)))
  {
  }
}
