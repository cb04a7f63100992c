# Supply-chain dashboard: data generator and KPI backend

This project models, in Dafny, the core of a small supply-chain dashboard for
one raw material (`RM-STEEL-01`) bought from three suppliers. The model has
two parts.

- **Data generator** (`backend/generate_data.py`). It produces three tables
  over 2025-01-01 .. 2025-06-30:
  - a daily demand series, with a 1.2× peak factor in May and June;
  - one purchase order per (day, supplier), numbered `PO1`, `PO2`, … by a
    running counter, with a quantity drawn around the supplier's allocation
    (50/30/20 %), the supplier's lead time, a random delay and a random
    shrinkage;
  - an inventory ledger. Each day closes at opening + received − consumed,
    and the next day opens at that closing stock. A day is flagged as a
    stockout when it closes below the safety stock of 1000.
- **Backend** (`backend/main.py`). It serves these endpoints:
  - the purchase-order filter (delivery-date window, optional supplier);
  - on-time delivery and allocation compliance percentages;
  - average delay;
  - per-supplier breakdowns, grouped and sorted by supplier id;
  - stockout days and current stock;
  - the allocation-breach alert endpoint. It e-mails each breaching order
    once per process, tracked by a set of alerted ids;
  - a keyword chatbot.

Modules, one per file:

| file | module | models |
|---|---|---|
| `util.dfy` | `Util` | `Option`, `Result`, `int()` truncation, order-preserving mask selection `df[mask]` |
| `strings.dfy` | `Strings` | decimal rendering of counters, ASCII `lower()`, `in` on strings, code-point order of keys |
| `calendar.dfy` | `Calendar` | day ordinals, month of a day, `pd.date_range` |
| `records.dfy` | `Records` | the row types and the supplier master data |
| `demand.dfy` | `Demand` | the demand loop and the demand lookup by date |
| `purchase_orders.dfy` | `PurchaseOrders` | one order of the loop body, and the order loop with `po_counter` |
| `ledger.dfy` | `Ledger` | the inventory loop and its telescoping balance |
| `generate_data.dfy` | `GenerateData` | the three stages run in sequence |
| `kpi.dfy` | `Kpi` | `filter_po_data` and the KPI endpoints |
| `alerts.dfy` | `Alerts` | `allocation_breach_alerts` with the `alerted_pos` set, as the class `AlertTracker` |
| `chatbot.dfy` | `Chatbot` | the `chatbot` endpoint |

Modelling choices:

- **Dates** are day ordinals, counted in days from 1970-01-01. Adding
  `timedelta(days=n)` is `+ n`.
- **Random draws are inputs.** Each day has one demand offset in −40..59. Each
  order has one `OrderDraw`:
  - a normal variate, any real;
  - a delay in {0, 1, 2, 3, 5};
  - a shrinkage in 0..4.
- **Floating point is exact real arithmetic.** Allocations are integer
  percentages.
- **Tables are sequences of rows in stored order.** The KPI functions take the
  loaded tables as arguments.
- **Generator loops are methods.** The demand and order loops are proved
  against a function that gives every row. The ledger loop is proved to give
  each row's date, receipts, consumption and safety stock, and to produce a
  continuous, balanced ledger from 5000. Its opening and closing stocks
  follow from that through `Ledger.OpeningIsNetFlow` and
  `Ledger.ClosingIsNetFlow`. The alert endpoint is a method of a class
  whose field is the process-wide `alerted_pos` set.

Behaviours of the code that the model keeps as written:

- Demand and ordered quantities use `int()`, which truncates toward zero;
  nothing is rounded.
- The received quantity is `ordered - shrinkage` and is not clamped at 0.
  `PurchaseOrders.ReceivedCanBeNegative` exhibits a negative receipt.
- `current_stock` reads the last row in stored order, not the row with the
  latest date. `Kpi.CurrentStockFollowsStoredOrder` shows the difference.
- There are two breach conditions. The stored `allocation_breach_flag` is
  `ordered > allocated`. The alert endpoint uses `received > ordered`. Both
  are kept:
  - `Alerts.GeneratedOrdersNeverAlert` proves that generated rows never
    raise an alert;
  - `Alerts.FlaggedOrderIsNotAlerted` shows a flagged order that is not
    alerted.

## Model

| member | source | states |
|---|---|---|
| Util.Trunc | backend/generate_data.py:39 | `int()` on a float truncates toward zero: for a non-negative value the result is the largest integer not above it, for a negative one the smallest not below it |
| Util.Where | backend/main.py:141 | a boolean-mask selection holds exactly the table's rows that pass the mask and never more rows than the table; all rows kept iff all pass, none kept iff none pass |
| Util.WhereCounts | backend/main.py:141 | a selection keeps each passing row exactly as often as the table holds it, and no failing row |
| Util.WhereAppend | backend/main.py:141 | the selection from two tables is the selection from the first followed by the selection from the second, so stored order is kept |
| Strings.NatToString | backend/generate_data.py:80 | the counter in `f"PO{po_counter}"` renders as a non-empty string of decimal digits |
| Strings.NatToStringInjective | backend/generate_data.py:80 | different counter values render as different digit strings |
| PurchaseOrders.PoId | backend/generate_data.py:80 | an order id is `PO` followed by at least one decimal digit |
| PurchaseOrders.PoIdInjective | backend/generate_data.py:80 | different counter values give different `po_id`s |
| Strings.Lower | backend/main.py:233 | lower-casing keeps the length and maps each character by LowerChar |
| Strings.LowerChar | backend/main.py:233 | an upper-case ASCII letter becomes the lower-case letter at the same alphabet position; every other character is unchanged |
| Strings.LowerIdempotent | backend/main.py:233 | lower-casing an already lower-cased query changes nothing |
| Strings.ContainsAt | backend/main.py:234 | `phrase in query` holds exactly when the phrase occurs at some position of the query |
| Strings.StrLessIrreflexive | backend/main.py:169 | no supplier id sorts before itself |
| Strings.StrLessTransitive | backend/main.py:169 | the order in which `groupby` sorts string keys is transitive |
| Strings.StrLessTotal | backend/main.py:169 | any two different keys are ordered one way or the other |
| Strings.InsertKey | backend/main.py:169 | adding a key to a strictly ascending key list keeps it strictly ascending and holds exactly the old keys plus the new one |
| Calendar.DateRange | backend/generate_data.py:11-13 | `date_range(first, last)` is every day from first to last inclusive, `last - first + 1` of them, the i-th being `first + i`; empty when first > last |
| Calendar.DateRangeIncreasing | backend/generate_data.py:13 | the generated dates are strictly increasing |
| Calendar.MonthOfHorizon | backend/generate_data.py:38 | within the 2025 horizon, the month of a day is January before 2025-02-01, February before 2025-03-01, March before 2025-04-01, April before 2025-05-01, May before 2025-06-01 and June after |
| Calendar.PeakMonthsOfHorizon | backend/generate_data.py:38 | within the 2025 horizon a day lies in May or June exactly when it is on or after 2025-05-01 |
| GenerateData.Horizon | backend/generate_data.py:11-13 | the horizon has 181 strictly increasing days from 2025-01-01 to 2025-06-30 |
| Demand.DailyDemand | backend/generate_data.py:38-39 | off-peak demand is `300 + u`, within 260..359; in May and June it is `int(1.2 * (300 + u))`, which equals `6 * (300 + u) / 5` rounded down and lies within 312..430; demand is never negative |
| Demand.GenerateDemand | backend/generate_data.py:37-45 | one record per date in date order, each holding that date, the material id and `DailyDemand` of its offset |
| Demand.DemandOn | backend/generate_data.py:57 | the demand lookup by date finds a value exactly when some record carries that date (the source raises IndexError otherwise) |
| Demand.DemandOnSeries | backend/generate_data.py:57 | on a series with one record per increasing date, the lookup by the i-th date returns the i-th record's demand |
| PurchaseOrders.MakeOrder | backend/generate_data.py:61-91 | an order carries `PO<counter>`, the supplier and material ids and the order date; the ordered quantity is `int(allocated * variation)`; planned delivery is order date + lead time and actual delivery is planned + the drawn delay; the delay flag is set iff that delay is positive; received is ordered minus the drawn shrinkage |
| PurchaseOrders.BreachNeedsVariationAboveOne | backend/generate_data.py:64-65 | the stored breach flag can only be raised by a variate above its mean 1, because truncation never rounds an order up |
| PurchaseOrders.BreachNeedsScaleAboveOne | backend/generate_data.py:64-65 | for a non-negative allocation, a truncated scaled order exceeds it only when the scale is above 1 |
| PurchaseOrders.BreachFlagIsIntegerComparison | backend/generate_data.py:61-65 | the flag `ordered > demand * allocation` is the integer comparison `ordered * 100 > demand * percentage`, in both directions |
| PurchaseOrders.ReceivedCanBeNegative | backend/generate_data.py:87 | a zero-quantity order with shrinkage 4 is received as −4: the received quantity is not clamped |
| PurchaseOrders.OrderAtPair | backend/generate_data.py:55-59 | the order for the i-th date and the j-th supplier sits at index `i * n + j` with counter `i * n + j + 1` |
| PurchaseOrders.GeneratePurchaseOrders | backend/generate_data.py:52-93 | the nested loop emits `|dates| * |suppliers|` orders, date-major and then in supplier order; order k is the loop-body order for its date, supplier, draw and counter `k + 1`; all `po_id`s differ |
| GenerateData.OrdersOnHorizon | backend/generate_data.py:52-93 | over the 2025 horizon, order k is made on day `k / 3` for supplier `k % 3` from that day's demand record |
| Ledger.NothingArrivesNothingReceived | backend/generate_data.py:107-110 | on a day with no deliveries the received sum is 0 |
| Ledger.ReceivedOnSingle | backend/generate_data.py:107-110 | a single order adds its received quantity to its delivery day and nothing to any other day |
| Ledger.ReceivedOnAppend | backend/generate_data.py:107-110 | the receipts of a day add up over the parts of the order table; with ReceivedOnSingle, they are the sum of the received quantities of the orders delivered that day |
| Ledger.ChainedAppend | backend/generate_data.py:117-130 | a balanced entry opening at the previous closing stock extends a continuous ledger |
| Ledger.BuildLedger | backend/generate_data.py:100-130 | one entry per date in order; received is the sum of that day's deliveries and consumed is that day's demand; every entry closes at opening + received − consumed and is flagged iff it closes below 1000; the first day opens at 5000 and every later day opens at the previous closing |
| Ledger.ClosingIsNetFlow | backend/generate_data.py:117-130 | day n closes at 5000 plus all receipts minus all consumption up to and including day n |
| Ledger.OpeningIsNetFlow | backend/generate_data.py:117-130 | day n opens at 5000 plus the net flow of the days before it |
| GenerateData.Generate | backend/generate_data.py:37-130 | the three stages produce 181 demand records, 543 orders with distinct ids and 181 ledger entries; each row is tied to its date and its draws; every ledger row carries the material id and the safety stock 1000, and the ledger is continuous from 5000 |
| Kpi.FilterPoDataSelects | backend/main.py:56-75 | the successive start, end and supplier selections keep exactly the rows that pass all given filters, in stored order; an absent date bound or an absent or empty supplier filters nothing |
| Kpi.FilterPoData | backend/main.py:56-75 | the filtered table holds exactly the rows passing every given filter, and no more rows than the table |
| Kpi.Percentage | backend/main.py:138-142 | the share of rows passing a test, times 100: 0 for an empty table, within 0..100, 100 iff every row passes, 0 iff none does |
| Kpi.RatioBounds | backend/main.py:142 | `count / total * 100` lies in 0..100, is 100 iff count = total and 0 iff count = 0 |
| Kpi.UnflaggedShare | backend/main.py:141-142 | the share of rows without a flag is `(total − flagged) / total * 100`, and 0 for an empty table |
| Kpi.OnTimeDelivery | backend/main.py:130-142 | 0 when the filter keeps nothing; otherwise within 0..100 and 100 iff no kept order is delayed |
| Kpi.OnTimeIsUndelayedShare | backend/main.py:137-142 | for any filter, the on-time percentage is `(kept − delayed) / kept * 100` over the kept orders, and 0 when nothing is kept |
| Kpi.AllocationCompliance | backend/main.py:173-184 | 0 when the filter keeps nothing; otherwise within 0..100 and 100 iff no kept order carries the breach flag |
| Kpi.ComplianceIsUnbreachedShare | backend/main.py:179-184 | for any filter, the compliance is `(kept − flagged) / kept * 100` over the kept orders, and 0 when nothing is kept |
| Kpi.AvgDelay | backend/main.py:144-153 | 0 when the filter keeps nothing |
| Kpi.SumDelayBounds | backend/main.py:153 | with delays in 0..5 the total delay lies in 0..5 per row and is 0 iff no row has a delay |
| Kpi.AvgDelayAgreesWithOnTime | backend/main.py:144-153 | with delays in 0..5 the mean delay lies in 0..5, and on a non-empty selection it is 0 iff the on-time percentage is 100 |
| Kpi.SupplierIds | backend/main.py:169 | every row's supplier id is among the table's supplier ids |
| Kpi.Group | backend/main.py:169 | a supplier's group holds exactly the table's rows of that supplier |
| Kpi.GroupNonEmpty | backend/main.py:169 | every supplier id that occurs has a non-empty group |
| Kpi.SupplierKeys | backend/main.py:169 | the group keys are strictly ascending and are exactly the supplier ids that occur |
| Kpi.GroupCompliance | backend/main.py:169-170 | `(1 − mean of the flag) * 100` over a supplier's group lies in 0..100 and is 100 iff no row of the group is flagged |
| Kpi.ShareComplement | backend/main.py:170 | one minus the flagged share is the unflagged share, within 0..100 |
| Kpi.GroupScores | backend/main.py:169-171 | one score per supplier present, in ascending id order, each its group's unflagged share |
| Kpi.SupplierPerformance | backend/main.py:161-171 | the supplier ids are strictly ascending and are exactly those present in the date window, each with a percentage in 0..100; `[]` when the window is empty |
| Kpi.SupplierAllocationCompliance | backend/main.py:186-196 | the supplier ids are strictly ascending and are exactly those present in the date window, each with a percentage in 0..100; `[]` when the window is empty |
| Kpi.GroupScoreIsSupplierPercentage | backend/main.py:169-170 | a group's unflagged share equals the single-supplier percentage over the same dates |
| Kpi.SupplierPerformanceMatchesOnTime | backend/main.py:161-171 | each per-supplier on-time entry equals `on_time_delivery` asked for that supplier over the same dates |
| Kpi.SupplierComplianceMatchesCompliance | backend/main.py:186-196 | each per-supplier compliance entry equals `allocation_compliance` asked for that supplier over the same dates |
| Kpi.StockoutDays | backend/main.py:124-128 | the count of flagged days is at most the number of days and is 0 iff no day is flagged |
| Kpi.StockoutDaysCountsLowClosings | backend/main.py:127 | on a continuous ledger the stockout days are the days closing below their safety stock |
| Kpi.CurrentStock | backend/main.py:155-159 | the last row's closing stock, absent exactly for an empty ledger (the source raises IndexError) |
| Kpi.CurrentStockIsNetFlow | backend/main.py:158 | on a continuous ledger the current stock is the initial stock plus all receipts minus all consumption |
| Kpi.CurrentStockFollowsStoredOrder | backend/main.py:158 | a ledger stored newest-first reports the older day's closing stock |
| Alerts.Breaches | backend/main.py:207-211 | the breaches are exactly the rows delivered on the date with more received than ordered, no more than the table |
| Alerts.BreachesSelect | backend/main.py:207-211 | the date selection followed by the quantity selection keeps, in stored order, exactly the rows delivered on the date with more received than ordered |
| Alerts.FreshAlertsSound | backend/main.py:215-219 | the alert pass e-mails no more rows than there are breaches, only breaches not alerted before, no id twice, and leaves every breach id alerted |
| Alerts.FreshAlertsComplete | backend/main.py:215-219 | every breach whose id was not alerted before is e-mailed |
| Alerts.RepeatedCheckSendsNothing | backend/main.py:215-218 | once all breach ids are alerted, checking again e-mails nothing |
| Alerts.GeneratedOrdersNeverAlert | backend/main.py:211 | rows that never receive more than ordered, as generated, give no breaches on any date |
| Alerts.FlaggedOrderIsNotAlerted | backend/main.py:211 | an order with the stored breach flag set is not an alert breach on its delivery day |
| Alerts.AlertTracker.constructor | backend/main.py:12 | the process starts with no alerted ids and nothing sent |
| Alerts.AlertTracker.AllocationBreachAlerts | backend/main.py:201-225 | reports the date, the number of breaches and the ids e-mailed: exactly the breaches not alerted before, each once, in order; afterwards every breach id is alerted and the alerted ids are exactly the ids ever e-mailed |
| Alerts.AlertTracker.AlertEach | backend/main.py:215-219 | the loop e-mails, records and lists each breach whose id is not yet alerted, and adds every breach id to the alerted set |
| Chatbot.Chat | backend/main.py:230-245 | the first phrase found in the lower-cased query decides the reply. On-time fails exactly on an empty order table and otherwise gives a percentage in 0..100 that is 100 iff no order is delayed. The breach count is at most the number of orders and is 0 iff no order is flagged. The stockout count is at most the number of days and is 0 iff no day is flagged. The fallback text is given iff no phrase matches |
| Chatbot.ChatIgnoresCase | backend/main.py:233 | the case of the query never changes the reply |
| Chatbot.CapitalisedQueryAsksOnTime | backend/main.py:233-234 | the query "On-Time Delivery?" is recognised as an on-time question |
| Chatbot.ChatOnTimeMatchesKpi | backend/main.py:234-237 | the on-time reply is the unfiltered on-time percentage |
| Chatbot.ChatBreachesMatchCompliance | backend/main.py:238-240 | a reply of n breaches means the unfiltered compliance is `(total − n) / total * 100` |
| Chatbot.BreachReplyAnswersBreachQuestion | backend/main.py:234-240 | a breach count answers only a query with the breach phrase and without the on-time phrase |
| Chatbot.ChatStockoutsMatchKpi | backend/main.py:241-243 | the stockout reply is the `stockout_days` figure |

## Left out

- Loading CSV files (`load_latest_csv`, `load_data`), CSV export and the `print` calls. They are I/O: the tables are parameters of the model.
- Parsing date strings with `pd.to_datetime`. Dates are already day ordinals, and an unparsable date is not modelled.
- An empty start or end date string. It is falsy, so `filter_po_data` skips that bound; the model has no empty date, because a date bound is either absent or a day ordinal.
- SMTP delivery in `send_allocation_alert`, and the message text. An e-mail is modelled as appending the row to a ghost outbox log. A failure of the mail server in the middle of the loop, which would leave earlier ids recorded, is not modelled.
- The FastAPI routing, CORS middleware, `home`, `get_suppliers` and `get_inventory`. These return data or tables unchanged.
- The random number generators and their distributions (seed 42, normal, uniform, weighted choice). The draws are inputs, and only their ranges are assumed.
- `cost_per_unit` and `quality_rating` of the supplier master. They are random columns that no modelled operation reads.
- Floating-point rounding. Quantities and percentages are exact reals.
- The seasonal product `(300 + u) * 1.2` is taken as exactly `6 (300 + u) / 5` before truncation.
- `round(..., 2)` in the KPI replies.
- The text of the chatbot replies. Each reply carries only its figure.
- Kpi.AvgDelay: its own contract states only the empty case. Its bounds, and its agreement with the on-time percentage, are proved in `Kpi.AvgDelayAgreesWithOnTime` under the generator's delay range.
- Strings.Lower: only ASCII letters are lower-cased. Python's `str.lower()` also folds non-ASCII letters.
- Calendar.MonthOf has no contract of its own. `Calendar.MonthOfHorizon` states it for the days of the 2025 horizon only; outside the horizon the calendar arithmetic is not proved.
