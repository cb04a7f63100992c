/** The allocation-breach alert endpoint: the orders delivered on a date
    with more received than ordered are breaches, and each breach id is
    emailed at most once over the life of the process, tracked by a set of
    already alerted purchase-order ids. */
module Alerts {
  import opened Util
  import opened Records
  import opened PurchaseOrders

  /** A breach for the alert: delivered on `date` with more received than
      ordered. */
  predicate IsBreach(o: PurchaseOrder, date: int) {
    o.actualDelivery == date && o.received > o.ordered
  }

  /** The breaches among the rows, in stored order. */
  function Breaches(rows: seq<PurchaseOrder>, date: int): (breaches: seq<PurchaseOrder>)
    ensures |breaches| <= |rows|
    ensures forall o :: o in breaches <==> o in rows && IsBreach(o, date)
  {
    Where(rows, (o: PurchaseOrder) => IsBreach(o, date))
  }

  /** The endpoint's two successive selections, first on the delivery date
      and then on the quantities, keep exactly the breaches in stored order. */
  lemma BreachesSelect(rows: seq<PurchaseOrder>, date: int)
    ensures Breaches(rows, date)
         == Where(Where(rows, (o: PurchaseOrder) => o.actualDelivery == date), (o: PurchaseOrder) => o.received > o.ordered)
  {
    WhereWhere(rows, (o: PurchaseOrder) => o.actualDelivery == date, (o: PurchaseOrder) => o.received > o.ordered,
               (o: PurchaseOrder) => IsBreach(o, date));
  }

  /** The ids of some orders, as a set. */
  function IdSet(rows: seq<PurchaseOrder>): set<string>
  {
    if rows == [] then {} else IdSet(rows[..|rows| - 1]) + {rows[|rows| - 1].poId}
  }

  lemma {:induction false} IdSetContains(rows: seq<PurchaseOrder>)
    ensures forall o :: o in rows ==> o.poId in IdSet(rows)
    decreases |rows|
  {
    if rows != [] {
      var init := rows[..|rows| - 1];
      IdSetContains(init);
      assert forall o :: o in rows ==> o in init || o == rows[|rows| - 1];
    }
  }

  lemma {:induction false} IdSetAppend(a: seq<PurchaseOrder>, b: seq<PurchaseOrder>)
    ensures IdSet(a + b) == IdSet(a) + IdSet(b)
    decreases |b|
  {
    if b != [] {
      var b' := b[..|b| - 1];
      assert (a + b)[..|a + b| - 1] == a + b';
      IdSetAppend(a, b');
    } else {
      assert a + b == a;
    }
  }

  /** The ids of some orders, in order. */
  function Ids(rows: seq<PurchaseOrder>): (ids: seq<string>)
    ensures |ids| == |rows|
    ensures forall i :: 0 <= i < |rows| ==> ids[i] == rows[i].poId
  {
    seq(|rows|, i requires 0 <= i < |rows| => rows[i].poId)
  }

  lemma IdsAppend(rows: seq<PurchaseOrder>, o: PurchaseOrder)
    ensures Ids(rows + [o]) == Ids(rows) + [o.poId]
  {
    assert forall i :: 0 <= i < |rows| ==> (rows + [o])[i] == rows[i];
  }

  predicate DistinctIds(rows: seq<PurchaseOrder>) {
    forall i, j :: 0 <= i < j < |rows| ==> rows[i].poId != rows[j].poId
  }

  /** The breaches the alert loop emails, in order, given the ids alerted
      before the call: a row is emailed when its id was neither alerted
      before nor met earlier in the same pass. */
  function FreshAlerts(rows: seq<PurchaseOrder>, alerted: set<string>): seq<PurchaseOrder>
  {
    if rows == [] then []
    else
      var init := rows[..|rows| - 1];
      var last := rows[|rows| - 1];
      if last.poId in alerted + IdSet(init) then FreshAlerts(init, alerted)
      else FreshAlerts(init, alerted) + [last]
  }

  /** Every emailed id is new, no id is emailed twice, and afterwards
      every breach id is alerted. */
  lemma {:induction false} FreshAlertsSound(rows: seq<PurchaseOrder>, alerted: set<string>)
    ensures |FreshAlerts(rows, alerted)| <= |rows|
    ensures forall o :: o in FreshAlerts(rows, alerted) ==> o in rows && o.poId !in alerted
    ensures DistinctIds(FreshAlerts(rows, alerted))
    ensures alerted + IdSet(FreshAlerts(rows, alerted)) == alerted + IdSet(rows)
  {
    if rows != [] {
      var init := rows[..|rows| - 1];
      var last := rows[|rows| - 1];
      var sent := FreshAlerts(init, alerted);
      FreshAlertsSound(init, alerted);
      IdSetContains(sent);
      assert forall o :: o in init ==> o in rows;
      if last.poId !in alerted + IdSet(init) {
        var sent' := sent + [last];
        assert sent'[..|sent'| - 1] == sent;
      }
    }
  }

  /** One step of the alert loop: the prefix grows by one row, which is
      emailed exactly when its id is not yet alerted. */
  lemma FreshAlertsStep(rows: seq<PurchaseOrder>, i: nat, alerted: set<string>)
    requires i < |rows|
    ensures IdSet(rows[..i + 1]) == IdSet(rows[..i]) + {rows[i].poId}
    ensures FreshAlerts(rows[..i + 1], alerted)
         == if rows[i].poId in alerted + IdSet(rows[..i]) then FreshAlerts(rows[..i], alerted)
            else FreshAlerts(rows[..i], alerted) + [rows[i]]
  {
    assert rows[..i + 1][..i] == rows[..i];
  }

  /** Appending emails whose ids were not alerted to a log whose ids are
      the alerted ones keeps the log free of repeats. */
  lemma OutboxAppend(outbox: seq<PurchaseOrder>, sent: seq<PurchaseOrder>, alerted: set<string>)
    requires alerted == IdSet(outbox) && DistinctIds(outbox) && DistinctIds(sent)
    requires forall o :: o in sent ==> o.poId !in alerted
    ensures IdSet(outbox + sent) == alerted + IdSet(sent)
    ensures DistinctIds(outbox + sent)
  {
    IdSetAppend(outbox, sent);
    IdSetContains(outbox);
    var all := outbox + sent;
    forall a, b | 0 <= a < b < |all| ensures all[a].poId != all[b].poId {
      if a < |outbox| <= b {
        assert all[b] == sent[b - |outbox|];
        assert all[b] in sent;
        assert all[a] in outbox;
      }
    }
  }

  /** Every breach whose id was not alerted before is emailed. */
  lemma FreshAlertsComplete(rows: seq<PurchaseOrder>, alerted: set<string>, o: PurchaseOrder)
    requires o in rows && o.poId !in alerted
    ensures o.poId in Ids(FreshAlerts(rows, alerted))
  {
    var sent := FreshAlerts(rows, alerted);
    FreshAlertsSound(rows, alerted);
    IdSetContains(rows);
    assert o.poId in IdSet(rows);
    var p :| p in sent && p.poId == o.poId by {
      IdSetWitness(sent, o.poId);
    }
    var i :| 0 <= i < |sent| && sent[i] == p;
    assert Ids(sent)[i] == o.poId;
  }

  lemma {:induction false} IdSetWitness(rows: seq<PurchaseOrder>, id: string)
    requires id in IdSet(rows)
    ensures exists o :: o in rows && o.poId == id
    decreases |rows|
  {
    var last := rows[|rows| - 1];
    if last.poId != id {
      IdSetWitness(rows[..|rows| - 1], id);
      var o :| o in rows[..|rows| - 1] && o.poId == id;
      assert o in rows;
    }
  }

  /** Asking again with the same ids already alerted emails nothing: each
      breach is emailed once however often the date is checked. */
  lemma RepeatedCheckSendsNothing(rows: seq<PurchaseOrder>, alerted: set<string>)
    requires IdSet(rows) <= alerted
    ensures FreshAlerts(rows, alerted) == []
  {
    FreshAlertsSound(rows, alerted);
    IdSetContains(rows);
  }

  /** Orders as the generator writes them never receive more than ordered,
      so they never raise an alert. */
  lemma GeneratedOrdersNeverAlert(rows: seq<PurchaseOrder>, date: int)
    requires forall o :: o in rows ==> o.received <= o.ordered
    ensures Breaches(rows, date) == []
  {
  }

  /** The stored allocation-breach flag and the alert condition disagree:
      a generated order can carry the flag, yet it is never alerted. */
  lemma FlaggedOrderIsNotAlerted(date: int, s: Supplier)
    ensures MakeOrder(1, date, 300, s, OrderDraw(2.0, 0, 0)).breachFlag == (s.allocationPct > 0)
    ensures Breaches([MakeOrder(1, date, 300, s, OrderDraw(2.0, 0, 0))], date + s.leadTime) == []
  {
    var o := MakeOrder(1, date, 300, s, OrderDraw(2.0, 0, 0));
    GeneratedOrdersNeverAlert([o], date + s.leadTime);
  }

  /** The JSON object the endpoint returns. */
  datatype AlertReport = AlertReport(dateChecked: int, breachesDetected: nat, emailsSentForPoIds: seq<string>)

  /** The process-wide `alerted_pos` set, with the log of emails sent so far
      standing in for the mail server. */
  class AlertTracker {
    var alertedPos: set<string>
    ghost var outbox: seq<PurchaseOrder>

    /** Exactly the emailed ids are alerted, and no id was emailed twice. */
    ghost predicate Valid()
      reads this
    {
      alertedPos == IdSet(outbox) && DistinctIds(outbox)
    }

    /** Process start: nothing alerted, nothing sent. */
    constructor()
      ensures Valid() && alertedPos == {} && outbox == []
    {
      alertedPos := {};
      outbox := [];
    }

    /** `allocation_breach_alerts`: emails every breach on `date` not
        alerted before, records its id, and reports the number of breaches
        and the ids emailed. */
    method AllocationBreachAlerts(rows: seq<PurchaseOrder>, date: int) returns (report: AlertReport)
      requires Valid()
      modifies this
      ensures Valid()
      ensures report.dateChecked == date
      ensures report.breachesDetected == |Breaches(rows, date)|
      ensures alertedPos == old(alertedPos) + IdSet(Breaches(rows, date))
      ensures report.emailsSentForPoIds == Ids(FreshAlerts(Breaches(rows, date), old(alertedPos)))
      ensures outbox == old(outbox) + FreshAlerts(Breaches(rows, date), old(alertedPos))
    {
      var breaches := Breaches(rows, date);
      ghost var alerted0, outbox0 := alertedPos, outbox;
      var emailsSent := AlertEach(breaches);
      ghost var sent := FreshAlerts(breaches, alerted0);
      FreshAlertsSound(breaches, alerted0);
      OutboxAppend(outbox0, sent, alerted0);
      report := AlertReport(date, |breaches|, emailsSent);
    }

    /** The loop over the breaches: each row whose id is not yet alerted is
        emailed, then its id is recorded and listed. */
    method AlertEach(breaches: seq<PurchaseOrder>) returns (emailsSent: seq<string>)
      modifies this
      ensures alertedPos == old(alertedPos) + IdSet(breaches)
      ensures emailsSent == Ids(FreshAlerts(breaches, old(alertedPos)))
      ensures outbox == old(outbox) + FreshAlerts(breaches, old(alertedPos))
    {
      emailsSent := [];
      ghost var alerted0, outbox0 := alertedPos, outbox;
      for i := 0 to |breaches|
        invariant alertedPos == alerted0 + IdSet(breaches[..i])
        invariant emailsSent == Ids(FreshAlerts(breaches[..i], alerted0))
        invariant outbox == outbox0 + FreshAlerts(breaches[..i], alerted0)
      {
        var row := breaches[i];
        FreshAlertsStep(breaches, i, alerted0);
        IdsAppend(FreshAlerts(breaches[..i], alerted0), row);
        if row.poId !in alertedPos {
          outbox := outbox + [row];
          alertedPos := alertedPos + {row.poId};
          emailsSent := emailsSent + [row.poId];
        }
      }
      assert breaches[..|breaches|] == breaches;
    }
  }
}
