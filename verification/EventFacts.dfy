/** No two writes of one source event share a key. */
module EventFacts {
  import opened Wrappers
  import opened Dates
  import opened Ranking
  import opened Ledger
  import opened SourcePuts
  import opened Sources
  import opened Plans
  import opened ControlPlane
  import opened RebuildPlan
  import opened RebuildFacts
  import opened EventPlan

  predicate GeneralKey(e: Entry) {
    e.id.key.SourceKey? && e.id.key.collection == Orders && e.id.key.component == GeneralCommission
  }

  lemma {:induction false} GeneralKeys(c: MonthContext, orders: seq<OrderSource>)
    requires DistinctOrders(orders)
    ensures DistinctKeys(EventGeneralPlans(c, orders).puts)
    ensures forall i :: 0 <= i < |EventGeneralPlans(c, orders).puts| ==>
              var e := EventGeneralPlans(c, orders).puts[i]; GeneralKey(e) && exists j :: 0 <= j < |orders| && orders[j].id == e.id.key.source
  {
    if orders != [] {
      var n := |orders| - 1;
      var init, last := orders[..n], EventGeneralPlan(c, orders[n]).puts;
      assert forall j :: 0 <= j < n ==> init[j] == orders[j];
      GeneralKeys(c, init);
      assert |last| <= 1 && (last != [] ==> GeneralKey(last[0]) && last[0].id.key.source == orders[n].id);
    }
  }

  /** At most one write, of this component or, for `None`, of a target bonus. */
  ghost predicate SingleWrite(es: seq<Entry>, component: Option<Component>) {
    |es| <= 1 && forall i :: 0 <= i < |es| ==>
      if component.Some? then es[i].id.key.SourceKey? && es[i].id.key.component == component.value else es[i].id.key.TargetKey?
  }

  lemma AcceptedParts(ev: SourceEvent, o: OrderSource, c: MonthContext, orders: seq<OrderSource>, bonus: real)
    returns (a: seq<Entry>, b: seq<Entry>, g: seq<Entry>, d: seq<Entry>)
    requires o.snapshot.Some? && !(c.revenue.None? && !Lt(ev.date, c.cutoff))
    ensures AcceptedOrderPlan(ev, o, c, orders, bonus).puts == a + b + g + d && g == EventGeneralPlans(c, orders).puts
    ensures SingleWrite(a, Some(SpecialCommission)) && SingleWrite(b, Some(UpgradeCommission)) && SingleWrite(d, None)
  {
    hide EventGeneralPlans;
    var s := o.snapshot.value;
    a := ComponentPlan(OrderEntry(c.office, o, SpecialCommission, s.special), s.special, true).puts;
    b := ComponentPlan(OrderEntry(c.office, o, UpgradeCommission, s.upgrade), s.upgrade, true).puts;
    g, d := EventGeneralPlans(c, orders).puts, EventBonusPlan(c, ev.date, bonus).puts;
  }

  lemma FourPartsDistinct(a: seq<Entry>, b: seq<Entry>, g: seq<Entry>, d: seq<Entry>)
    requires SingleWrite(a, Some(SpecialCommission)) && SingleWrite(b, Some(UpgradeCommission)) && SingleWrite(d, None)
    requires DistinctKeys(g) && forall i :: 0 <= i < |g| ==> GeneralKey(g[i])
    ensures DistinctKeys(a + b + g + d)
  {
    ConcatDistinct(a, b);
    forall i, j | 0 <= i < |a + b| && 0 <= j < |g| ensures (a + b)[i].id != g[j].id {
      assert GeneralKey(g[j]);
    }
    ConcatDistinct(a + b, g);
    forall i, j | 0 <= i < |a + b + g| && 0 <= j < |d| ensures (a + b + g)[i].id != d[j].id {
      if i >= |a + b| { assert GeneralKey(g[i - |a + b|]); }
    }
    ConcatDistinct(a + b + g, d);
  }

  lemma AcceptedOrderDistinct(ev: SourceEvent, o: OrderSource, c: MonthContext, orders: seq<OrderSource>, bonus: real)
    requires o.snapshot.Some? && DistinctOrders(orders)
    ensures DistinctKeys(AcceptedOrderPlan(ev, o, c, orders, bonus).puts)
  {
    if !(c.revenue.None? && !Lt(ev.date, c.cutoff)) {
      hide AcceptedOrderPlan, EventGeneralPlans, DistinctKeys, SingleWrite, GeneralKey;
      var a, b, g, d := AcceptedParts(ev, o, c, orders, bonus);
      GeneralKeys(c, orders);
      FourPartsDistinct(a, b, g, d);
    }
  }

  lemma EventPutsDistinct(data: SourceData, periods: set<Period>, ev: SourceEvent)
    requires DistinctOrders(data.orders)
    ensures DistinctKeys(EventPlanOf(data, periods, ev).puts)
  {
    if ev.isOrder {
      var orders := LoadOrders(data.orders, ev.office, MonthStart(ev.date), MonthEnd(ev.date));
      LoadedDistinct(data.orders, ev.office, MonthStart(ev.date), MonthEnd(ev.date));
      match FindOrder(data.orders, ev.source)
      case None =>
      case Some(o) =>
        if o.snapshot.Some? {
          AcceptedOrderDistinct(ev, o, ContextOf(data, ev.office, o.beautician, ev.date, orders), orders, data.target2Bonus);
        }
    }
  }
}
