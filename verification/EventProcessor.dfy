/** The event materializer (`internal/earnings/source_events.go`): its loops, proved to carry out
    the plans of `EventPlan`. */
module EventProcessing {
  import opened Wrappers
  import opened Dates
  import opened Money
  import opened Ranking
  import opened Ledger
  import opened SourcePuts
  import opened Sources
  import opened Plans
  import opened ControlPlane
  import opened RebuildPlan
  import opened EventPlan
  import opened SourceMessages
  import opened Processing
  import opened Store

  lemma {:induction false} InvalidStaysInvalid(orders: seq<OrderSource>, worker: Id, month: int, cutoff: DateKey, i: nat)
    requires i <= |orders| && EventRevenue(orders[..i], worker, month, cutoff).None?
    ensures EventRevenue(orders, worker, month, cutoff).None?
  {
    if i < |orders| {
      var n := |orders| - 1;
      assert orders[..n][..i] == orders[..i];
      InvalidStaysInvalid(orders[..n], worker, month, cutoff, i);
    } else {
      assert orders[..i] == orders;
    }
  }

  method MonthlyRevenueForWorker(orders: seq<OrderSource>, worker: Id, month: int, cutoff: DateKey)
    returns (revenue: real, valid: bool)
    ensures EventRevenue(orders, worker, month, cutoff) == if valid then Some(revenue) else None
  {
    revenue, valid := 0.0, true;
    for i := 0 to |orders|
      invariant EventRevenue(orders[..i], worker, month, cutoff) == Some(revenue) && valid
    {
      var o := orders[i];
      assert orders[..i + 1][..i] == orders[..i];
      if !o.completed || o.deleted || o.beautician != worker || Lt(o.date, cutoff) || o.date.month != month {
        continue;
      }
      if o.snapshot.None? || o.snapshot.value.orderCost.None? || !ValidMoney(o.snapshot.value.orderCost.value) {
        InvalidStaysInvalid(orders, worker, month, cutoff, i + 1);
        return 0.0, false;
      }
      revenue := revenue + o.snapshot.value.orderCost.value;
    }
    assert orders[..|orders|] == orders;
  }

  class SourceEventProcessor {
    const backend: Repository

    constructor (backend: Repository)
      ensures this.backend == backend
    {
      this.backend := backend;
    }

    method PutGeneral(c: MonthContext, orders: seq<OrderSource>, stats: Stats) returns (stats': Stats)
      modifies backend`entries, backend`paidAtSource
      ensures Ran(old(backend.entries), stats, EventGeneralPlans(c, orders), backend.entries, stats')
    {
      stats' := stats;
      ghost var m0 := backend.entries;
      for i := 0 to |orders|
        invariant Ran(m0, stats, EventGeneralPlans(c, orders[..i]), backend.entries, stats')
      {
        ghost var m1, s1 := backend.entries, stats';
        assert orders[..i + 1][..i] == orders[..i];
        var o := orders[i];
        if !(o.office != c.office || o.beautician != c.worker || !o.completed || o.deleted
             || (!Lt(o.date, c.cutoff) && (c.revenue.None? || c.revenue.value < c.target1)) || o.date.month != c.month) {
          if o.id == NIL_ID || !ValidDate(o.date) || o.snapshot.None? {
            stats' := stats'.(missing := stats'.missing + 1);
          } else {
            stats' := PutComponent(backend, OrderEntry(c.office, o, GeneralCommission, o.snapshot.value.general),
                                   o.snapshot.value.general, true, stats');
          }
        }
        assert Ran(m1, s1, EventGeneralPlan(c, o), backend.entries, stats');
        RanThen(m0, stats, EventGeneralPlans(c, orders[..i]), m1, s1, EventGeneralPlan(c, o), backend.entries, stats');
      }
      assert orders[..|orders|] == orders;
    }

    /** The part of `processOrder` after the event has been accepted. */
    method PutOrderMonth(ev: SourceEvent, o: OrderSource, c: MonthContext, orders: seq<OrderSource>, bonus: real)
      returns (failed: Option<SourceError>, stats: Stats)
      requires o.snapshot.Some?
      modifies backend`entries, backend`paidAtSource
      ensures var p := AcceptedOrderPlan(ev, o, c, orders, bonus);
              failed == p.error && Ran(old(backend.entries), NO_STATS, p, backend.entries, stats)
    {
      stats := NO_STATS.(scanned := 1);
      ghost var m0, p0 := backend.entries, Plan([], 1, 0, None);
      assert Ran(m0, NO_STATS, p0, m0, stats);
      if c.revenue.None? && !Lt(ev.date, c.cutoff) {
        return Some(Permanent), stats;
      }
      var s := o.snapshot.value;
      ghost var p1 := ComponentPlan(OrderEntry(c.office, o, SpecialCommission, s.special), s.special, true);
      ghost var p2 := ComponentPlan(OrderEntry(c.office, o, UpgradeCommission, s.upgrade), s.upgrade, true);
      ghost var p3, p4 := EventGeneralPlans(c, orders), EventBonusPlan(c, ev.date, bonus);
      ghost var s0 := stats;
      stats := PutComponent(backend, OrderEntry(c.office, o, SpecialCommission, s.special), s.special, true, stats);
      ghost var m1, s1 := backend.entries, stats;
      RanThen(m0, NO_STATS, p0, m0, s0, p1, m1, s1);
      stats := PutComponent(backend, OrderEntry(c.office, o, UpgradeCommission, s.upgrade), s.upgrade, true, stats);
      ghost var m2, s2 := backend.entries, stats;
      RanThen(m0, NO_STATS, Then(p0, p1), m1, s1, p2, m2, s2);
      stats := PutGeneral(c, orders, stats);
      ghost var m3, s3 := backend.entries, stats;
      RanThen(m0, NO_STATS, Then(Then(p0, p1), p2), m2, s2, p3, m3, s3);
      failed, stats := PutBonus(c, ev.date, bonus, stats);
      RanThen(m0, NO_STATS, Then(Then(Then(p0, p1), p2), p3), m3, s3, p4, backend.entries, stats);
    }

    method PutBonus(c: MonthContext, date: DateKey, bonus: real, stats: Stats) returns (failed: Option<SourceError>, stats': Stats)
      modifies backend`entries, backend`paidAtSource
      ensures var p := EventBonusPlan(c, date, bonus);
              failed == p.error && Ran(old(backend.entries), stats, p, backend.entries, stats')
    {
      failed, stats' := None, stats;
      if c.revenue.Some? && c.target2 > 0.0 && c.revenue.value >= c.target2 {
        if !ValidMoney(bonus) {
          return Some(Permanent), stats';
        }
        if bonus > 0.0 {
          stats' := PutLedgerEntry(backend, BonusEntry(c.office, c.worker, date, c.target2, c.revenue.value, bonus), stats');
        }
      }
    }

    method ProcessOrder(data: SourceData, ev: SourceEvent) returns (failed: Option<SourceError>, stats: Stats)
      modifies backend`entries, backend`paidAtSource
      ensures var p := OrderEventPlan(data, ev);
              failed == p.error && Ran(old(backend.entries), NO_STATS, p, backend.entries, stats)
    {
      stats, failed := NO_STATS, None;
      var found := FindOrder(data.orders, ev.source);
      if found.None? {
        return Some(Retry), stats;
      }
      var o := found.value;
      var captured := if o.snapshot.Some? then o.snapshot.value.capturedAt else None;
      var reloaded := Reloaded(ev, o.office, o.date, o.completed && !o.deleted, o.snapshot.Some?, captured);
      match reloaded
      case Stale => return;
      case Refused(error) => return Some(error), stats;
      case Current =>
        var orders := LoadOrders(data.orders, ev.office, MonthStart(ev.date), MonthEnd(ev.date));
        var context := MonthContext(ev.office, o.beautician, ev.date.month, EPOCH, 0.0, 0.0, None);
        for i := 0 to |data.targets|
          invariant ValidTargets(data.targets[..i])
          invariant var targets := TargetMap(data.targets[..i]);
                    context == MonthContext(ev.office, o.beautician, ev.date.month, EventCutoff(targets, o.beautician),
                                            Target1(targets, o.beautician), Target2(targets, o.beautician), None)
        {
          var target := data.targets[i];
          assert data.targets[..i + 1][..i] == data.targets[..i];
          if target.worker == NIL_ID || !ValidMoney(target.target1) || !ValidMoney(target.target2) {
            assert !ValidTarget(data.targets[i]);
            return Some(Permanent), stats;
          }
          if target.worker == o.beautician {
            context := context.(target1 := target.target1, target2 := target.target2, cutoff := ApplicableFrom(target));
          }
        }
        assert data.targets[..|data.targets|] == data.targets;
        var revenue, valid := MonthlyRevenueForWorker(orders, o.beautician, ev.date.month, context.cutoff);
        context := context.(revenue := if valid then Some(revenue) else None);
        failed, stats := PutOrderMonth(ev, o, context, orders, data.target2Bonus);
    }

    method ProcessTrip(data: SourceData, ev: SourceEvent) returns (failed: Option<SourceError>, stats: Stats)
      modifies backend`entries, backend`paidAtSource
      ensures var p := TripEventPlan(data, ev);
              failed == p.error && Ran(old(backend.entries), NO_STATS, p, backend.entries, stats)
    {
      stats, failed := NO_STATS, None;
      var found := LoadTrip(data, ev.source);
      if found.None? {
        return Some(Retry), stats;
      }
      var t := found.value;
      var captured := if t.snapshot.Some? then t.snapshot.value.capturedAt else None;
      var reloaded := Reloaded(ev, t.office, t.date, !t.deleted && t.finished, t.snapshot.Some?, captured);
      match reloaded
      case Stale => return;
      case Refused(error) => return Some(error), stats;
      case Current =>
        stats := NO_STATS.(scanned := 1);
        ghost var m0, s0, p0 := backend.entries, stats, Plan([], 1, 0, None);
        assert Ran(m0, NO_STATS, p0, m0, s0);
        if TripWorker(t).None? {
          return Some(Permanent), stats;
        }
        var commission, petrol := ComputePayables(t);
        var ride := TripEntry(ev.office, t, TripCommission, CommissionBucket, commission);
        var fuel := TripEntry(ev.office, t, Petrol, PetrolBucket, petrol);
        stats := PutComponent(backend, ride, commission, true, stats);
        ghost var m1, s1 := backend.entries, stats;
        RanThen(m0, NO_STATS, p0, m0, s0, ComponentPlan(ride, commission, true), m1, s1);
        stats := PutComponent(backend, fuel, petrol, true, stats);
        RanThen(m0, NO_STATS, Then(p0, ComponentPlan(ride, commission, true)), m1, s1,
                ComponentPlan(fuel, petrol, true), backend.entries, stats);
    }

    /** `Process` of a decoded notification. */
    method ProcessEvent(data: SourceData, ev: SourceEvent) returns (failed: Option<SourceError>, stats: Stats)
      modifies backend`entries, backend`paidAtSource
      ensures var p := EventPlanOf(data, backend.periods, ev);
              && Ran(old(backend.entries), NO_STATS, p, backend.entries, stats)
              && failed == EventError(old(backend.entries), p)
    {
      stats := NO_STATS;
      if !ev.wellFormed || !ValidDate(ev.date) {
        return Some(Permanent), stats;
      }
      if ClosedPeriodOverlap(backend.periods, ev.office, ev.date, ev.date) {
        return Some(Permanent), stats;
      }
      if ev.isOrder {
        failed, stats := ProcessOrder(data, ev);
      } else {
        failed, stats := ProcessTrip(data, ev);
      }
      if failed.None? && stats.conflicts > 0 {
        failed := Some(Permanent);
      }
    }

    method Process(data: SourceData, message: SourceMessage) returns (failed: Option<SourceError>, stats: Stats)
      modifies backend`entries, backend`paidAtSource
      ensures var p := EventPlanOf(data, backend.periods, Decoded(message));
              && Ran(old(backend.entries), NO_STATS, p, backend.entries, stats)
              && failed == EventError(old(backend.entries), p)
      ensures !Acceptable(message) ==> backend.entries == old(backend.entries) && failed == Some(Permanent)
    {
      var ok := ValidateSourceEvent(message);
      if !ok {
        return Some(Permanent), NO_STATS;
      }
      failed, stats := ProcessEvent(data, Decoded(message));
    }
  }
}
