/** What becomes of a source event, on the fields of the event and of the document it names: done,
    tried again, or refused for good. */
module IntakeLaws {
  import opened Wrappers
  import opened Dates
  import opened Ranking
  import opened Ledger
  import opened SourcePuts
  import opened Sources
  import opened Plans
  import opened ControlPlane
  import opened RebuildPlan
  import opened RebuildFacts
  import opened EventPlan
  import opened TripConvergence
  import opened Convergence
  import opened SourceMessages
  import PaymentText
  import TextLaws
  import HandlerLaws

  predicate NotEarlier(a: DateKey, b: DateKey) {
    a.month > b.month || (a.month == b.month && a.day >= b.day)
  }

  /** The day lies in a closed period of the office. */
  predicate DayClosed(periods: set<Period>, office: Id, d: DateKey) {
    exists p :: p in periods && p.office == office && NotEarlier(d, p.start) && NotEarlier(p.end, d)
  }

  lemma ClosedIs(periods: set<Period>, office: Id, d: DateKey)
    ensures ClosedPeriodOverlap(periods, office, d, d) <==> DayClosed(periods, office, d)
  {
  }

  /** The order is what the event says it is, and it has been captured. */
  predicate OrderFits(o: OrderSource, ev: SourceEvent) {
    && o.office == ev.office && o.date == ev.date && o.completed && !o.deleted
    && o.snapshot.Some? && o.snapshot.value.capturedAt.Some?
  }

  predicate TripFits(t: TripSource, ev: SourceEvent) {
    && t.office == ev.office && t.date == ev.date && t.finished && !t.deleted
    && t.snapshot.Some? && t.snapshot.value.capturedAt.Some?
  }

  ghost predicate OrderNamed(orders: seq<OrderSource>, id: Id, o: Option<OrderSource>) {
    if o.Some? then o.value in orders && o.value.id == id else forall p :: p in orders ==> p.id != id
  }

  ghost predicate TripNamed(trips: seq<TripSource>, id: Id, t: Option<TripSource>) {
    if t.Some? then t.value in trips && t.value.id == id else forall u :: u in trips ==> u.id != id
  }

  /** The places of the characters that take two bytes. */
  function WidePlaces(s: string): set<int> {
    set i | 0 <= i < |s| && s[i] > '\U{007F}'
  }

  lemma {:induction false} BytesAre(s: string)
    ensures ByteLength(s) == |s| + |WidePlaces(s)|
  {
    if s == "" {
      assert WidePlaces(s) == {};
    } else {
      var n := |s| - 1;
      BytesAre(s[..n]);
      assert WidePlaces(s) == WidePlaces(s[..n]) + if s[n] > '\U{007F}' then {n} else {};
    }
  }

  /** A notification is acceptable exactly with an event id that is not blank and has at most 200
      bytes, the one event type and schema, an order or a trip, and fields that parse; the event it
      stands for has its fields. */
  lemma MessageAcceptedIff(r: SourceMessage)
    ensures Acceptable(r) <==>
            && (exists i :: 0 <= i < |r.eventId| && !TextLaws.IsBlank(r.eventId[i])) && |r.eventId| + |WidePlaces(r.eventId)| <= 200
            && r.eventType == "earnings.source.changed" && r.schemaVersion == 1 && (r.sourceType == "order" || r.sourceType == "trip")
            && r.sourceId.Some? && r.sourceVersion.Some? && r.office.Some? && r.occurredAt.Some?
            && r.serviceDate.Some? && HandlerLaws.RealDay(r.serviceDate.value) && (!r.actorGiven || r.actor.Some?)
    ensures Decoded(r).wellFormed <==> Acceptable(r)
    ensures Acceptable(r) ==>
              Decoded(r) == SourceEvent(true, r.sourceType == "order", r.sourceId.value, r.office.value, r.serviceDate.value, r.sourceVersion.value)
  {
    hide PaymentText.Trim, ByteLength, HandlerLaws.RealDay, TextLaws.IsBlank;
    TextLaws.TrimEmptyIff(r.eventId);
    BytesAre(r.eventId);
    if r.serviceDate.Some? {
      HandlerLaws.RealDayIs(r.serviceDate.value);
    }
  }

  /** Malformed events and closed days are refused for good. */
  lemma RefusedOutright(data: SourceData, periods: set<Period>, ev: SourceEvent)
    requires !ev.wellFormed || !ValidDate(ev.date) || DayClosed(periods, ev.office, ev.date)
    ensures EventPlanOf(data, periods, ev).puts == [] && EventPlanOf(data, periods, ev).error == Some(Permanent)
  {
    ClosedIs(periods, ev.office, ev.date);
  }

  /** An order event is to be tried again exactly when its order is not there yet or still older; one
      that is outdated is done without a write; one that does not fit its order is refused for good. */
  lemma OrderIntake(data: SourceData, periods: set<Period>, ev: SourceEvent, o: Option<OrderSource>)
    requires ev.wellFormed && ev.isOrder && ValidDate(ev.date) && !DayClosed(periods, ev.office, ev.date)
    requires DistinctOrders(data.orders) && OrderNamed(data.orders, ev.source, o)
    ensures var p := EventPlanOf(data, periods, ev);
            && (p.error == Some(Retry) <==> o.None? || (OrderFits(o.value, ev) && o.value.snapshot.value.capturedAt.value < ev.version))
            && (p.error == Some(Retry) ==> p.puts == [])
            && (o.Some? && !OrderFits(o.value, ev) ==> p.puts == [] && p.error == Some(Permanent))
            && (o.Some? && OrderFits(o.value, ev) && o.value.snapshot.value.capturedAt.value > ev.version ==> p == Plan([], 0, 0, None))
            && (o.Some? && OrderFits(o.value, ev) && o.value.snapshot.value.capturedAt.value == ev.version ==> Announces(ev, o.value))
  {
    hide AcceptedOrderPlan, ContextOf, ValidTargets, LoadOrders;
    ClosedIs(periods, ev.office, ev.date);
    if o.Some? {
      FindsOrder(data.orders, o.value);
      if OrderFits(o.value, ev) {
        var all := LoadOrders(data.orders, ev.office, MonthStart(ev.date), MonthEnd(ev.date));
        AcceptedNeverRetries(ev, o.value, ContextOf(data, ev.office, o.value.beautician, ev.date, all), all, data.target2Bonus);
      }
    } else {
      NoOrderFound(data.orders, ev.source);
    }
  }

  lemma AcceptedNeverRetries(ev: SourceEvent, o: OrderSource, c: MonthContext, all: seq<OrderSource>, bonus: real)
    requires o.snapshot.Some?
    ensures AcceptedOrderPlan(ev, o, c, all, bonus).error != Some(Retry)
  {
    hide ComponentPlan, OrderEntry, EventGeneralPlans, EventBonusPlan;
    var s := o.snapshot.value;
    ComponentPlanShape(OrderEntry(c.office, o, SpecialCommission, s.special), s.special, true);
    ComponentPlanShape(OrderEntry(c.office, o, UpgradeCommission, s.upgrade), s.upgrade, true);
    BonusNeverRetries(c, ev.date, bonus);
  }

  lemma BonusNeverRetries(c: MonthContext, date: DateKey, bonus: real)
    ensures EventBonusPlan(c, date, bonus).error != Some(Retry)
  {
  }

  lemma {:induction false} NoOrderFound(orders: seq<OrderSource>, id: Id)
    requires forall p :: p in orders ==> p.id != id
    ensures FindOrder(orders, id).None?
  {
    if orders != [] {
      assert forall p :: p in orders[..|orders| - 1] ==> p in orders;
      NoOrderFound(orders[..|orders| - 1], id);
    }
  }

  lemma {:induction false} NoTripFound(trips: seq<TripSource>, id: Id)
    requires forall u :: u in trips ==> u.id != id
    ensures FindTrip(trips, id).None?
  {
    if trips != [] {
      assert forall u :: u in trips[..|trips| - 1] ==> u in trips;
      NoTripFound(trips[..|trips| - 1], id);
    }
  }

  /** The same of a trip event; a trip nobody is paid for is refused too. */
  lemma TripIntake(data: SourceData, periods: set<Period>, ev: SourceEvent, t: Option<TripSource>)
    requires ev.wellFormed && !ev.isOrder && ValidDate(ev.date) && !DayClosed(periods, ev.office, ev.date)
    requires DistinctTrips(data.trips) && TripNamed(data.trips, ev.source, t)
    ensures var p := EventPlanOf(data, periods, ev);
            && (p.error == Some(Retry) <==> t.None? || (TripFits(t.value, ev) && t.value.snapshot.value.capturedAt.value < ev.version))
            && (p.error == Some(Retry) ==> p.puts == [])
            && (t.Some? && !TripFits(t.value, ev) ==> p.puts == [] && p.error == Some(Permanent))
            && (t.Some? && TripFits(t.value, ev) && t.value.snapshot.value.capturedAt.value > ev.version ==> p == Plan([], 0, 0, None))
            && (t.Some? && TripFits(t.value, ev) && t.value.snapshot.value.capturedAt.value == ev.version ==>
                  (p.error == if t.value.driver.Some? || (t.value.selfDrive && t.value.beautician.Some?) || t.value.rider.Some? then None else Some(Permanent)))
  {
    hide EffectivePayables, TripEntry, FindTrip;
    ClosedIs(periods, ev.office, ev.date);
    if t.Some? {
      FoundTrip(data.trips, t.value);
    } else {
      NoTripFound(data.trips, ev.source);
    }
  }

  /** The event is ahead of its document: it would be accepted, but the document is missing or older. */
  ghost predicate Ahead(data: SourceData, periods: set<Period>, ev: SourceEvent) {
    && ev.wellFormed && ValidDate(ev.date) && !DayClosed(periods, ev.office, ev.date)
    && (if ev.isOrder
        then forall o :: o in data.orders && o.id == ev.source ==> OrderFits(o, ev) && o.snapshot.value.capturedAt.value < ev.version
        else forall t :: t in data.trips && t.id == ev.source ==> TripFits(t, ev) && t.snapshot.value.capturedAt.value < ev.version)
  }

  /** Exactly such events are to be tried again, whatever the ledger holds. */
  lemma RetryIsAhead(data: SourceData, periods: set<Period>, ev: SourceEvent, m: Entries)
    requires DistinctOrders(data.orders) && DistinctTrips(data.trips)
    ensures EventError(m, EventPlanOf(data, periods, ev)) == Some(Retry) <==> Ahead(data, periods, ev)
  {
    hide EventPlanOf, PlanStats;
    if !ev.wellFormed || !ValidDate(ev.date) || DayClosed(periods, ev.office, ev.date) {
      RefusedOutright(data, periods, ev);
    } else if ev.isOrder {
      if o :| o in data.orders && o.id == ev.source {
        OrderIntake(data, periods, ev, Some(o));
        forall p | p in data.orders && p.id == ev.source ensures p == o {
          SameOrder(data.orders, o, p);
        }
      } else {
        OrderIntake(data, periods, ev, None);
      }
    } else {
      if t :| t in data.trips && t.id == ev.source {
        TripIntake(data, periods, ev, Some(t));
        forall u | u in data.trips && u.id == ev.source ensures u == t {
          var i :| 0 <= i < |data.trips| && data.trips[i] == t;
          var j :| 0 <= j < |data.trips| && data.trips[j] == u;
        }
      } else {
        TripIntake(data, periods, ev, None);
      }
    }
  }
}
