/** What one source event writes: `SourceEventProcessor.Process` of
    `internal/earnings/source_events.go`, as a plan. */
module EventPlan {
  import opened Wrappers
  import opened Dates
  import opened Money
  import opened Ranking
  import opened Ledger
  import opened SourcePuts
  import opened Sources
  import opened Plans
  import opened ControlPlane
  import opened RebuildPlan

  /** A decoded notification; `wellFormed` is the outcome of `validateSourceEvent`. */
  datatype SourceEvent = SourceEvent(wellFormed: bool, isOrder: bool, source: Id, office: Id, date: DateKey, version: int)

  datatype Freshness = Current | Stale | Refused(error: SourceError)

  /** `validateReloadedSource`: the event must describe the stored document it points to. */
  function Reloaded(ev: SourceEvent, office: Id, date: DateKey, eligible: bool, hasSnapshot: bool, captured: Option<int>): Freshness {
    if office != ev.office || date != ev.date || !eligible || !hasSnapshot || captured.None? then Refused(Permanent)
    else if captured.value == ev.version then Current
    else if captured.value > ev.version then Stale
    else Refused(Retry)
  }

  /** The document an id names. */
  function FindOrder(orders: seq<OrderSource>, id: Id): Option<OrderSource> {
    if orders == [] then None
    else if orders[|orders| - 1].id == id then Some(orders[|orders| - 1])
    else FindOrder(orders[..|orders| - 1], id)
  }

  function FindTrip(trips: seq<TripSource>, id: Id): Option<TripSource> {
    if trips == [] then None
    else if trips[|trips| - 1].id == id then Some(trips[|trips| - 1])
    else FindTrip(trips[..|trips| - 1], id)
  }

  /** `LoadTripSource` fetches the office rates only when this very trip needs them. */
  function LoadTrip(data: SourceData, id: Id): Option<TripSource> {
    match FindTrip(data.trips, id)
    case None => None
    case Some(t) =>
      if NeedsOfficeRates(t) then Some(t.(officeCost := data.officeCost, officeMileage := data.officeMileage)) else Some(t)
  }

  // ----- the worker's month as an event sees it

  /** Unlike the rebuild, an event gives a worker without a target row the epoch as cutoff. */
  function EventCutoff(targets: Targets, worker: Id): DateKey {
    if worker in targets then ApplicableFrom(targets[worker]) else EPOCH
  }

  predicate EventCounts(o: OrderSource, worker: Id, month: int, cutoff: DateKey) {
    o.completed && !o.deleted && o.beautician == worker && !Lt(o.date, cutoff) && o.date.month == month
  }

  /** `monthlyRevenueForWorker`: none when a counted order has no usable cost. */
  function EventRevenue(orders: seq<OrderSource>, worker: Id, month: int, cutoff: DateKey): Option<real> {
    if orders == [] then Some(0.0)
    else
      var o := orders[|orders| - 1];
      match EventRevenue(orders[..|orders| - 1], worker, month, cutoff)
      case None => None
      case Some(sum) =>
        if !EventCounts(o, worker, month, cutoff) then Some(sum)
        else if CostKnown(o) then Some(sum + o.snapshot.value.orderCost.value)
        else None
  }

  /** What an event knows about the month: cutoff, targets and revenue (none when invalid). */
  datatype MonthContext = MonthContext(office: Id, worker: Id, month: int, cutoff: DateKey,
                                       target1: real, target2: real, revenue: Option<real>)

  predicate EventGeneralEnabled(c: MonthContext, date: DateKey) {
    Lt(date, c.cutoff) || (c.revenue.Some? && c.revenue.value >= c.target1)
  }

  /** The general commission of one order of the month. */
  function EventGeneralPlan(c: MonthContext, o: OrderSource): Plan {
    if o.office != c.office || o.beautician != c.worker || !o.completed || o.deleted
       || !EventGeneralEnabled(c, o.date) || o.date.month != c.month then NOTHING
    else if o.id == NIL_ID || !ValidDate(o.date) || o.snapshot.None? then Plan([], 0, 1, None)
    else ComponentPlan(OrderEntry(c.office, o, GeneralCommission, o.snapshot.value.general), o.snapshot.value.general, true)
  }

  function EventGeneralPlans(c: MonthContext, orders: seq<OrderSource>): (p: Plan)
    ensures p.error.None?
  {
    if orders == [] then NOTHING
    else Then(EventGeneralPlans(c, orders[..|orders| - 1]), EventGeneralPlan(c, orders[|orders| - 1]))
  }

  function EventBonusPlan(c: MonthContext, date: DateKey, bonus: real): Plan {
    if c.revenue.None? || c.target2 <= 0.0 || c.revenue.value < c.target2 then NOTHING
    else if !ValidMoney(bonus) then Failing(Permanent)
    else if bonus > 0.0 then Plan([BonusEntry(c.office, c.worker, date, c.target2, c.revenue.value, bonus)], 0, 0, None)
    else NOTHING
  }

  function ContextOf(data: SourceData, office: Id, worker: Id, date: DateKey, orders: seq<OrderSource>): MonthContext {
    var targets := TargetMap(data.targets);
    var cutoff := EventCutoff(targets, worker);
    MonthContext(office, worker, date.month, cutoff, Target1(targets, worker), Target2(targets, worker),
                 EventRevenue(orders, worker, date.month, cutoff))
  }

  /** An accepted order event: the order's own components, then everything its month decides. */
  function AcceptedOrderPlan(ev: SourceEvent, o: OrderSource, c: MonthContext, orders: seq<OrderSource>, bonus: real): Plan
    requires o.snapshot.Some?
  {
    if c.revenue.None? && !Lt(ev.date, c.cutoff) then Plan([], 1, 0, Some(Permanent))
    else
      var s := o.snapshot.value;
      Then(Then(Then(Then(Plan([], 1, 0, None),
        ComponentPlan(OrderEntry(c.office, o, SpecialCommission, s.special), s.special, true)),
        ComponentPlan(OrderEntry(c.office, o, UpgradeCommission, s.upgrade), s.upgrade, true)),
        EventGeneralPlans(c, orders)),
        EventBonusPlan(c, ev.date, bonus))
  }

  function OrderEventPlan(data: SourceData, ev: SourceEvent): Plan {
    match FindOrder(data.orders, ev.source)
    case None => Failing(Retry)
    case Some(o) =>
      var captured := if o.snapshot.Some? then o.snapshot.value.capturedAt else None;
      match Reloaded(ev, o.office, o.date, o.completed && !o.deleted, o.snapshot.Some?, captured)
      case Stale => NOTHING
      case Refused(error) => Failing(error)
      case Current =>
        if !ValidTargets(data.targets) then Failing(Permanent)
        else
          var orders := LoadOrders(data.orders, ev.office, MonthStart(ev.date), MonthEnd(ev.date));
          AcceptedOrderPlan(ev, o, ContextOf(data, ev.office, o.beautician, ev.date, orders), orders, data.target2Bonus)
  }

  function TripEventPlan(data: SourceData, ev: SourceEvent): Plan {
    match LoadTrip(data, ev.source)
    case None => Failing(Retry)
    case Some(t) =>
      var captured := if t.snapshot.Some? then t.snapshot.value.capturedAt else None;
      match Reloaded(ev, t.office, t.date, !t.deleted && t.finished, t.snapshot.Some?, captured)
      case Stale => NOTHING
      case Refused(error) => Failing(error)
      case Current =>
        if TripWorker(t).None? then Plan([], 1, 0, Some(Permanent))
        else
          var (commission, petrol) := EffectivePayables(t);
          Then(Then(Plan([], 1, 0, None),
            ComponentPlan(TripEntry(ev.office, t, TripCommission, CommissionBucket, commission), commission, true)),
            ComponentPlan(TripEntry(ev.office, t, Petrol, PetrolBucket, petrol), petrol, true))
  }

  function EventPlanOf(data: SourceData, periods: set<Period>, ev: SourceEvent): Plan {
    if !ev.wellFormed || !ValidDate(ev.date) then Failing(Permanent)
    else if ClosedPeriodOverlap(periods, ev.office, ev.date, ev.date) then Failing(Permanent)
    else if ev.isOrder then OrderEventPlan(data, ev)
    else TripEventPlan(data, ev)
  }

  /** How the event ends: conflicts with frozen entries are permanent too. */
  function EventError(m: Entries, p: Plan): Option<SourceError> {
    if p.error.Some? then p.error
    else if PlanStats(m, p, NO_STATS).conflicts > 0 then Some(Permanent)
    else None
  }
}
