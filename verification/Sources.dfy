/** The operational documents earnings are computed from, and the pure rules the rebuild, the
    event materializer and the audit share. */
module Sources {
  import opened Wrappers
  import opened Dates
  import opened Money
  import opened Ranking
  import opened Ledger

  datatype CommissionSnapshot = CommissionSnapshot(
    orderCost: Option<real>, special: Option<real>, general: Option<real>, upgrade: Option<real>,
    isPaid: bool, capturedAt: Option<int>)

  datatype OrderSource = OrderSource(
    id: Id, office: Id, beautician: Id, completed: bool, deleted: bool, date: DateKey,
    snapshot: Option<CommissionSnapshot>)

  datatype PayableSnapshot = PayableSnapshot(
    distance: Option<real>, commission: Option<real>, petrol: Option<real>,
    cost: Option<real>, mileage: Option<real>, rate: Option<real>,
    isPaid: bool, capturedAt: Option<int>)

  /** `finished` is the status or kanban test of the trip queries. */
  datatype TripSource = TripSource(
    id: Id, office: Id, rider: Option<Id>, driver: Option<Id>, beautician: Option<Id>,
    selfDrive: bool, date: DateKey, finished: bool, deleted: bool,
    twoWay: bool, commissionable: bool, commissionAmount: real, manualDistance: bool,
    autoKm: real, extraKm: real, tripKm: real, fareCost: real, fareMileage: real,
    snapshot: Option<PayableSnapshot>, officeCost: real, officeMileage: real)

  datatype WorkerTarget = WorkerTarget(worker: Id, target1: real, target2: real,
                                       applicableFrom: Option<DateKey>, joined: Option<DateKey>, created: Option<DateKey>)

  datatype RiderRow = RiderRow(row: Row, workerType: WorkerType)

  /** What one office's calculation can read. */
  datatype SourceData = SourceData(
    orders: seq<OrderSource>, trips: seq<TripSource>, targets: seq<WorkerTarget>, target2Bonus: real,
    officeCost: real, officeMileage: real,
    beauticians: seq<Row>, riders: seq<RiderRow>, prizes: PrizeSchedule)

  // ----- the queries

  predicate OrderMatches(o: OrderSource, office: Id, start: DateKey, end: DateKey) {
    o.office == office && !o.deleted && o.completed && Within(o.date, start, end)
  }

  function LoadOrders(orders: seq<OrderSource>, office: Id, start: DateKey, end: DateKey): seq<OrderSource> {
    if orders == [] then []
    else
      var o := orders[|orders| - 1];
      LoadOrders(orders[..|orders| - 1], office, start, end) + (if OrderMatches(o, office, start, end) then [o] else [])
  }

  predicate TripMatches(t: TripSource, office: Id, start: DateKey, end: DateKey) {
    t.office == office && !t.deleted && t.finished && Within(t.date, start, end)
  }

  function SelectTrips(trips: seq<TripSource>, office: Id, start: DateKey, end: DateKey): seq<TripSource> {
    if trips == [] then []
    else
      var t := trips[|trips| - 1];
      SelectTrips(trips[..|trips| - 1], office, start, end) + (if TripMatches(t, office, start, end) then [t] else [])
  }

  /** A stored snapshot that cannot price petrol without the office rates. */
  predicate NeedsOfficeRates(t: TripSource) {
    t.snapshot.Some? && t.snapshot.value.petrol.None? && (t.fareCost <= 0.0 || t.fareMileage <= 0.0)
  }

  function WithRates(trips: seq<TripSource>, cost: real, mileage: real): (r: seq<TripSource>)
    ensures |r| == |trips|
  {
    seq(|trips|, i requires 0 <= i < |trips| => trips[i].(officeCost := cost, officeMileage := mileage))
  }

  /** One trip in need of the office rates makes the loader fill them in on every row. */
  function LoadTrips(data: SourceData, office: Id, start: DateKey, end: DateKey): seq<TripSource> {
    var rows := SelectTrips(data.trips, office, start, end);
    if exists i :: 0 <= i < |rows| && NeedsOfficeRates(rows[i]) then WithRates(rows, data.officeCost, data.officeMileage)
    else rows
  }

  // ----- targets

  /** `commissionApplicableFromKey` */
  function ApplicableFrom(t: WorkerTarget): DateKey {
    if t.applicableFrom.Some? then t.applicableFrom.value
    else if t.joined.Some? then t.joined.value
    else if t.created.Some? then t.created.value
    else EPOCH
  }

  predicate ValidTarget(t: WorkerTarget) {
    t.worker != NIL_ID && ValidMoney(t.target1) && ValidMoney(t.target2)
  }

  predicate ValidTargets(ts: seq<WorkerTarget>) {
    forall i :: 0 <= i < |ts| ==> ValidTarget(ts[i])
  }

  type Targets = map<Id, WorkerTarget>

  /** Targets by worker; a later row replaces an earlier one. */
  function TargetMap(ts: seq<WorkerTarget>): Targets {
    if ts == [] then map[] else TargetMap(ts[..|ts| - 1])[ts[|ts| - 1].worker := ts[|ts| - 1]]
  }

  /** A worker without a target row compares against Go's zero string: nothing is before it. */
  predicate BeforeCutoff(targets: Targets, worker: Id, date: DateKey) {
    worker in targets && Lt(date, ApplicableFrom(targets[worker]))
  }

  function Target1(targets: Targets, worker: Id): real {
    if worker in targets then targets[worker].target1 else 0.0
  }

  function Target2(targets: Targets, worker: Id): real {
    if worker in targets then targets[worker].target2 else 0.0
  }

  // ----- monthly revenue

  predicate ValidAmount(amount: Option<real>) {
    amount.Some? && ValidMoney(amount.value)
  }

  predicate CostKnown(o: OrderSource) {
    o.snapshot.Some? && ValidAmount(o.snapshot.value.orderCost)
  }

  /** The orders that count towards a worker's month. */
  predicate CountsFor(o: OrderSource, targets: Targets, worker: Id, month: int) {
    o.completed && o.beautician == worker && o.date.month == month && !BeforeCutoff(targets, worker, o.date)
  }

  function Revenue(orders: seq<OrderSource>, targets: Targets, worker: Id, month: int): real {
    if orders == [] then 0.0
    else
      var o := orders[|orders| - 1];
      Revenue(orders[..|orders| - 1], targets, worker, month)
      + (if CountsFor(o, targets, worker, month) && CostKnown(o) then o.snapshot.value.orderCost.value else 0.0)
  }

  function MonthInvalid(orders: seq<OrderSource>, targets: Targets, worker: Id, month: int): bool {
    if orders == [] then false
    else
      var o := orders[|orders| - 1];
      MonthInvalid(orders[..|orders| - 1], targets, worker, month) || (CountsFor(o, targets, worker, month) && !CostKnown(o))
  }

  predicate GeneralEnabled(orders: seq<OrderSource>, targets: Targets, worker: Id, date: DateKey) {
    BeforeCutoff(targets, worker, date)
    || (!MonthInvalid(orders, targets, worker, date.month)
        && Revenue(orders, targets, worker, date.month) >= Target1(targets, worker))
  }

  predicate BonusEarned(orders: seq<OrderSource>, targets: Targets, worker: Id, month: int) {
    Target2(targets, worker) > 0.0 && !MonthInvalid(orders, targets, worker, month)
    && Revenue(orders, targets, worker, month) >= Target2(targets, worker)
  }

  // ----- ledger projections

  function SourceCollection(component: Component): SourceType {
    if component == LeaderboardBonus then Leaderboards
    else if component == TripCommission || component == Petrol then Trips
    else Orders
  }

  /** `sourceEntry` */
  function SourceEntry(office: Id, source: Id, worker: Id, workerType: WorkerType, date: DateKey,
                       component: Component, bucket: Bucket, amount: int, paid: bool): Entry {
    Entry(EntryKey(office, SourceKey(SourceCollection(component), source, component)),
          worker, workerType, date, component, bucket, amount,
          if paid then amount else 0, if paid then Settled else Open,
          SourceCollection(component), Some(source), 1, NoConfiguration, 0)
  }

  function BonusEntry(office: Id, worker: Id, date: DateKey, target2: real, revenue: real, bonus: real): Entry {
    Entry(EntryKey(office, TargetKey(worker, date.month)), worker, Beautician, MonthEnd(date),
          TargetBonus, CommissionBucket, MoneyToPaise(bonus), 0, Open, Targets, None, 1,
          TargetConfiguration(date.month, target2, revenue, bonus), 0)
  }

  // ----- trips

  function TripWorker(t: TripSource): Option<(Id, WorkerType)> {
    if t.driver.Some? then Some((t.driver.value, Beautician))
    else if t.selfDrive && t.beautician.Some? then Some((t.beautician.value, Beautician))
    else if t.rider.Some? then Some((t.rider.value, Rider))
    else None
  }

  function Positive(value: Option<real>, otherwise: real): real {
    if value.Some? && value.value > 0.0 then value.value else otherwise
  }

  function Distance(t: TripSource): real {
    if !t.manualDistance && t.autoKm > 0.0 then (if t.twoWay then t.autoKm * 2.0 else t.autoKm) + t.extraKm
    else t.tripKm
  }

  function PerKilometre(distance: real, rate: real): real {
    RoundSourceMoney(distance * rate)
  }

  function Commission(t: TripSource, rate: real): real {
    if !t.commissionable then 0.0
    else if t.commissionAmount > 0.0 then RoundSourceMoney(t.commissionAmount)
    else PerKilometre(Distance(t), rate)
  }

  function PetrolCost(t: TripSource, stored: Option<real>): real {
    var cost := Positive(stored, t.fareCost);
    if cost <= 0.0 then t.officeCost else cost
  }

  function Mileage(t: TripSource, stored: Option<real>): real {
    var mileage := Positive(stored, t.fareMileage);
    if mileage <= 0.0 then t.officeMileage else mileage
  }

  /** Fuel for a distance at a given mileage and price. */
  function PetrolFor(distance: real, mileage: real, cost: real): real
    requires mileage > 0.0
  {
    RoundSourceMoney(distance / mileage * cost)
  }

  /** `effectiveTripPayables`: commission and petrol a trip pays, either possibly unknown. */
  function EffectivePayables(t: TripSource): (Option<real>, Option<real>) {
    if t.snapshot.None? then (None, None)
    else
      var s := t.snapshot.value;
      if s.isPaid && s.commission.Some? && s.petrol.Some? then (s.commission, s.petrol)
      else if Distance(t) <= 0.0 then (s.commission, s.petrol)
      else
        var commission := Commission(t, Positive(s.rate, 1.0));
        var cost, mileage := PetrolCost(t, s.cost), Mileage(t, s.mileage);
        if cost <= 0.0 || mileage <= 0.0 then (Some(commission), s.petrol)
        else
          var petrol := PetrolFor(Distance(t), mileage, cost);
          (if s.isPaid && s.commission.Some? then s.commission else Some(commission),
           if s.isPaid && s.petrol.Some? then s.petrol else Some(petrol))
  }

  method ComputePayables(t: TripSource) returns (commissionPayable: Option<real>, petrolPayable: Option<real>)
    ensures (commissionPayable, petrolPayable) == EffectivePayables(t)
  {
    if t.snapshot.None? {
      return None, None;
    }
    var s := t.snapshot.value;
    if s.isPaid && s.commission.Some? && s.petrol.Some? {
      return s.commission, s.petrol;
    }
    var distance := t.tripKm;
    if !t.manualDistance && t.autoKm > 0.0 {
      distance := t.autoKm + t.extraKm;
      if t.twoWay {
        distance := t.autoKm * 2.0 + t.extraKm;
      }
    }
    if distance <= 0.0 {
      return s.commission, s.petrol;
    }
    var rate := 1.0;
    if s.rate.Some? && s.rate.value > 0.0 {
      rate := s.rate.value;
    }
    var commission := 0.0;
    if t.commissionable {
      commission := PerKilometre(distance, rate);
      if t.commissionAmount > 0.0 {
        commission := RoundSourceMoney(t.commissionAmount);
      }
    }
    var cost, mileage := t.fareCost, t.fareMileage;
    if s.cost.Some? && s.cost.value > 0.0 {
      cost := s.cost.value;
    }
    if s.mileage.Some? && s.mileage.value > 0.0 {
      mileage := s.mileage.value;
    }
    if cost <= 0.0 {
      cost := t.officeCost;
    }
    if mileage <= 0.0 {
      mileage := t.officeMileage;
    }
    if cost <= 0.0 || mileage <= 0.0 {
      return Some(commission), s.petrol;
    }
    var petrol := PetrolFor(distance, mileage, cost);
    if s.isPaid {
      if s.commission.Some? {
        commission := s.commission.value;
      }
      if s.petrol.Some? {
        petrol := s.petrol.value;
      }
    }
    return Some(commission), Some(petrol);
  }
}
