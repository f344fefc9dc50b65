/** What a rebuild and an audit count as looked at and as missing, document by document, and when
    they cannot be made at all. */
module CountLaws {
  import opened Wrappers
  import opened Dates
  import opened Money
  import opened Ranking
  import opened Ledger
  import opened Sources
  import opened Plans
  import opened ControlPlane
  import opened RebuildPlan
  import opened RebuildFacts
  import opened AuditPlan
  import opened PayoutLaws
  import opened HandlerLaws
  import LedgerLaws
  import opened OrderLaws
  import TripLaws

  function SumOver<T>(s: seq<T>, f: T -> nat): nat {
    if s == [] then 0 else SumOver(s[..|s| - 1], f) + f(s[|s| - 1])
  }

  // ----- what is missing

  /** A missing or negative amount. */
  function Gap(amount: Option<real>): nat {
    if amount.Some? && amount.value >= 0.0 then 0 else 1
  }

  function CommissionGaps(s: CommissionSnapshot): nat {
    Gap(s.special) + Gap(s.general) + Gap(s.upgrade)
  }

  predicate InRange(d: DateKey, start: DateKey, end: DateKey) {
    DateUpTo(start, d) && DateUpTo(d, end)
  }

  /** A completed order of the office in the months the range touches. */
  predicate InMonths(o: OrderSource, office: Id, start: DateKey, end: DateKey) {
    o.office == office && o.completed && !o.deleted && InRange(o.date, DateKey(start.month, 1), DateKey(end.month, LastDay(end.month)))
  }

  /** A rebuild misses an order's real date, anywhere in those months, and in range its snapshot or
      each amount of it. */
  function OrderGaps(office: Id, start: DateKey, end: DateKey): OrderSource -> nat {
    (o: OrderSource) =>
      if !InMonths(o, office, start, end) then 0
      else if !RealDay(o.date) then 1
      else if !InRange(o.date, start, end) then 0
      else if o.snapshot.None? then 1
      else CommissionGaps(o.snapshot.value)
  }

  function OrderSeen(office: Id, start: DateKey, end: DateKey): OrderSource -> nat {
    (o: OrderSource) => if InMonths(o, office, start, end) && RealDay(o.date) && InRange(o.date, start, end) then 1 else 0
  }

  predicate SomebodyPaid(t: TripSource) {
    t.driver.Some? || (t.selfDrive && t.beautician.Some?) || t.rider.Some?
  }

  /** The trip as it is priced: with the office's rates as soon as a trip taken lacks something. */
  function PricedRow(data: SourceData, rated: bool, t: TripSource): TripSource {
    if rated then t.(officeCost := data.officeCost, officeMileage := data.officeMileage) else t
  }

  ghost predicate Rated(data: SourceData, office: Id, start: DateKey, end: DateKey) {
    exists u :: u in data.trips && TripLaws.Taken(u, office, start, end) && TripLaws.Lacks(u)
  }

  /** A rebuild misses a trip's real date, and of one somebody is paid for its snapshot or each
      payable; a petrol rebuild does not ask for the commission. */
  function TripGaps(data: SourceData, rated: bool, office: Id, start: DateKey, end: DateKey, petrolOnly: bool): TripSource -> nat {
    (t: TripSource) =>
      if !TripLaws.Taken(t, office, start, end) then 0
      else if !RealDay(t.date) then 1
      else if !SomebodyPaid(t) then 0
      else if t.snapshot.None? then 1
      else
        var (commission, petrol) := EffectivePayables(PricedRow(data, rated, t));
        (if petrolOnly then 0 else Gap(commission)) + Gap(petrol)
  }

  function TripSeen(office: Id, start: DateKey, end: DateKey): TripSource -> nat {
    (t: TripSource) => if TripLaws.Taken(t, office, start, end) then 1 else 0
  }

  // ----- the rebuild's orders

  lemma ComponentCounts(entry: Entry, amount: Option<real>, enabled: bool)
    ensures var p := ComponentPlan(entry, amount, enabled); p.scanned == 0 && p.missing == Gap(amount) && p.error.None?
  {
  }

  lemma OrderCounts(job: Job, all: seq<OrderSource>, targets: Targets, o: OrderSource)
    requires InMonths(o, job.id.office, job.start, job.end)
    ensures var p := OrderPlan(job, all, targets, o);
            p.missing == OrderGaps(job.id.office, job.start, job.end)(o) && p.scanned == OrderSeen(job.id.office, job.start, job.end)(o)
  {
    hide ComponentPlan, GeneralEnabled, OrderEntry;
    RealDayIs(o.date);
    if o.snapshot.Some? {
      var s := o.snapshot.value;
      ComponentCounts(OrderEntry(job.id.office, o, SpecialCommission, s.special), s.special, true);
      ComponentCounts(OrderEntry(job.id.office, o, GeneralCommission, s.general), s.general, GeneralEnabled(all, targets, o.beautician, o.date));
      ComponentCounts(OrderEntry(job.id.office, o, UpgradeCommission, s.upgrade), s.upgrade, true);
    }
  }

  lemma MonthsAre(o: OrderSource, office: Id, start: DateKey, end: DateKey)
    ensures OrderMatches(o, office, MonthStart(start), MonthEnd(end)) <==> InMonths(o, office, start, end)
  {
  }

  lemma OrderElsewhere(o: OrderSource, office: Id, start: DateKey, end: DateKey)
    requires !InMonths(o, office, start, end)
    ensures OrderGaps(office, start, end)(o) == 0 && OrderSeen(office, start, end)(o) == 0
  {
  }

  lemma {:induction false} OrdersCount(job: Job, all: seq<OrderSource>, targets: Targets, orders: seq<OrderSource>)
    ensures var p := OrderPlans(job, all, targets, LoadOrders(orders, job.id.office, MonthStart(job.start), MonthEnd(job.end)));
            && p.missing == SumOver(orders, OrderGaps(job.id.office, job.start, job.end))
            && p.scanned == SumOver(orders, OrderSeen(job.id.office, job.start, job.end))
  {
    hide OrderPlan, InMonths, OrderMatches;
    if orders != [] {
      var n := |orders| - 1;
      var before, o := LoadOrders(orders[..n], job.id.office, MonthStart(job.start), MonthEnd(job.end)), orders[n];
      OrdersCount(job, all, targets, orders[..n]);
      MonthsAre(o, job.id.office, job.start, job.end);
      if InMonths(o, job.id.office, job.start, job.end) {
        OrderCounts(job, all, targets, o);
        assert (before + [o])[..|before|] == before;
      } else {
        OrderElsewhere(o, job.id.office, job.start, job.end);
        assert LoadOrders(orders, job.id.office, MonthStart(job.start), MonthEnd(job.end)) == before;
      }
    }
  }

  lemma {:induction false} BonusesCount(job: Job, all: seq<OrderSource>, targets: Targets, bonus: real, workers: seq<Id>)
    ensures var p := BonusPlans(job, all, targets, bonus, workers); p.missing == 0 && p.scanned == 0
  {
    hide BonusEarned;
    if workers != [] {
      BonusesCount(job, all, targets, bonus, workers[..|workers| - 1]);
    }
  }

  // ----- its trips

  lemma PaidIs(t: TripSource)
    ensures TripWorker(t).Some? <==> SomebodyPaid(t)
  {
  }

  lemma TripCounts(job: Job, data: SourceData, rated: bool, t: TripSource)
    requires TripLaws.Taken(t, job.id.office, job.start, job.end)
    ensures var p := TripPlan(job, PricedRow(data, rated, t));
            && p.missing == TripGaps(data, rated, job.id.office, job.start, job.end, job.scope == PetrolOnly)(t) && p.scanned == 1
  {
    hide ComponentPlan, EffectivePayables, TripEntry, SomebodyPaid, TripWorker;
    var r := PricedRow(data, rated, t);
    RealDayIs(t.date);
    PaidIs(r);
    assert SomebodyPaid(r) == SomebodyPaid(t) by { PaidAlike(data, rated, t); }
    var (commission, petrol) := EffectivePayables(r);
    ComponentCounts(TripEntry(job.id.office, r, TripCommission, CommissionBucket, commission), commission, true);
    ComponentCounts(TripEntry(job.id.office, r, Petrol, PetrolBucket, petrol), petrol, true);
  }

  lemma PaidAlike(data: SourceData, rated: bool, t: TripSource)
    ensures SomebodyPaid(PricedRow(data, rated, t)) == SomebodyPaid(t)
  {
  }

  /** The loaded rows are the trips taken, in order, as they are priced. */
  function PricedRows(data: SourceData, rated: bool, trips: seq<TripSource>): (r: seq<TripSource>)
    ensures |r| == |trips| && forall i :: 0 <= i < |r| ==> r[i] == PricedRow(data, rated, trips[i])
  {
    seq(|trips|, i requires 0 <= i < |trips| => PricedRow(data, rated, trips[i]))
  }

  lemma RowsArePriced(data: SourceData, office: Id, start: DateKey, end: DateKey)
    ensures LoadTrips(data, office, start, end) == PricedRows(data, Rated(data, office, start, end), SelectTrips(data.trips, office, start, end))
  {
    hide TripLaws.Taken;
    var rows := SelectTrips(data.trips, office, start, end);
    TripLaws.SelectedAre(data.trips, office, start, end);
    if Rated(data, office, start, end) {
      var u :| u in data.trips && TripLaws.Taken(u, office, start, end) && TripLaws.Lacks(u);
      var i :| 0 <= i < |rows| && rows[i] == u;
      assert NeedsOfficeRates(rows[i]);
    } else {
      forall i | 0 <= i < |rows| ensures !NeedsOfficeRates(rows[i]) {
        assert rows[i] in rows;
      }
    }
  }

  lemma TakenIs(t: TripSource, office: Id, start: DateKey, end: DateKey)
    ensures TripMatches(t, office, start, end) <==> TripLaws.Taken(t, office, start, end)
  {
  }

  lemma TripIsSeen(t: TripSource, office: Id, start: DateKey, end: DateKey)
    requires TripLaws.Taken(t, office, start, end)
    ensures TripSeen(office, start, end)(t) == 1
  {
  }

  lemma TripElsewhere(data: SourceData, rated: bool, t: TripSource, office: Id, start: DateKey, end: DateKey, petrolOnly: bool)
    requires !TripLaws.Taken(t, office, start, end)
    ensures TripGaps(data, rated, office, start, end, petrolOnly)(t) == 0 && TripSeen(office, start, end)(t) == 0
    ensures AuditTripGaps(data, rated, office, start, end)(t) == 0
  {
  }

  lemma {:induction false} TripsCount(job: Job, data: SourceData, rated: bool, trips: seq<TripSource>)
    ensures var p := TripPlans(job, PricedRows(data, rated, SelectTrips(trips, job.id.office, job.start, job.end)));
            && p.missing == SumOver(trips, TripGaps(data, rated, job.id.office, job.start, job.end, job.scope == PetrolOnly))
            && p.scanned == SumOver(trips, TripSeen(job.id.office, job.start, job.end))
  {
    hide TripPlan, PricedRow, TripLaws.Taken, TripMatches;
    if trips != [] {
      var n := |trips| - 1;
      var before, t := SelectTrips(trips[..n], job.id.office, job.start, job.end), trips[n];
      TripsCount(job, data, rated, trips[..n]);
      TakenIs(t, job.id.office, job.start, job.end);
      if TripLaws.Taken(t, job.id.office, job.start, job.end) {
        TripCounts(job, data, rated, t);
        TripIsSeen(t, job.id.office, job.start, job.end);
        var rows := PricedRows(data, rated, before + [t]);
        assert rows[..|before|] == PricedRows(data, rated, before) && rows[|before|] == PricedRow(data, rated, t);
      } else {
        TripElsewhere(data, rated, t, job.id.office, job.start, job.end, job.scope == PetrolOnly);
        assert SelectTrips(trips, job.id.office, job.start, job.end) == before;
      }
    }
  }

  // ----- its boards

  lemma {:induction false} RowsCount(rows: seq<Row>)
    ensures RowPlans(rows).error.None? ==> RowPlans(rows).scanned == |rows| && RowPlans(rows).missing == 0
    ensures RowPlans(rows).error.Some? ==> RowPlans(rows).error == Some(Permanent)
  {
    if rows != [] {
      RowsCount(rows[..|rows| - 1]);
    }
  }

  lemma {:induction false} AwardsCount(job: Job, awards: seq<Award>, types: map<Id, WorkerType>, board: Board, prizes: PrizeSchedule)
    ensures var p := AwardPlans(job, awards, types, board, prizes); p.scanned == 0 && p.missing == 0
  {
    hide AwardEntry, TypeOf;
    if awards != [] {
      AwardsCount(job, awards[..|awards| - 1], types, board, prizes);
    }
  }

  lemma BoardsCount(job: Job, data: SourceData)
    ensures var p := LeaderboardSection(job, data);
            && (p.error.None? ==> p.scanned == |data.beauticians| + |data.riders| && p.missing == 0)
            && (p.error == if BoardsCan(data) then None else Some(Permanent))
  {
    hide RowPlans, BoardAwards, AwardPlans, BoardsCan, ValidPrizes;
    LedgerLaws.BoardsUsableIff(data);
    LeaderboardShape(job, data);
    BoardsCanIs(data);
    RowsCount(data.beauticians);
    RowsCount(RiderRows(data.riders));
    AwardsCount(job, BoardAwards(data.beauticians, data.prizes, BeauticianBoard), map[], BeauticianBoard, data.prizes);
    AwardsCount(job, BoardAwards(RiderRows(data.riders), data.prizes, RiderBoard), RiderTypes(data.riders), RiderBoard, data.prizes);
  }

  // ----- what can be made at all

  lemma TargetRowsOkIs(ts: seq<WorkerTarget>)
    ensures ValidTargets(ts) <==> TargetRowsOk(ts)
  {
    if ValidTargets(ts) {
      forall row | row in ts ensures row.worker != 0 && row.target1 >= 0.0 && row.target2 >= 0.0 {
        var i :| 0 <= i < |ts| && ts[i] == row;
        assert ValidTarget(ts[i]);
      }
    } else {
      var i :| 0 <= i < |ts| && !ValidTarget(ts[i]);
      assert ts[i] in ts;
    }
  }

  /** Commissions need real dates, an office bonus that is not negative and target rows in order. */
  predicate OrdersCan(data: SourceData, start: DateKey, end: DateKey) {
    RealDay(start) && RealDay(end) && data.target2Bonus >= 0.0 && TargetRowsOk(data.targets)
  }

  /** Awards need prizes that are not negative and aggregate rows in order. */
  ghost predicate BoardsCan(data: SourceData) {
    && (forall p :: p in data.prizes.beautician || p in data.prizes.rider ==> p >= 0.0)
    && LedgerLaws.RowsOk(data.beauticians) && LedgerLaws.RowsOk(RiderRows(data.riders))
  }

  lemma BoardsCanIs(data: SourceData)
    ensures BoardsCan(data) <==> BoardsUsable(data)
  {
    hide BoardsUsable, LedgerLaws.RowsOk;
    LedgerLaws.BoardsUsableIff(data);
  }

  lemma OrdersCanIs(job: Job, data: SourceData, workers: seq<Id>)
    ensures OrdersSection(job, data, workers).error == if OrdersCan(data, job.start, job.end) then None else Some(Permanent)
  {
    hide OrderPlans, BonusPlans, ValidTargets, TargetRowsOk;
    RealDayIs(job.start);
    RealDayIs(job.end);
    TargetRowsOkIs(data.targets);
  }

  /** A rebuild fails exactly when its scope needs something that is not in order; without its
      orders it writes nothing at all. */
  lemma RebuildFailsIff(job: Job, data: SourceData, workers: seq<Id>)
    ensures var orders, boards := job.scope == AllEarnings || job.scope == Commissions, job.scope == AllEarnings || job.scope == LeaderboardsOnly;
            var p := RebuildOf(job, data, workers);
            && (p.error == if (orders && !OrdersCan(data, job.start, job.end)) || (boards && !BoardsCan(data)) then Some(Permanent) else None)
            && (orders && !OrdersCan(data, job.start, job.end) ==> p.puts == [])
  {
    hide OrdersSection, LeaderboardSection, TripPlans, OrdersCan, BoardsCan;
    OrdersCanIs(job, data, workers);
    OrdersSectionShape(job, data, workers);
    BoardsCount(job, data);
  }

  lemma ThreeCounts(p: Plan, q: Plan, r: Plan)
    requires Then(Then(p, q), r).error.None?
    ensures p.error.None? && q.error.None? && r.error.None?
    ensures var all := Then(Then(p, q), r);
            all.missing == p.missing + q.missing + r.missing && all.scanned == p.scanned + q.scanned + r.scanned
  {
  }

  lemma TripsPartOnly(job: Job, data: SourceData)
    ensures job.scope == LeaderboardsOnly ==> TripsPart(job, data) == NOTHING
  {
  }

  /** A rebuild that can be made looks at its completed orders and finished trips in range and at the
      aggregate rows, and reports what is missing of each document. */
  lemma RebuildCounts(job: Job, data: SourceData, workers: seq<Id>)
    requires RebuildOf(job, data, workers).error.None?
    ensures var orders, boards := job.scope == AllEarnings || job.scope == Commissions, job.scope == AllEarnings || job.scope == LeaderboardsOnly;
            var rated := Rated(data, job.id.office, job.start, job.end);
            var p := RebuildOf(job, data, workers);
            && p.missing == (if orders then SumOver(data.orders, OrderGaps(job.id.office, job.start, job.end)) else 0)
                            + (if job.scope == LeaderboardsOnly then 0
                               else SumOver(data.trips, TripGaps(data, rated, job.id.office, job.start, job.end, job.scope == PetrolOnly)))
            && p.scanned == (if orders then SumOver(data.orders, OrderSeen(job.id.office, job.start, job.end)) else 0)
                            + (if job.scope == LeaderboardsOnly then 0 else SumOver(data.trips, TripSeen(job.id.office, job.start, job.end)))
                            + (if boards then |data.beauticians| + |data.riders| else 0)
  {
    hide OrdersSection, LeaderboardSection, TripsPart, Then, SumOver, Rated, BoardsCan, OrderGaps, OrderSeen, TripGaps, TripSeen;
    ThreeCounts(OrdersPart(job, data, workers), TripsPart(job, data), BoardsPart(job, data));
    TripsPartOnly(job, data);
    if job.scope == AllEarnings || job.scope == Commissions { OrdersSectionCounts(job, data, workers); }
    if job.scope != LeaderboardsOnly { TripsPartCounts(job, data); }
    BoardsCount(job, data);
  }

  lemma OrdersSectionCounts(job: Job, data: SourceData, workers: seq<Id>)
    requires OrdersSection(job, data, workers).error.None?
    ensures var p := OrdersSection(job, data, workers);
            && p.missing == SumOver(data.orders, OrderGaps(job.id.office, job.start, job.end))
            && p.scanned == SumOver(data.orders, OrderSeen(job.id.office, job.start, job.end))
  {
    hide OrderPlans, BonusPlans, ValidTargets, SumOver, OrderGaps, OrderSeen, TargetMap, LoadOrders;
    var all, targets := LoadOrders(data.orders, job.id.office, MonthStart(job.start), MonthEnd(job.end)), TargetMap(data.targets);
    OrdersCount(job, all, targets, data.orders);
    BonusesCount(job, all, targets, data.target2Bonus, workers);
  }

  lemma TripsPartCounts(job: Job, data: SourceData)
    requires job.scope != LeaderboardsOnly
    ensures var p, rated := TripsPart(job, data), Rated(data, job.id.office, job.start, job.end);
            && p.missing == SumOver(data.trips, TripGaps(data, rated, job.id.office, job.start, job.end, job.scope == PetrolOnly))
            && p.scanned == SumOver(data.trips, TripSeen(job.id.office, job.start, job.end))
  {
    hide TripPlans, LoadTrips, SumOver, Rated, TripGaps, TripSeen;
    RowsArePriced(data, job.id.office, job.start, job.end);
    TripsCount(job, data, Rated(data, job.id.office, job.start, job.end), data.trips);
  }

  // ----- the audit

  /** An audit misses an order's ids, real date or snapshot, or each amount of it. */
  function AuditGaps(office: Id, start: DateKey, end: DateKey): OrderSource -> nat {
    (o: OrderSource) =>
      if o.office != office || !o.completed || o.deleted || !InRange(o.date, start, end) then 0
      else if o.id == 0 || o.beautician == 0 || !RealDay(o.date) || o.snapshot.None? then 1
      else CommissionGaps(o.snapshot.value)
  }

  /** And of a trip somebody is paid for its real date or snapshot, or each payable. */
  function AuditTripGaps(data: SourceData, rated: bool, office: Id, start: DateKey, end: DateKey): TripSource -> nat {
    (t: TripSource) =>
      if !TripLaws.Taken(t, office, start, end) || !SomebodyPaid(t) then 0
      else if t.snapshot.None? || !RealDay(t.date) then 1
      else Gap(EffectivePayables(PricedRow(data, rated, t)).0) + Gap(EffectivePayables(PricedRow(data, rated, t)).1)
  }

  lemma AuditUsableIff(data: SourceData, start: DateKey, end: DateKey)
    ensures AuditUsable(data, start, end) <==> OrdersCan(data, start, end) && BoardsCan(data)
  {
    hide ValidTargets, TargetRowsOk, BoardsCan, RowPlans, ValidPrizes;
    RealDayIs(start);
    RealDayIs(end);
    TargetRowsOkIs(data.targets);
    BoardsCanIs(data);
  }

  lemma ItemCounts(key: AuditKey, amount: Option<real>, enabled: bool)
    ensures Item(key, amount, enabled).missing == Gap(amount)
  {
  }

  lemma ExpectedOrderCounts(all: seq<OrderSource>, targets: Targets, office: Id, start: DateKey, end: DateKey, o: OrderSource)
    requires ValidDate(start) && ValidDate(end)
    ensures AuditGaps(office, start, end)(o)
         == if OrderMatches(o, office, MonthStart(start), MonthEnd(end)) then ExpectedOrder(all, targets, start, end, o).missing else 0
  {
    hide Item, AuditGeneralEnabled, OrderKey;
    RealDayIs(o.date);
    if o.snapshot.Some? {
      var s := o.snapshot.value;
      ItemCounts(OrderKey(o, SpecialCommission), s.special, true);
      ItemCounts(OrderKey(o, GeneralCommission), s.general, AuditGeneralEnabled(all, targets, o));
      ItemCounts(OrderKey(o, UpgradeCommission), s.upgrade, true);
    }
  }

  lemma {:induction false} ExpectedOrdersCount(all: seq<OrderSource>, targets: Targets, office: Id, start: DateKey, end: DateKey, orders: seq<OrderSource>)
    requires ValidDate(start) && ValidDate(end)
    ensures ExpectedOrders(all, targets, start, end, LoadOrders(orders, office, MonthStart(start), MonthEnd(end))).missing
         == SumOver(orders, AuditGaps(office, start, end))
  {
    hide ExpectedOrder, OrderMatches, ValidDate;
    if orders != [] {
      var n := |orders| - 1;
      var before, o := LoadOrders(orders[..n], office, MonthStart(start), MonthEnd(end)), orders[n];
      ExpectedOrdersCount(all, targets, office, start, end, orders[..n]);
      ExpectedOrderCounts(all, targets, office, start, end, o);
      if OrderMatches(o, office, MonthStart(start), MonthEnd(end)) {
        assert (before + [o])[..|before|] == before;
      } else {
        assert LoadOrders(orders, office, MonthStart(start), MonthEnd(end)) == before;
      }
    }
  }

  lemma {:induction false} ExpectedBonusesCount(all: seq<OrderSource>, targets: Targets, end: DateKey, bonus: real, workers: seq<Id>)
    ensures ExpectedBonuses(all, targets, end, bonus, workers).missing == 0
  {
    hide AuditBonusEarned;
    if workers != [] {
      ExpectedBonusesCount(all, targets, end, bonus, workers[..|workers| - 1]);
    }
  }

  lemma ExpectedTripCounts(data: SourceData, rated: bool, office: Id, start: DateKey, end: DateKey, t: TripSource)
    requires TripLaws.Taken(t, office, start, end)
    ensures ExpectedTrip(start, end, PricedRow(data, rated, t)).missing == AuditTripGaps(data, rated, office, start, end)(t)
  {
    hide Item, EffectivePayables;
    RealDayIs(t.date);
    var r := PricedRow(data, rated, t);
    if SomebodyPaid(t) && t.snapshot.Some? {
      var (worker, workerType) := TripWorker(r).value;
      ItemCounts(AuditKey(worker, workerType, TripScope, TripCommission, CommissionBucket), EffectivePayables(r).0, true);
      ItemCounts(AuditKey(worker, workerType, TripScope, Petrol, PetrolBucket), EffectivePayables(r).1, true);
    }
  }

  lemma {:induction false} ExpectedTripsCount(data: SourceData, rated: bool, office: Id, start: DateKey, end: DateKey, trips: seq<TripSource>)
    ensures ExpectedTrips(start, end, PricedRows(data, rated, SelectTrips(trips, office, start, end))).missing
         == SumOver(trips, AuditTripGaps(data, rated, office, start, end))
  {
    hide ExpectedTrip, PricedRow, TripLaws.Taken, TripMatches;
    if trips != [] {
      var n := |trips| - 1;
      var before, t := SelectTrips(trips[..n], office, start, end), trips[n];
      ExpectedTripsCount(data, rated, office, start, end, trips[..n]);
      TakenIs(t, office, start, end);
      if TripLaws.Taken(t, office, start, end) {
        ExpectedTripCounts(data, rated, office, start, end, t);
        var rows := PricedRows(data, rated, before + [t]);
        assert rows[..|before|] == PricedRows(data, rated, before) && rows[|before|] == PricedRow(data, rated, t);
      } else {
        TripElsewhere(data, rated, t, office, start, end, false);
        assert SelectTrips(trips, office, start, end) == before;
      }
    }
  }

  lemma {:induction false} ExpectedAwardsCount(awards: seq<Award>, types: map<Id, WorkerType>, board: Board)
    ensures ExpectedAwards(awards, types, board).missing == 0
  {
    if awards != [] {
      ExpectedAwardsCount(awards[..|awards| - 1], types, board);
    }
  }

  /** An audit can be made exactly when a full rebuild can, and misses nothing but what is missing of
      its orders and trips. */
  lemma AuditMisses(data: SourceData, office: Id, start: DateKey, end: DateKey, order: seq<Id>)
    ensures var x := ExpectedOf(data, office, start, end, order);
            && (x.Some? <==> OrdersCan(data, start, end) && BoardsCan(data))
            && (x.Some? ==> x.value.missing == SumOver(data.orders, AuditGaps(office, start, end))
                                               + SumOver(data.trips, AuditTripGaps(data, Rated(data, office, start, end), office, start, end)))
  {
    hide ExpectedOrders, ExpectedBonuses, ExpectedTrips, ExpectedAwards, LoadTrips, SumOver, Rated, AuditUsable, OrdersCan, BoardsCan, BoardAwards;
    AuditUsableIff(data, start, end);
    if AuditUsable(data, start, end) {
      UsableDatesAre(data, start, end);
      var all, targets := LoadOrders(data.orders, office, MonthStart(start), MonthEnd(end)), TargetMap(data.targets);
      ExpectedOrdersCount(all, targets, office, start, end, data.orders);
      ExpectedBonusesCount(all, targets, end, data.target2Bonus, order);
      RowsArePriced(data, office, start, end);
      ExpectedTripsCount(data, Rated(data, office, start, end), office, start, end, data.trips);
      ExpectedAwardsCount(BoardAwards(data.beauticians, data.prizes, BeauticianBoard), map[], BeauticianBoard);
      ExpectedAwardsCount(BoardAwards(RiderRows(data.riders), data.prizes, RiderBoard), RiderTypes(data.riders), RiderBoard);
    }
  }

  lemma UsableDatesAre(data: SourceData, start: DateKey, end: DateKey)
    requires AuditUsable(data, start, end)
    ensures ValidDate(start) && ValidDate(end)
  {
  }
}
