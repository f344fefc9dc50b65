/** What order commissions and target bonuses are, read off the documents themselves: the target
    rows, the orders' dates, costs and amounts. The rebuild, an order event and the audit are each
    held to the same rule, so agreeing with one another is not enough. */
module OrderLaws {
  import opened Wrappers
  import opened Dates
  import opened Money
  import opened Ranking
  import opened Ledger
  import opened SourcePuts
  import opened Sources
  import opened Plans
  import opened ControlPlane
  import opened RebuildPlan
  import opened RebuildFacts
  import opened EventPlan
  import opened AuditPlan
  import opened Audit
  import opened Convergence

  // ----- the rule

  ghost predicate IsLastRow(ts: seq<WorkerTarget>, w: Id, i: nat) {
    i < |ts| && ts[i].worker == w && forall j :: i < j < |ts| ==> ts[j].worker != w
  }

  /** The day commissions apply from: as configured, else since joining, else since the row was
      created, else `1970-01-01`. */
  predicate AppliesFrom(row: WorkerTarget, from: DateKey) {
    && (row.applicableFrom.Some? ==> from == row.applicableFrom.value)
    && (row.applicableFrom.None? && row.joined.Some? ==> from == row.joined.value)
    && (row.applicableFrom.None? && row.joined.None? && row.created.Some? ==> from == row.created.value)
    && (row.applicableFrom.None? && row.joined.None? && row.created.None? ==> from == DateKey(23640, 1))
  }

  /** A worker's terms are those of the last target row; without one both targets are zero. */
  ghost predicate TermsOf(ts: seq<WorkerTarget>, w: Id, target1: real, target2: real, from: Option<DateKey>) {
    if exists i: nat :: IsLastRow(ts, w, i)
    then exists i: nat :: IsLastRow(ts, w, i) && target1 == ts[i].target1 && target2 == ts[i].target2
                          && from.Some? && AppliesFrom(ts[i], from.value)
    else target1 == 0.0 && target2 == 0.0 && from == None
  }

  predicate NotBefore(d: DateKey, from: DateKey) {
    d.month > from.month || (d.month == from.month && d.day >= from.day)
  }

  predicate Reached(d: DateKey, from: Option<DateKey>) {
    from.None? || NotBefore(d, from.value)
  }

  /** The order counts towards the worker's month. */
  predicate CountsAt(o: OrderSource, office: Id, w: Id, month: int, from: Option<DateKey>, low: DateKey, high: DateKey) {
    && o.office == office && o.beautician == w && o.completed && !o.deleted
    && o.date.month == month && NotBefore(o.date, low) && NotBefore(high, o.date) && Reached(o.date, from)
  }

  predicate CostGiven(o: OrderSource) {
    o.snapshot.Some? && o.snapshot.value.orderCost.Some? && o.snapshot.value.orderCost.value >= 0.0
  }

  /** The month's revenue: the order costs of what counts. */
  function CostSum(orders: seq<OrderSource>, office: Id, w: Id, month: int, from: Option<DateKey>, low: DateKey, high: DateKey): real {
    if orders == [] then 0.0
    else
      var o := orders[|orders| - 1];
      CostSum(orders[..|orders| - 1], office, w, month, from, low, high)
      + if CountsAt(o, office, w, month, from, low, high) && CostGiven(o) then o.snapshot.value.orderCost.value else 0.0
  }

  predicate CostsGiven(orders: seq<OrderSource>, office: Id, w: Id, month: int, from: Option<DateKey>, low: DateKey, high: DateKey) {
    forall o :: o in orders && CountsAt(o, office, w, month, from, low, high) ==> CostGiven(o)
  }

  /** General commission is due before the terms apply, and afterwards once the month's known
      revenue reaches the first target. */
  predicate GeneralIsDue(orders: seq<OrderSource>, office: Id, w: Id, date: DateKey, target1: real, from: Option<DateKey>, low: DateKey, high: DateKey) {
    !Reached(date, from)
    || (CostsGiven(orders, office, w, date.month, from, low, high) && CostSum(orders, office, w, date.month, from, low, high) >= target1)
  }

  /** The bonus is due once it reaches a positive second target. */
  predicate BonusIsDue(orders: seq<OrderSource>, office: Id, w: Id, month: int, target2: real, from: Option<DateKey>, low: DateKey, high: DateKey) {
    target2 > 0.0 && CostsGiven(orders, office, w, month, from, low, high) && CostSum(orders, office, w, month, from, low, high) >= target2
  }

  /** The amount a component pays and whether anything decides it. */
  predicate Amounts(o: OrderSource, c: Component, amount: Option<real>) {
    && o.snapshot.Some?
    && (c == SpecialCommission ==> amount == o.snapshot.value.special)
    && (c == GeneralCommission ==> amount == o.snapshot.value.general)
    && (c == UpgradeCommission ==> amount == o.snapshot.value.upgrade)
  }

  /** The ledger entry of an order's component. */
  predicate ShowsOrder(e: Entry, o: OrderSource, c: Component, rupees: real) {
    && e.worker == o.beautician && e.workerType == Beautician && e.date == o.date
    && e.component == c && e.bucket == CommissionBucket && NearestPaise(e.amount, rupees)
    && (o.snapshot.Some? && o.snapshot.value.isPaid ==> e.settled == e.amount && e.status == Settled)
    && (o.snapshot.Some? && !o.snapshot.value.isPaid ==> e.settled == 0 && e.status == Open)
    && e.sourceType == Orders && e.sourceId == Some(o.id) && e.version == 1 && e.configuration == NoConfiguration
  }

  // ----- the helpers say the same

  lemma {:induction false} MapHoldsLast(ts: seq<WorkerTarget>, w: Id)
    ensures w in TargetMap(ts) <==> exists i: nat :: IsLastRow(ts, w, i)
    ensures forall i: nat :: IsLastRow(ts, w, i) ==> w in TargetMap(ts) && TargetMap(ts)[w] == ts[i]
  {
    if ts != [] {
      var n := |ts| - 1;
      MapHoldsLast(ts[..n], w);
      if ts[n].worker == w {
        assert IsLastRow(ts, w, n);
      } else {
        forall i: nat ensures IsLastRow(ts, w, i) <==> IsLastRow(ts[..n], w, i) {
          if IsLastRow(ts[..n], w, i) {
            assert forall j :: i < j < n ==> ts[..n][j] == ts[j];
          }
          if IsLastRow(ts, w, i) {
            assert forall j :: i < j < n ==> ts[..n][j] == ts[j];
          }
        }
      }
    }
  }

  lemma TermsAre(ts: seq<WorkerTarget>, w: Id, target1: real, target2: real, from: Option<DateKey>)
    requires TermsOf(ts, w, target1, target2, from)
    ensures Target1(TargetMap(ts), w) == target1 && Target2(TargetMap(ts), w) == target2
    ensures forall d: DateKey :: BeforeCutoff(TargetMap(ts), w, d) <==> !Reached(d, from)
    ensures w in TargetMap(ts) <==> from.Some?
    ensures w in TargetMap(ts) ==> from == Some(ApplicableFrom(TargetMap(ts)[w]))
  {
    MapHoldsLast(ts, w);
  }

  lemma {:induction false} MonthIs(orders: seq<OrderSource>, office: Id, ts: seq<WorkerTarget>, w: Id, month: int,
                                   target1: real, target2: real, from: Option<DateKey>, low: DateKey, high: DateKey)
    requires TermsOf(ts, w, target1, target2, from)
    ensures var all, targets := LoadOrders(orders, office, low, high), TargetMap(ts);
            && Revenue(all, targets, w, month) == CostSum(orders, office, w, month, from, low, high)
            && (MonthInvalid(all, targets, w, month) <==> !CostsGiven(orders, office, w, month, from, low, high))
  {
    hide TermsOf, CountsFor, CountsAt, CostGiven, OrderMatches, TargetMap, CostsGiven;
    if orders != [] {
      var n := |orders| - 1;
      var init, o := orders[..n], orders[n];
      var before := LoadOrders(init, office, low, high);
      MonthIs(init, office, ts, w, month, target1, target2, from, low, high);
      CountsAlike(o, office, ts, w, month, target1, target2, from, low, high);
      CostsGivenSnoc(init, o, office, w, month, from, low, high);
      assert init + [o] == orders;
      if OrderMatches(o, office, low, high) {
        assert LoadOrders(orders, office, low, high) == before + [o];
        MonthSnoc(before, o, TargetMap(ts), w, month);
      } else {
        assert LoadOrders(orders, office, low, high) == before;
      }
    } else {
      NoCosts(office, w, month, from, low, high);
    }
  }

  lemma NoCosts(office: Id, w: Id, month: int, from: Option<DateKey>, low: DateKey, high: DateKey)
    ensures CostsGiven([], office, w, month, from, low, high)
  {
  }

  lemma MonthSnoc(all: seq<OrderSource>, o: OrderSource, targets: Targets, w: Id, month: int)
    ensures Revenue(all + [o], targets, w, month)
         == Revenue(all, targets, w, month) + if CountsFor(o, targets, w, month) && CostKnown(o) then o.snapshot.value.orderCost.value else 0.0
    ensures MonthInvalid(all + [o], targets, w, month) <==> MonthInvalid(all, targets, w, month) || (CountsFor(o, targets, w, month) && !CostKnown(o))
  {
    assert (all + [o])[..|all|] == all;
  }

  lemma CountsAlike(o: OrderSource, office: Id, ts: seq<WorkerTarget>, w: Id, month: int,
                    target1: real, target2: real, from: Option<DateKey>, low: DateKey, high: DateKey)
    requires TermsOf(ts, w, target1, target2, from)
    ensures OrderMatches(o, office, low, high) && CountsFor(o, TargetMap(ts), w, month) <==> CountsAt(o, office, w, month, from, low, high)
    ensures CostKnown(o) <==> CostGiven(o)
  {
    TermsAre(ts, w, target1, target2, from);
  }

  lemma CostsGivenSnoc(init: seq<OrderSource>, o: OrderSource, office: Id, w: Id, month: int, from: Option<DateKey>, low: DateKey, high: DateKey)
    ensures CostsGiven(init + [o], office, w, month, from, low, high)
            <==> CostsGiven(init, office, w, month, from, low, high) && (CountsAt(o, office, w, month, from, low, high) ==> CostGiven(o))
  {
    assert o in init + [o] && forall p :: p in init ==> p in init + [o];
  }

  lemma GeneralIs(orders: seq<OrderSource>, office: Id, ts: seq<WorkerTarget>, w: Id, date: DateKey,
                  target1: real, target2: real, from: Option<DateKey>, low: DateKey, high: DateKey)
    requires TermsOf(ts, w, target1, target2, from)
    ensures GeneralEnabled(LoadOrders(orders, office, low, high), TargetMap(ts), w, date)
            <==> GeneralIsDue(orders, office, w, date, target1, from, low, high)
    ensures BonusEarned(LoadOrders(orders, office, low, high), TargetMap(ts), w, date.month)
            <==> BonusIsDue(orders, office, w, date.month, target2, from, low, high)
  {
    TermsAre(ts, w, target1, target2, from);
    MonthIs(orders, office, ts, w, date.month, target1, target2, from, low, high);
  }

  lemma EntryShows(office: Id, o: OrderSource, c: Component, amount: Option<real>)
    requires OrderComponent(c) && Amounts(o, c, amount) && amount.Some? && amount.value >= 0.0
    ensures var e := EntryOf(office, o, c); ShowsOrder(e, o, c, amount.value) && e.id == EntryKey(office, SourceKey(Orders, o.id, c))
  {
    PaiseAreNearest(amount.value);
  }

  // ----- the rebuild

  /** A rebuild that gets through its orders holds an order's component exactly when its amount is
      positive and, for general commission, the rule makes it due. */
  lemma RebuildPaysOrderIff(job: Job, data: SourceData, workers: seq<Id>, o: OrderSource, c: Component, amount: Option<real>,
                            target1: real, target2: real, from: Option<DateKey>)
    requires (job.scope == AllEarnings || job.scope == Commissions) && OrdersPart(job, data, workers).error.None?
    requires DistinctOrders(data.orders) && o in data.orders && TermsOf(data.targets, o.beautician, target1, target2, from)
    requires o.office == job.id.office && o.completed && !o.deleted && ValidDate(o.date)
    requires NotBefore(o.date, job.start) && NotBefore(job.end, o.date) && OrderComponent(c) && Amounts(o, c, amount)
    ensures var key, low, high := EntryKey(job.id.office, SourceKey(Orders, o.id, c)), DateKey(job.start.month, 1), MonthEnd(job.end);
            var es := RebuildOf(job, data, workers).puts;
            && ((exists e :: e in es && e.id == key) <==>
                  amount.Some? && amount.value > 0.0
                  && (c == GeneralCommission ==> GeneralIsDue(data.orders, o.office, o.beautician, o.date, target1, from, low, high)))
            && (forall e :: e in es && e.id == key ==> amount.Some? && ShowsOrder(e, o, c, amount.value))
  {
    var low, high := DateKey(job.start.month, 1), MonthEnd(job.end);
    var all, targets := LoadOrders(data.orders, job.id.office, low, high), TargetMap(data.targets);
    RebuildOrderWrites(job, data, workers, o, c);
    GeneralIs(data.orders, o.office, data.targets, o.beautician, o.date, target1, target2, from, low, high);
    if amount.Some? && amount.value > 0.0 {
      EntryShows(job.id.office, o, c, amount);
    }
  }

  lemma RebuildOrderWrites(job: Job, data: SourceData, workers: seq<Id>, o: OrderSource, c: Component)
    requires (job.scope == AllEarnings || job.scope == Commissions) && OrdersPart(job, data, workers).error.None?
    requires DistinctOrders(data.orders) && o in data.orders && OrderComponent(c)
    requires o.office == job.id.office && o.completed && !o.deleted && ValidDate(o.date) && Within(o.date, job.start, job.end)
    ensures var all := LoadOrders(data.orders, job.id.office, DateKey(job.start.month, 1), MonthEnd(job.end));
            var es := RebuildOf(job, data, workers).puts;
            forall e: Entry :: e.id == EntryKey(job.id.office, SourceKey(Orders, o.id, c)) ==>
              (e in es <==> RebuildWrite(job, all, TargetMap(data.targets), o, c) && e == EntryOf(job.id.office, o, c))
  {
    hide RebuildWrite, OrdersSection, BoardsPart, OrderPlans, BonusPlans, EntryOf;
    var all, targets := LoadOrders(data.orders, job.id.office, DateKey(job.start.month, 1), MonthEnd(job.end)), TargetMap(data.targets);
    var es := RebuildOf(job, data, workers).puts;
    OrdersSectionShape(job, data, workers);
    ThreeParts(OrdersPart(job, data, workers), TripsPart(job, data), BoardsPart(job, data));
    PartsKeys(job, data, workers);
    InItsMonth(data.orders, job, o);
    forall e: Entry | e.id == EntryKey(job.id.office, SourceKey(Orders, o.id, c))
      ensures e in es <==> RebuildWrite(job, all, targets, o, c) && e == EntryOf(job.id.office, o, c)
    {
      OrderPlansWrite(job, all, targets, all, e);
      BonusPlansWrite(job, all, targets, data.target2Bonus, workers, e);
      if p, k :| p in all && RebuildWrite(job, all, targets, p, k) && e == EntryOf(job.id.office, p, k) {
        WriteKey(job, all, targets, p, k);
        LoadedOrders(data.orders, job.id.office, DateKey(job.start.month, 1), MonthEnd(job.end), p);
        SameOrder(data.orders, o, p);
      }
    }
  }

  lemma WriteKey(job: Job, all: seq<OrderSource>, targets: Targets, o: OrderSource, k: Component)
    requires RebuildWrite(job, all, targets, o, k)
    ensures EntryOf(job.id.office, o, k).id == EntryKey(job.id.office, SourceKey(Orders, o.id, k))
  {
  }

  lemma InItsMonth(orders: seq<OrderSource>, job: Job, o: OrderSource)
    requires o in orders && o.office == job.id.office && o.completed && !o.deleted && ValidDate(o.date) && Within(o.date, job.start, job.end)
    ensures o in LoadOrders(orders, job.id.office, DateKey(job.start.month, 1), MonthEnd(job.end))
  {
    LoadedOrders(orders, job.id.office, DateKey(job.start.month, 1), MonthEnd(job.end), o);
  }

  /** The ledger entry of a worker's bonus for a month. */
  predicate ShowsBonus(e: Entry, w: Id, month: int, target2: real, revenue: real, bonus: real) {
    && e.worker == w && e.workerType == Beautician && e.date.month == month && ValidDate(e.date) && !ValidDate(e.date.(day := e.date.day + 1))
    && e.component == TargetBonus && e.bucket == CommissionBucket && NearestPaise(e.amount, bonus)
    && e.settled == 0 && e.status == Open && e.sourceType == Targets && e.sourceId == None && e.version == 1
    && e.configuration == TargetConfiguration(month, target2, revenue, bonus)
  }

  lemma BonusShows(office: Id, w: Id, date: DateKey, target2: real, revenue: real, bonus: real)
    requires bonus >= 0.0
    ensures var e := BonusEntry(office, w, date, target2, revenue, bonus);
            ShowsBonus(e, w, date.month, target2, revenue, bonus) && e.id == EntryKey(office, TargetKey(w, date.month))
  {
    PaiseAreNearest(bonus);
  }

  /** It holds a worker's bonus, for the month the range ends in, exactly when the rule makes it
      due and the office pays one. */
  lemma RebuildPaysBonusIff(job: Job, data: SourceData, workers: seq<Id>, w: Id, target1: real, target2: real, from: Option<DateKey>)
    requires (job.scope == AllEarnings || job.scope == Commissions) && OrdersPart(job, data, workers).error.None?
    requires IsIteration(workers, TargetMap(data.targets)) && TermsOf(data.targets, w, target1, target2, from)
    ensures var key, low, high := EntryKey(job.id.office, TargetKey(w, job.end.month)), DateKey(job.start.month, 1), MonthEnd(job.end);
            var es := RebuildOf(job, data, workers).puts;
            && ((exists e :: e in es && e.id == key) <==>
                  data.target2Bonus > 0.0 && BonusIsDue(data.orders, job.id.office, w, job.end.month, target2, from, low, high))
            && (forall e :: e in es && e.id == key ==>
                  ShowsBonus(e, w, job.end.month, target2, CostSum(data.orders, job.id.office, w, job.end.month, from, low, high), data.target2Bonus))
  {
    hide RebuildOf, BonusIsDue, ShowsBonus, TermsOf, BonusEarned, CostSum, Revenue;
    var low, high := DateKey(job.start.month, 1), MonthEnd(job.end);
    var all, targets := LoadOrders(data.orders, job.id.office, low, high), TargetMap(data.targets);
    var revenue, es := Revenue(all, targets, w, job.end.month), RebuildOf(job, data, workers).puts;
    RebuildBonusWrites(job, data, workers, w);
    GeneralIs(data.orders, job.id.office, data.targets, w, job.end, target1, target2, from, low, high);
    MonthIs(data.orders, job.id.office, data.targets, w, job.end.month, target1, target2, from, low, high);
    TermsAre(data.targets, w, target1, target2, from);
    OrdersPartBonus(job, data, workers);
    BonusShows(job.id.office, w, job.end, target2, revenue, data.target2Bonus);
  }

  lemma OrdersPartBonus(job: Job, data: SourceData, workers: seq<Id>)
    requires (job.scope == AllEarnings || job.scope == Commissions) && OrdersPart(job, data, workers).error.None?
    ensures data.target2Bonus >= 0.0
  {
    OrdersSectionShape(job, data, workers);
  }

  lemma RebuildBonusWrites(job: Job, data: SourceData, workers: seq<Id>, w: Id)
    requires (job.scope == AllEarnings || job.scope == Commissions) && OrdersPart(job, data, workers).error.None?
    requires IsIteration(workers, TargetMap(data.targets))
    ensures var all, targets := LoadOrders(data.orders, job.id.office, DateKey(job.start.month, 1), MonthEnd(job.end)), TargetMap(data.targets);
            var es := RebuildOf(job, data, workers).puts;
            forall e: Entry :: e.id == EntryKey(job.id.office, TargetKey(w, job.end.month)) ==>
              (e in es <==> data.target2Bonus != 0.0 && BonusEarned(all, targets, w, job.end.month)
                            && e == BonusEntry(job.id.office, w, job.end, Target2(targets, w), Revenue(all, targets, w, job.end.month), data.target2Bonus))
  {
    hide OrdersSection, BoardsPart, OrderPlans, BonusPlans, Revenue, MonthInvalid;
    var all, targets := LoadOrders(data.orders, job.id.office, DateKey(job.start.month, 1), MonthEnd(job.end)), TargetMap(data.targets);
    var es := RebuildOf(job, data, workers).puts;
    OrdersSectionShape(job, data, workers);
    ThreeParts(OrdersPart(job, data, workers), TripsPart(job, data), BoardsPart(job, data));
    PartsKeys(job, data, workers);
    forall e: Entry | e.id == EntryKey(job.id.office, TargetKey(w, job.end.month))
      ensures e in es <==> data.target2Bonus != 0.0 && BonusEarned(all, targets, w, job.end.month)
                           && e == BonusEntry(job.id.office, w, job.end, Target2(targets, w), Revenue(all, targets, w, job.end.month), data.target2Bonus)
    {
      OrderPlansWrite(job, all, targets, all, e);
      BonusPlansWrite(job, all, targets, data.target2Bonus, workers, e);
    }
  }

  // ----- an order event

  /** Without a target row an event takes `1970-01-01` as the day the terms apply from. */
  function EventFrom(from: Option<DateKey>): DateKey {
    if from.Some? then from.value else DateKey(23640, 1)
  }

  lemma EventSnoc(all: seq<OrderSource>, o: OrderSource, w: Id, month: int, cutoff: DateKey)
    ensures var r, r' := EventRevenue(all, w, month, cutoff), EventRevenue(all + [o], w, month, cutoff);
            && (r'.Some? <==> r.Some? && (EventCounts(o, w, month, cutoff) ==> CostKnown(o)))
            && (r'.Some? ==> r'.value == r.value + if EventCounts(o, w, month, cutoff) then o.snapshot.value.orderCost.value else 0.0)
  {
    assert (all + [o])[..|all|] == all;
  }

  lemma {:induction false} EventMonthIs(orders: seq<OrderSource>, office: Id, w: Id, month: int, cutoff: DateKey, low: DateKey, high: DateKey)
    ensures var r := EventRevenue(LoadOrders(orders, office, low, high), w, month, cutoff);
            && (r.Some? <==> CostsGiven(orders, office, w, month, Some(cutoff), low, high))
            && (r.Some? ==> r.value == CostSum(orders, office, w, month, Some(cutoff), low, high))
  {
    hide CountsAt, CostGiven, OrderMatches, CostsGiven, EventCounts;
    if orders != [] {
      var n := |orders| - 1;
      var init, o := orders[..n], orders[n];
      var before := LoadOrders(init, office, low, high);
      EventMonthIs(init, office, w, month, cutoff, low, high);
      EventCountsAlike(o, office, w, month, cutoff, low, high);
      CostsGivenSnoc(init, o, office, w, month, Some(cutoff), low, high);
      assert init + [o] == orders;
      if OrderMatches(o, office, low, high) {
        assert LoadOrders(orders, office, low, high) == before + [o];
        EventSnoc(before, o, w, month, cutoff);
      } else {
        assert LoadOrders(orders, office, low, high) == before;
      }
    } else {
      NoCosts(office, w, month, Some(cutoff), low, high);
    }
  }

  lemma EventCountsAlike(o: OrderSource, office: Id, w: Id, month: int, cutoff: DateKey, low: DateKey, high: DateKey)
    ensures OrderMatches(o, office, low, high) && EventCounts(o, w, month, cutoff) <==> CountsAt(o, office, w, month, Some(cutoff), low, high)
    ensures CostKnown(o) <==> CostGiven(o)
  {
  }

  /** The event announces the stored, completed order `a` of an open day. */
  ghost predicate Reports(data: SourceData, periods: set<Period>, ev: SourceEvent, a: OrderSource) {
    && a in data.orders && DistinctOrders(data.orders) && Announces(ev, a) && a.completed && !a.deleted && ValidDate(a.date)
    && !ClosedPeriodOverlap(periods, a.office, a.date, a.date)
  }

  predicate TargetRowsOk(ts: seq<WorkerTarget>) {
    forall row :: row in ts ==> row.worker != NIL_ID && row.target1 >= 0.0 && row.target2 >= 0.0
  }

  /** What an accepted event of order `a` works with. */
  ghost predicate Accepts(data: SourceData, periods: set<Period>, ev: SourceEvent, a: OrderSource) {
    Reports(data, periods, ev, a) && TargetRowsOk(data.targets) && data.target2Bonus >= 0.0
  }

  lemma AcceptedPlan(data: SourceData, periods: set<Period>, ev: SourceEvent, a: OrderSource)
    requires Reports(data, periods, ev, a) && TargetRowsOk(data.targets)
    ensures var all := LoadOrders(data.orders, a.office, DateKey(a.date.month, 1), MonthEnd(a.date));
            EventPlanOf(data, periods, ev)
            == AcceptedOrderPlan(ev, a, ContextOf(data, a.office, a.beautician, a.date, all), all, data.target2Bonus)
  {
    hide AcceptedOrderPlan, ContextOf, ClosedPeriodOverlap;
    FindsOrder(data.orders, a);
  }

  lemma {:induction false} GeneralHolds(c: MonthContext, orders: seq<OrderSource>, o: OrderSource, e: Entry)
    requires DistinctOrders(orders) && o in orders && InMonth(o, c) && o.id != NIL_ID && ValidDate(o.date) && o.snapshot.Some?
    requires e.id == EntryKey(c.office, SourceKey(Orders, o.id, GeneralCommission))
    ensures e in EventGeneralPlans(c, orders).puts
            <==> EventGeneralEnabled(c, o.date) && Earns(o, GeneralCommission) && e == EntryOf(c.office, o, GeneralCommission)
  {
    hide EventGeneralEnabled, MoneyToPaise;
    var n := |orders| - 1;
    var init, last := orders[..n], orders[n];
    assert forall i :: 0 <= i < n ==> init[i] == orders[i];
    ThenPuts(EventGeneralPlans(c, init), EventGeneralPlan(c, last));
    if last == o {
      forall p | p in init ensures p.id != o.id {
        var i :| 0 <= i < n && init[i] == p;
      }
      if e in EventGeneralPlans(c, init).puts {
        GeneralFromOne(c, init, e);
      }
    } else {
      assert o in init;
      GeneralHolds(c, init, o, e);
      var i :| 0 <= i < n && orders[i] == o;
    }
  }

  lemma {:induction false} GeneralFromOne(c: MonthContext, orders: seq<OrderSource>, e: Entry)
    requires e in EventGeneralPlans(c, orders).puts
    ensures exists p :: p in orders && e.id == EntryKey(c.office, SourceKey(Orders, p.id, GeneralCommission))
  {
    var init, last := orders[..|orders| - 1], orders[|orders| - 1];
    if e in EventGeneralPlans(c, init).puts {
      GeneralFromOne(c, init, e);
      var p :| p in init && e.id == EntryKey(c.office, SourceKey(Orders, p.id, GeneralCommission));
      assert p in orders;
    } else {
      assert last in orders;
    }
  }

  /** The month's costs settle what the event may pay, or do not matter to it yet. */
  predicate CostsSuffice(orders: seq<OrderSource>, a: OrderSource, from: DateKey) {
    !NotBefore(a.date, from)
    || CostsGiven(orders, a.office, a.beautician, a.date.month, Some(from), DateKey(a.date.month, 1), MonthEnd(a.date))
  }

  lemma AcceptedShape(ev: SourceEvent, a: OrderSource, c: MonthContext, all: seq<OrderSource>, bonus: real)
    requires a.snapshot.Some?
    ensures var p, s := AcceptedOrderPlan(ev, a, c, all, bonus), a.snapshot.value;
            if c.revenue.None? && !Lt(ev.date, c.cutoff) then p.puts == [] && p.error == Some(Permanent)
            else p.error == EventBonusPlan(c, ev.date, bonus).error && p.puts ==
                 ComponentPlan(OrderEntry(c.office, a, SpecialCommission, s.special), s.special, true).puts
                 + ComponentPlan(OrderEntry(c.office, a, UpgradeCommission, s.upgrade), s.upgrade, true).puts
                 + EventGeneralPlans(c, all).puts + EventBonusPlan(c, ev.date, bonus).puts
  {
    hide OrderEntry, EventGeneralPlans, BonusEntry;
    var s := a.snapshot.value;
    ComponentPlanShape(OrderEntry(c.office, a, SpecialCommission, s.special), s.special, true);
    ComponentPlanShape(OrderEntry(c.office, a, UpgradeCommission, s.upgrade), s.upgrade, true);
  }

  /** Which entries of an accepted event have an order's key, or the bonus key. */
  lemma AcceptedHolds(ev: SourceEvent, a: OrderSource, c: MonthContext, all: seq<OrderSource>, bonus: real, e: Entry)
    requires a.snapshot.Some? && bonus >= 0.0 && !(c.revenue.None? && !Lt(ev.date, c.cutoff)) && ev.date.month == c.month
    ensures var es := AcceptedOrderPlan(ev, a, c, all, bonus).puts;
            && (e.id.key.SourceKey? && e.id.key.component == GeneralCommission ==> (e in es <==> e in EventGeneralPlans(c, all).puts))
            && (forall k :: (k == SpecialCommission || k == UpgradeCommission) && e.id == EntryKey(c.office, SourceKey(Orders, a.id, k)) ==>
                  (e in es <==> Earns(a, k) && e == EntryOf(c.office, a, k)))
            && (e.id == EntryKey(c.office, TargetKey(c.worker, c.month)) ==> (e in es <==> e in EventBonusPlan(c, ev.date, bonus).puts))
  {
    hide EventGeneralPlans, EventBonusPlan, MoneyToPaise, AcceptedOrderPlan;
    var s := a.snapshot.value;
    AcceptedShape(ev, a, c, all, bonus);
    ComponentPlanShape(OrderEntry(c.office, a, SpecialCommission, s.special), s.special, true);
    ComponentPlanShape(OrderEntry(c.office, a, UpgradeCommission, s.upgrade), s.upgrade, true);
    if e in EventGeneralPlans(c, all).puts {
      GeneralFromOne(c, all, e);
    }
    BonusHasItsKey(c, ev.date, bonus, e);
  }

  lemma BonusHasItsKey(c: MonthContext, date: DateKey, bonus: real, e: Entry)
    requires date.month == c.month
    ensures e in EventBonusPlan(c, date, bonus).puts ==> e.id == EntryKey(c.office, TargetKey(c.worker, c.month))
  {
  }

  lemma EventContext(data: SourceData, periods: set<Period>, ev: SourceEvent, a: OrderSource, target1: real, target2: real, from: Option<DateKey>)
    returns (c: MonthContext, all: seq<OrderSource>)
    requires Reports(data, periods, ev, a) && TargetRowsOk(data.targets) && TermsOf(data.targets, a.beautician, target1, target2, from)
    ensures all == LoadOrders(data.orders, a.office, DateKey(a.date.month, 1), MonthEnd(a.date))
    ensures EventPlanOf(data, periods, ev) == AcceptedOrderPlan(ev, a, c, all, data.target2Bonus)
    ensures c.office == a.office && c.worker == a.beautician && c.month == a.date.month && c.cutoff == EventFrom(from)
    ensures c.target1 == target1 && c.target2 == target2
    ensures c.revenue.Some? <==> CostsGiven(data.orders, a.office, a.beautician, a.date.month, Some(EventFrom(from)), DateKey(a.date.month, 1), MonthEnd(a.date))
    ensures c.revenue.Some? ==> c.revenue.value == CostSum(data.orders, a.office, a.beautician, a.date.month, Some(EventFrom(from)), DateKey(a.date.month, 1), MonthEnd(a.date))
  {
    hide EventPlanOf, AcceptedOrderPlan, LoadOrders, TermsOf, CostSum, CostsGiven, EventRevenue;
    all := LoadOrders(data.orders, a.office, DateKey(a.date.month, 1), MonthEnd(a.date));
    c := ContextOf(data, a.office, a.beautician, a.date, all);
    AcceptedPlan(data, periods, ev, a);
    TermsAre(data.targets, a.beautician, target1, target2, from);
    EventMonthIs(data.orders, a.office, a.beautician, a.date.month, EventFrom(from), DateKey(a.date.month, 1), MonthEnd(a.date));
  }

  /** An event of a stored order fails, for good, exactly when a target row is not in order, when the
      terms apply to it but its month cannot be priced, or when a bonus below zero is due; in the
      first two cases it writes nothing. */
  lemma EventFailsIff(data: SourceData, periods: set<Period>, ev: SourceEvent, a: OrderSource, target1: real, target2: real, from: Option<DateKey>)
    requires Reports(data, periods, ev, a) && TermsOf(data.targets, a.beautician, target1, target2, from)
    ensures var p, usable := EventPlanOf(data, periods, ev), TargetRowsOk(data.targets) && CostsSuffice(data.orders, a, EventFrom(from));
            var due := BonusIsDue(data.orders, a.office, a.beautician, a.date.month, target2, Some(EventFrom(from)),
                                  DateKey(a.date.month, 1), MonthEnd(a.date));
            && (p.error == if !usable || (data.target2Bonus < 0.0 && due) then Some(Permanent) else None)
            && (!usable ==> p.puts == [])
  {
    hide TermsOf, CostsGiven, CostSum, EventPlanOf, AcceptedOrderPlan, TargetRowsOk, ComponentPlan, EventGeneralPlans, OrderEntry, BonusEntry;
    if TargetRowsOk(data.targets) {
      var c, all := EventContext(data, periods, ev, a, target1, target2, from);
      AcceptedShape(ev, a, c, all, data.target2Bonus);
    } else {
      BadTargetsFail(data, periods, ev, a);
    }
  }

  lemma BadTargetsFail(data: SourceData, periods: set<Period>, ev: SourceEvent, a: OrderSource)
    requires Reports(data, periods, ev, a) && !TargetRowsOk(data.targets)
    ensures EventPlanOf(data, periods, ev) == Plan([], 0, 0, Some(Permanent))
  {
    hide AcceptedOrderPlan, ContextOf, ClosedPeriodOverlap;
    FindsOrder(data.orders, a);
  }

  /** An accepted event of order `a` holds the general commission of an order of the same worker and
      month, and the other components of `a` itself, exactly when their amounts are positive and,
      for general commission, the rule makes it due. */
  lemma EventPaysOrderIff(data: SourceData, periods: set<Period>, ev: SourceEvent, a: OrderSource, o: OrderSource, c: Component, amount: Option<real>,
                          target1: real, target2: real, from: Option<DateKey>)
    requires Accepts(data, periods, ev, a) && TermsOf(data.targets, a.beautician, target1, target2, from)
    requires CostsSuffice(data.orders, a, EventFrom(from)) && OrderComponent(c) && (c != GeneralCommission ==> o == a)
    requires o in data.orders && o.office == a.office && o.beautician == a.beautician && o.date.month == a.date.month
    requires o.completed && !o.deleted && o.id != NIL_ID && ValidDate(o.date) && Amounts(o, c, amount)
    ensures var key, low, high := EntryKey(o.office, SourceKey(Orders, o.id, c)), DateKey(a.date.month, 1), MonthEnd(a.date);
            var es := EventPlanOf(data, periods, ev).puts;
            && ((exists e :: e in es && e.id == key) <==>
                  amount.Some? && amount.value > 0.0
                  && (c == GeneralCommission ==>
                        GeneralIsDue(data.orders, o.office, o.beautician, o.date, target1, Some(EventFrom(from)), low, high)))
            && (forall e :: e in es && e.id == key ==> amount.Some? && ShowsOrder(e, o, c, amount.value))
  {
    hide TermsOf, CostsGiven, CostSum, EventPlanOf, AcceptedOrderPlan, EventGeneralPlans, ShowsOrder;
    var low, high := DateKey(a.date.month, 1), MonthEnd(a.date);
    var k, all := EventContext(data, periods, ev, a, target1, target2, from);
    var es := EventPlanOf(data, periods, ev).puts;
    LoadedDistinct(data.orders, a.office, low, high);
    LoadedOrders(data.orders, a.office, low, high, o);
    forall e: Entry | e.id == EntryKey(o.office, SourceKey(Orders, o.id, c))
      ensures e in es <==> (c == GeneralCommission ==> EventGeneralEnabled(k, o.date)) && Earns(o, c) && e == EntryOf(o.office, o, c)
    {
      AcceptedHolds(ev, a, k, all, data.target2Bonus, e);
      if c == GeneralCommission {
        GeneralHolds(k, all, o, e);
      }
    }
    if amount.Some? && amount.value > 0.0 {
      EntryShows(o.office, o, c, amount);
    }
  }

  /** And it holds the worker's bonus for the month exactly when the rule makes it due and the office
      pays one. */
  lemma EventPaysBonusIff(data: SourceData, periods: set<Period>, ev: SourceEvent, a: OrderSource, target1: real, target2: real, from: Option<DateKey>)
    requires Accepts(data, periods, ev, a) && TermsOf(data.targets, a.beautician, target1, target2, from)
    requires CostsSuffice(data.orders, a, EventFrom(from))
    ensures var key, low, high := EntryKey(a.office, TargetKey(a.beautician, a.date.month)), DateKey(a.date.month, 1), MonthEnd(a.date);
            var es := EventPlanOf(data, periods, ev).puts;
            && ((exists e :: e in es && e.id == key) <==>
                  data.target2Bonus > 0.0 && BonusIsDue(data.orders, a.office, a.beautician, a.date.month, target2, Some(EventFrom(from)), low, high))
            && (forall e :: e in es && e.id == key ==>
                  ShowsBonus(e, a.beautician, a.date.month, target2,
                             CostSum(data.orders, a.office, a.beautician, a.date.month, Some(EventFrom(from)), low, high), data.target2Bonus))
  {
    hide TermsOf, CostsGiven, CostSum, EventPlanOf, AcceptedOrderPlan, ShowsBonus;
    var k, all := EventContext(data, periods, ev, a, target1, target2, from);
    var es := EventPlanOf(data, periods, ev).puts;
    forall e: Entry | e.id == EntryKey(a.office, TargetKey(a.beautician, a.date.month))
      ensures e in es <==> e in EventBonusPlan(k, ev.date, data.target2Bonus).puts
    {
      AcceptedHolds(ev, a, k, all, data.target2Bonus, e);
    }
    if k.revenue.Some? {
      BonusShows(a.office, a.beautician, a.date, target2, k.revenue.value, data.target2Bonus);
    }
  }

  // ----- the audit

  /** The order's component is part of what the audit expects over the range. */
  predicate AuditDue(orders: seq<OrderSource>, office: Id, w: Id, o: OrderSource, c: Component, target1: real, from: Option<DateKey>, start: DateKey, end: DateKey) {
    && o.office == office && o.beautician == w && o.completed && !o.deleted && o.id != NIL_ID && ValidDate(o.date)
    && NotBefore(o.date, start) && NotBefore(end, o.date)
    && AmountOf(o, c).Some? && AmountOf(o, c).value >= 0.0
    && (c == GeneralCommission ==> GeneralIsDue(orders, office, w, o.date, target1, from, DateKey(start.month, 1), MonthEnd(end)))
  }

  /** The paise the worker's orders in range earn by one component. */
  function DueTotal(some: seq<OrderSource>, orders: seq<OrderSource>, office: Id, w: Id, c: Component, target1: real, from: Option<DateKey>,
                    start: DateKey, end: DateKey): int
  {
    if some == [] then 0
    else
      var o := some[|some| - 1];
      DueTotal(some[..|some| - 1], orders, office, w, c, target1, from, start, end)
      + if AuditDue(orders, office, w, o, c, target1, from, start, end) then MoneyToPaise(AmountOf(o, c).value) else 0
  }

  lemma {:induction false} NothingAt(cs: seq<Amount>, k: AuditKey)
    requires forall i :: 0 <= i < |cs| ==> cs[i].key != k
    ensures SumAt(cs, k) == 0
  {
    if cs != [] {
      assert forall i :: 0 <= i < |cs| - 1 ==> cs[..|cs| - 1][i] == cs[i];
      NothingAt(cs[..|cs| - 1], k);
    }
  }

  lemma AuditGeneralIs(orders: seq<OrderSource>, office: Id, ts: seq<WorkerTarget>, o: OrderSource,
                       target1: real, target2: real, from: Option<DateKey>, low: DateKey, high: DateKey)
    requires TermsOf(ts, o.beautician, target1, target2, from)
    ensures var all := LoadOrders(orders, office, low, high);
            && (AuditGeneralEnabled(all, TargetMap(ts), o) <==> GeneralIsDue(orders, office, o.beautician, o.date, target1, from, low, high))
            && (AuditBonusEarned(all, TargetMap(ts), o.beautician, o.date.month)
                <==> BonusIsDue(orders, office, o.beautician, o.date.month, target2, from, low, high))
  {
    var all := LoadOrders(orders, office, low, high);
    forall p | p in all ensures !p.deleted {
      LoadedOrders(orders, office, low, high, p);
    }
    RevenuesAgree(all, TargetMap(ts), o.beautician, o.date.month);
    GeneralIs(orders, office, ts, o.beautician, o.date, target1, target2, from, low, high);
  }

  lemma ExpectedOrderAt(data: SourceData, office: Id, start: DateKey, end: DateKey, o: OrderSource, w: Id, c: Component,
                        target1: real, target2: real, from: Option<DateKey>)
    requires OrderComponent(c) && w != NIL_ID && TermsOf(data.targets, w, target1, target2, from)
    requires ValidDate(start) && ValidDate(end) && OrderMatches(o, office, DateKey(start.month, 1), MonthEnd(end))
    ensures var all := LoadOrders(data.orders, office, DateKey(start.month, 1), MonthEnd(end));
            SumAt(ExpectedOrder(all, TargetMap(data.targets), start, end, o).amounts, AuditKey(w, Beautician, OrderScope, c, CommissionBucket))
            == if AuditDue(data.orders, office, w, o, c, target1, from, start, end) then MoneyToPaise(AmountOf(o, c).value) else 0
  {
    hide MoneyToPaise, AuditGeneralEnabled, GeneralIsDue, TermsOf, LoadOrders, TargetMap, Item, SumAt;
    var all, k := LoadOrders(data.orders, office, DateKey(start.month, 1), MonthEnd(end)), AuditKey(w, Beautician, OrderScope, c, CommissionBucket);
    var enabled := AuditGeneralEnabled(all, TargetMap(data.targets), o);
    if o.beautician == w {
      AuditGeneralIs(data.orders, office, data.targets, o, target1, target2, from, DateKey(start.month, 1), MonthEnd(end));
    }
    NothingAt([], k);
    if Within(o.date, start, end) && o.id != NIL_ID && o.beautician != NIL_ID && ValidDate(o.date) && o.snapshot.Some? {
      ThreeItemsAt(o, enabled, k);
    }
  }

  lemma ThreeItemsAt(o: OrderSource, enabled: bool, k: AuditKey)
    requires o.snapshot.Some? && OrderComponent(k.component)
    ensures var s := o.snapshot.value;
            SumAt(Plus(Plus(Item(OrderKey(o, SpecialCommission), s.special, true), Item(OrderKey(o, GeneralCommission), s.general, enabled)),
                       Item(OrderKey(o, UpgradeCommission), s.upgrade, true)).amounts, k)
            == if k == OrderKey(o, k.component) && AmountOf(o, k.component).Some? && AmountOf(o, k.component).value >= 0.0
                  && (k.component == GeneralCommission ==> enabled) then MoneyToPaise(AmountOf(o, k.component).value) else 0
  {
    hide MoneyToPaise, Item, SumAt;
    var s := o.snapshot.value;
    var x, y, z := Item(OrderKey(o, SpecialCommission), s.special, true), Item(OrderKey(o, GeneralCommission), s.general, enabled),
      Item(OrderKey(o, UpgradeCommission), s.upgrade, true);
    ItemAt(OrderKey(o, SpecialCommission), s.special, true, k);
    ItemAt(OrderKey(o, GeneralCommission), s.general, enabled, k);
    ItemAt(OrderKey(o, UpgradeCommission), s.upgrade, true, k);
    SumAtConcat(x.amounts, y.amounts, k);
    SumAtConcat(Plus(x, y).amounts, z.amounts, k);
  }

  lemma ItemAt(key: AuditKey, amount: Option<real>, enabled: bool, k: AuditKey)
    ensures SumAt(Item(key, amount, enabled).amounts, k)
         == if key == k && amount.Some? && amount.value >= 0.0 && enabled then MoneyToPaise(amount.value) else 0
  {
    if amount.Some? {
      SumAtOne(key, MoneyToPaise(amount.value), k);
    }
  }

  lemma {:induction false} ExpectedOrdersAt(data: SourceData, some: seq<OrderSource>, office: Id, start: DateKey, end: DateKey, w: Id, c: Component,
                                            target1: real, target2: real, from: Option<DateKey>)
    requires OrderComponent(c) && w != NIL_ID && TermsOf(data.targets, w, target1, target2, from) && ValidDate(start) && ValidDate(end)
    ensures var low, high := DateKey(start.month, 1), MonthEnd(end);
            var all := LoadOrders(data.orders, office, low, high);
            SumAt(ExpectedOrders(all, TargetMap(data.targets), start, end, LoadOrders(some, office, low, high)).amounts,
                  AuditKey(w, Beautician, OrderScope, c, CommissionBucket))
            == DueTotal(some, data.orders, office, w, c, target1, from, start, end)
  {
    hide MoneyToPaise, GeneralIsDue, TermsOf, TargetMap, ExpectedOrder, OrderMatches;
    var low, high, k := DateKey(start.month, 1), MonthEnd(end), AuditKey(w, Beautician, OrderScope, c, CommissionBucket);
    var all := LoadOrders(data.orders, office, low, high);
    if some != [] {
      var n := |some| - 1;
      var init, o := some[..n], some[n];
      var before := LoadOrders(init, office, low, high);
      ExpectedOrdersAt(data, init, office, start, end, w, c, target1, target2, from);
      if OrderMatches(o, office, low, high) {
        ExpectedOrderAt(data, office, start, end, o, w, c, target1, target2, from);
        assert LoadOrders(some, office, low, high) == before + [o] && (before + [o])[..|before|] == before;
        SumAtConcat(ExpectedOrders(all, TargetMap(data.targets), start, end, before).amounts,
                    ExpectedOrder(all, TargetMap(data.targets), start, end, o).amounts, k);
      } else {
        NotLoadedNotDue(data.orders, office, w, o, c, target1, from, start, end);
        assert LoadOrders(some, office, low, high) == before;
      }
    }
  }

  lemma NotLoadedNotDue(orders: seq<OrderSource>, office: Id, w: Id, o: OrderSource, c: Component, target1: real, from: Option<DateKey>, start: DateKey, end: DateKey)
    requires !OrderMatches(o, office, DateKey(start.month, 1), MonthEnd(end)) && ValidDate(start)
    ensures !AuditDue(orders, office, w, o, c, target1, from, start, end)
  {
  }

  lemma {:induction false} TripAmountsElsewhere(start: DateKey, end: DateKey, trips: seq<TripSource>)
    ensures forall i :: 0 <= i < |ExpectedTrips(start, end, trips).amounts| ==> ExpectedTrips(start, end, trips).amounts[i].key.scope == TripScope
  {
    hide EffectivePayables, MoneyToPaise;
    if trips != [] {
      TripAmountsElsewhere(start, end, trips[..|trips| - 1]);
    }
  }

  lemma {:induction false} AwardAmountsElsewhere(awards: seq<Award>, types: map<Id, WorkerType>, board: Board)
    ensures forall i :: 0 <= i < |ExpectedAwards(awards, types, board).amounts| ==> ExpectedAwards(awards, types, board).amounts[i].key.scope.BoardScope?
  {
    if awards != [] {
      AwardAmountsElsewhere(awards[..|awards| - 1], types, board);
    }
  }

  lemma {:induction false} OrderAmountsElsewhere(all: seq<OrderSource>, targets: Targets, start: DateKey, end: DateKey, orders: seq<OrderSource>)
    ensures forall i :: 0 <= i < |ExpectedOrders(all, targets, start, end, orders).amounts| ==>
              ExpectedOrders(all, targets, start, end, orders).amounts[i].key.scope == OrderScope
  {
    hide AuditGeneralEnabled, MoneyToPaise;
    if orders != [] {
      OrderAmountsElsewhere(all, targets, start, end, orders[..|orders| - 1]);
    }
  }

  /** What an audit expects under one key is what the order side expects there, for orders and bonuses. */
  lemma OrderSideDecides(data: SourceData, office: Id, start: DateKey, end: DateKey, order: seq<Id>, k: AuditKey)
    requires AuditUsable(data, start, end) && IsIteration(order, TargetMap(data.targets))
    requires k.scope == OrderScope || k.scope == TargetScope
    ensures var all, targets := LoadOrders(data.orders, office, MonthStart(start), MonthEnd(end)), TargetMap(data.targets);
            SumAt(ExpectedOf(data, office, start, end, order).value.amounts, k)
            == SumAt(ExpectedOrders(all, targets, start, end, all).amounts, k)
               + if k.worker in targets then SumAt(ExpectedBonus(all, targets, end, data.target2Bonus, k.worker).amounts, k) else 0
  {
    hide ExpectedOrders, ExpectedTrips, ExpectedAwards, ExpectedBonus, ExpectedBonuses, BoardAwards, SumAt, TargetMap, LoadTrips;
    var all, targets := LoadOrders(data.orders, office, MonthStart(start), MonthEnd(end)), TargetMap(data.targets);
    var os, ws := ExpectedOrders(all, targets, start, end, all), ExpectedBonuses(all, targets, end, data.target2Bonus, order);
    var side, ts := ExpectedOrderSide(data, office, start, end, order), ExpectedTrips(start, end, LoadTrips(data, office, start, end));
    var bs, rs := ExpectedBeauticianAwards(data), ExpectedRiderAwards(data);
    ExpectedBonusAt(all, targets, end, data.target2Bonus, order, k);
    SumAtConcat(os.amounts, ws.amounts, k);
    SumAtConcat(side.amounts, ts.amounts, k);
    SumAtConcat(Plus(side, ts).amounts, bs.amounts, k);
    SumAtConcat(Plus(Plus(side, ts), bs).amounts, rs.amounts, k);
    TripAmountsElsewhere(start, end, LoadTrips(data, office, start, end));
    NothingAt(ts.amounts, k);
    AwardAmountsElsewhere(BoardAwards(data.beauticians, data.prizes, BeauticianBoard), map[], BeauticianBoard);
    NothingAt(bs.amounts, k);
    AwardAmountsElsewhere(BoardAwards(RiderRows(data.riders), data.prizes, RiderBoard), RiderTypes(data.riders), RiderBoard);
    NothingAt(rs.amounts, k);
  }

  /** The audit expects under a worker's order key exactly what the rule makes due in range. */
  lemma AuditExpectsOrders(data: SourceData, office: Id, start: DateKey, end: DateKey, order: seq<Id>, w: Id, c: Component,
                           target1: real, target2: real, from: Option<DateKey>)
    requires AuditUsable(data, start, end) && IsIteration(order, TargetMap(data.targets))
    requires OrderComponent(c) && w != NIL_ID && TermsOf(data.targets, w, target1, target2, from)
    ensures SumAt(ExpectedOf(data, office, start, end, order).value.amounts, AuditKey(w, Beautician, OrderScope, c, CommissionBucket))
         == DueTotal(data.orders, data.orders, office, w, c, target1, from, start, end)
  {
    hide TermsOf, DueTotal, ExpectedOrders, ExpectedOf, SumAt, AuditUsable, TargetMap;
    var all, targets := LoadOrders(data.orders, office, MonthStart(start), MonthEnd(end)), TargetMap(data.targets);
    var k := AuditKey(w, Beautician, OrderScope, c, CommissionBucket);
    UsableDates(data, start, end);
    OrderSideDecides(data, office, start, end, order, k);
    ExpectedBonusOne(all, targets, end, data.target2Bonus, w, k);
    ExpectedOrdersAt(data, data.orders, office, start, end, w, c, target1, target2, from);
  }

  lemma UsableDates(data: SourceData, start: DateKey, end: DateKey)
    requires AuditUsable(data, start, end)
    ensures ValidDate(start) && ValidDate(end) && data.target2Bonus >= 0.0
  {
  }

  /** And under the bonus key the office's bonus exactly when the rule makes it due. */
  lemma AuditExpectsBonus(data: SourceData, office: Id, start: DateKey, end: DateKey, order: seq<Id>, w: Id,
                          target1: real, target2: real, from: Option<DateKey>)
    requires AuditUsable(data, start, end) && IsIteration(order, TargetMap(data.targets)) && TermsOf(data.targets, w, target1, target2, from)
    ensures SumAt(ExpectedOf(data, office, start, end, order).value.amounts, AuditKey(w, Beautician, TargetScope, TargetBonus, CommissionBucket))
         == if BonusIsDue(data.orders, office, w, end.month, target2, from, DateKey(start.month, 1), MonthEnd(end))
            then MoneyToPaise(data.target2Bonus) else 0
  {
    hide TermsOf, ExpectedOrders, ExpectedOf, SumAt, AuditUsable, TargetMap, CostSum, CostsGiven;
    var all, targets := LoadOrders(data.orders, office, MonthStart(start), MonthEnd(end)), TargetMap(data.targets);
    var k := AuditKey(w, Beautician, TargetScope, TargetBonus, CommissionBucket);
    OrderSideDecides(data, office, start, end, order, k);
    ExpectedBonusOne(all, targets, end, data.target2Bonus, w, k);
    OrderAmountsElsewhere(all, targets, start, end, all);
    NothingAt(ExpectedOrders(all, targets, start, end, all).amounts, k);
    BonusDueIs(data, office, w, start, end, target1, target2, from);
    NoRowNoBonus(data.targets, w, target1, target2, from);
  }

  lemma NoRowNoBonus(ts: seq<WorkerTarget>, w: Id, target1: real, target2: real, from: Option<DateKey>)
    requires TermsOf(ts, w, target1, target2, from)
    ensures w !in TargetMap(ts) ==> target2 == 0.0
  {
    MapHoldsLast(ts, w);
  }

  lemma BonusDueIs(data: SourceData, office: Id, w: Id, start: DateKey, end: DateKey, target1: real, target2: real, from: Option<DateKey>)
    requires TermsOf(data.targets, w, target1, target2, from)
    ensures AuditBonusEarned(LoadOrders(data.orders, office, MonthStart(start), MonthEnd(end)), TargetMap(data.targets), w, end.month)
            <==> BonusIsDue(data.orders, office, w, end.month, target2, from, DateKey(start.month, 1), MonthEnd(end))
  {
    var some := OrderSource(1, office, w, true, false, end, None);
    AuditGeneralIs(data.orders, office, data.targets, some, target1, target2, from, DateKey(start.month, 1), MonthEnd(end));
  }
}
