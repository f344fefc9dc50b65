/** Which entries a rebuild writes, and that no two of its puts share a key. */
module RebuildFacts {
  import opened Wrappers
  import opened Dates
  import opened Money
  import opened Ranking
  import opened Ledger
  import opened SourcePuts
  import opened Sources
  import opened Plans
  import opened ControlPlane
  import opened RebuildPlan

  // ----- order components and the entries they become

  function AmountOf(o: OrderSource, c: Component): Option<real> {
    if o.snapshot.None? then None
    else if c == SpecialCommission then o.snapshot.value.special
    else if c == GeneralCommission then o.snapshot.value.general
    else if c == UpgradeCommission then o.snapshot.value.upgrade
    else None
  }

  function EntryOf(office: Id, o: OrderSource, c: Component): Entry {
    OrderEntry(office, o, c, AmountOf(o, c))
  }

  predicate Earns(o: OrderSource, c: Component) {
    ValidAmount(AmountOf(o, c)) && AmountOf(o, c).value != 0.0
  }

  predicate OrderComponent(c: Component) {
    c == SpecialCommission || c == GeneralCommission || c == UpgradeCommission
  }

  ghost predicate DistinctOrders(orders: seq<OrderSource>) {
    forall i, j :: 0 <= i < j < |orders| ==> orders[i].id != orders[j].id
  }

  lemma {:induction false} LoadedOrders(orders: seq<OrderSource>, office: Id, start: DateKey, end: DateKey, o: OrderSource)
    ensures o in LoadOrders(orders, office, start, end) <==> o in orders && OrderMatches(o, office, start, end)
  {
    if orders != [] {
      LoadedOrders(orders[..|orders| - 1], office, start, end, o);
    }
  }

  lemma {:induction false} LoadedDistinct(orders: seq<OrderSource>, office: Id, start: DateKey, end: DateKey)
    requires DistinctOrders(orders)
    ensures DistinctOrders(LoadOrders(orders, office, start, end))
  {
    if orders != [] {
      var init, o := orders[..|orders| - 1], orders[|orders| - 1];
      LoadedDistinct(init, office, start, end);
      var loaded := LoadOrders(init, office, start, end);
      forall i | 0 <= i < |loaded| ensures loaded[i].id != o.id {
        LoadedOrders(init, office, start, end, loaded[i]);
        var j :| 0 <= j < |init| && init[j] == loaded[i];
        assert orders[j] == loaded[i];
      }
    }
  }

  // ----- the orders section

  /** Order `o`'s component `k` is among the writes of a rebuild that loaded `all`. */
  predicate RebuildWrite(job: Job, all: seq<OrderSource>, targets: Targets, o: OrderSource, k: Component) {
    && o.completed && ValidDate(o.date) && Within(o.date, job.start, job.end) && Earns(o, k)
    && (k == GeneralCommission ==> GeneralEnabled(all, targets, o.beautician, o.date))
  }

  function WriteOne(job: Job, all: seq<OrderSource>, targets: Targets, o: OrderSource, k: Component): seq<Entry> {
    if RebuildWrite(job, all, targets, o, k) then [EntryOf(job.id.office, o, k)] else []
  }

  lemma ComponentPlanShape(entry: Entry, amount: Option<real>, enabled: bool)
    ensures ComponentPlan(entry, amount, enabled).error.None?
    ensures ComponentPlan(entry, amount, enabled).puts ==
            if ValidAmount(amount) && enabled && amount.value != 0.0 then [entry] else []
  {
  }

  lemma WriteOneIs(job: Job, all: seq<OrderSource>, targets: Targets, o: OrderSource, c: Component, amount: Option<real>, enabled: bool)
    requires o.completed && ValidDate(o.date) && Within(o.date, job.start, job.end) && o.snapshot.Some? && amount == AmountOf(o, c)
    requires enabled <==> (c == GeneralCommission ==> GeneralEnabled(all, targets, o.beautician, o.date))
    ensures ComponentPlan(OrderEntry(job.id.office, o, c, amount), amount, enabled).error.None?
    ensures ComponentPlan(OrderEntry(job.id.office, o, c, amount), amount, enabled).puts == WriteOne(job, all, targets, o, c)
  {
    hide OrderEntry, GeneralEnabled;
  }

  lemma OrderPlanShape(job: Job, all: seq<OrderSource>, targets: Targets, o: OrderSource)
    ensures OrderPlan(job, all, targets, o).puts ==
            WriteOne(job, all, targets, o, SpecialCommission) + WriteOne(job, all, targets, o, GeneralCommission)
            + WriteOne(job, all, targets, o, UpgradeCommission)
    ensures OrderPlan(job, all, targets, o).error.None?
  {
    if o.snapshot.Some? {
      var enabled := GeneralEnabled(all, targets, o.beautician, o.date);
      var office, s := job.id.office, o.snapshot.value;
      var start := Plan([], 1, 0, None);
      var special := ComponentPlan(OrderEntry(office, o, SpecialCommission, s.special), s.special, true);
      var general := ComponentPlan(OrderEntry(office, o, GeneralCommission, s.general), s.general, enabled);
      var upgrade := ComponentPlan(OrderEntry(office, o, UpgradeCommission, s.upgrade), s.upgrade, true);
      if o.completed && ValidDate(o.date) && Within(o.date, job.start, job.end) {
        hide ComponentPlan, OrderEntry, GeneralEnabled, WriteOne;
        WriteOneIs(job, all, targets, o, SpecialCommission, s.special, true);
        WriteOneIs(job, all, targets, o, GeneralCommission, s.general, enabled);
        WriteOneIs(job, all, targets, o, UpgradeCommission, s.upgrade, true);
        assert OrderPlan(job, all, targets, o) == Then(Then(Then(start, special), general), upgrade);
      }
      ThenPuts(start, special);
      ThenPuts(Then(start, special), general);
      ThenPuts(Then(Then(start, special), general), upgrade);
    }
  }

  lemma {:induction false} OrderPlansWrite(job: Job, all: seq<OrderSource>, targets: Targets, orders: seq<OrderSource>, e: Entry)
    ensures e in OrderPlans(job, all, targets, orders).puts <==>
            exists o, k :: o in orders && RebuildWrite(job, all, targets, o, k) && e == EntryOf(job.id.office, o, k)
  {
    if orders != [] {
      var init, last := orders[..|orders| - 1], orders[|orders| - 1];
      OrderPlansWrite(job, all, targets, init, e);
      OrderPlanShape(job, all, targets, last);
      assert OrderPlans(job, all, targets, orders).puts ==
             OrderPlans(job, all, targets, init).puts + OrderPlan(job, all, targets, last).puts;
      if exists o, k :: o in orders && RebuildWrite(job, all, targets, o, k) && e == EntryOf(job.id.office, o, k) {
        var o, k :| o in orders && RebuildWrite(job, all, targets, o, k) && e == EntryOf(job.id.office, o, k);
        assert o in init || o == last;
        assert OrderComponent(k);
        assert e in WriteOne(job, all, targets, o, k);
      }
    }
  }

  lemma WriteOneKeys(job: Job, all: seq<OrderSource>, targets: Targets, o: OrderSource, c: Component)
    requires OrderComponent(c)
    ensures var es := WriteOne(job, all, targets, o, c);
            |es| <= 1 && forall i :: 0 <= i < |es| ==> es[i].id.key == SourceKey(Orders, o.id, c)
  {
    hide RebuildWrite;
  }

  lemma OrderPlanDistinct(job: Job, all: seq<OrderSource>, targets: Targets, o: OrderSource)
    ensures var es := OrderPlan(job, all, targets, o).puts;
            DistinctKeys(es) && forall i :: 0 <= i < |es| ==> es[i].id.key.SourceKey? && es[i].id.key.source == o.id
  {
    hide OrderPlan, WriteOne;
    OrderPlanShape(job, all, targets, o);
    WriteOneKeys(job, all, targets, o, SpecialCommission);
    WriteOneKeys(job, all, targets, o, GeneralCommission);
    WriteOneKeys(job, all, targets, o, UpgradeCommission);
  }

  lemma {:induction false} OrderPlansDistinct(job: Job, all: seq<OrderSource>, targets: Targets, orders: seq<OrderSource>)
    requires DistinctOrders(orders)
    ensures DistinctKeys(OrderPlans(job, all, targets, orders).puts)
  {
    if orders != [] {
      hide OrderPlan, RebuildWrite, DistinctKeys;
      var n := |orders| - 1;
      var init, last := orders[..n], orders[n];
      OrderPlansDistinct(job, all, targets, init);
      OrderPlanShape(job, all, targets, last);
      OrderPlanDistinct(job, all, targets, last);
      var before, own := OrderPlans(job, all, targets, init).puts, OrderPlan(job, all, targets, last).puts;
      assert OrderPlans(job, all, targets, orders).puts == before + own;
      forall i | 0 <= i < |before| ensures before[i].id.key.SourceKey? && before[i].id.key.source != last.id {
        OrderPlansWrite(job, all, targets, init, before[i]);
        var o, k :| o in init && RebuildWrite(job, all, targets, o, k) && before[i] == EntryOf(job.id.office, o, k);
        var j :| 0 <= j < n && orders[j] == o;
      }
      ConcatDistinct(before, own);
    }
  }

  lemma {:induction false} BonusPlansWrite(job: Job, all: seq<OrderSource>, targets: Targets, bonus: real, workers: seq<Id>, e: Entry)
    ensures e in BonusPlans(job, all, targets, bonus, workers).puts <==>
            exists w :: w in workers && bonus != 0.0 && BonusEarned(all, targets, w, job.end.month)
                        && e == BonusEntry(job.id.office, w, job.end, Target2(targets, w), Revenue(all, targets, w, job.end.month), bonus)
  {
    if workers != [] {
      var init, last := workers[..|workers| - 1], workers[|workers| - 1];
      BonusPlansWrite(job, all, targets, bonus, init, e);
      assert BonusPlans(job, all, targets, bonus, workers).puts ==
             BonusPlans(job, all, targets, bonus, init).puts + BonusPlan(job, all, targets, bonus, last).puts;
      assert forall w :: w in workers <==> w in init || w == last;
    }
  }

  lemma {:induction false} BonusPlansDistinct(job: Job, all: seq<OrderSource>, targets: Targets, bonus: real, workers: seq<Id>)
    requires forall i, j :: 0 <= i < j < |workers| ==> workers[i] != workers[j]
    ensures DistinctKeys(BonusPlans(job, all, targets, bonus, workers).puts)
  {
    if workers != [] {
      var n := |workers| - 1;
      var init, last := workers[..n], workers[n];
      BonusPlansDistinct(job, all, targets, bonus, init);
      var before := BonusPlans(job, all, targets, bonus, init).puts;
      forall i | 0 <= i < |before| ensures before[i].id.key.TargetKey? && before[i].id.key.worker != last {
        BonusPlansWrite(job, all, targets, bonus, init, before[i]);
        var w :| w in init && before[i] == BonusEntry(job.id.office, w, job.end, Target2(targets, w), Revenue(all, targets, w, job.end.month), bonus);
        var j :| 0 <= j < n && workers[j] == w;
      }
    }
  }

  /** The parts of a plan keep their keys apart when they use different kinds of key. */
  lemma ConcatDistinct(a: seq<Entry>, b: seq<Entry>)
    requires DistinctKeys(a) && DistinctKeys(b)
    requires forall i, j :: 0 <= i < |a| && 0 <= j < |b| ==> a[i].id != b[j].id
    ensures DistinctKeys(a + b)
  {
  }

  lemma OrdersSectionShape(job: Job, data: SourceData, workers: seq<Id>)
    ensures OrdersSection(job, data, workers).error.None? <==>
            CoveringMonths(job.start, job.end).Some? && ValidMoney(data.target2Bonus) && ValidTargets(data.targets)
    ensures OrdersSection(job, data, workers).error.Some? ==> OrdersSection(job, data, workers).puts == []
    ensures OrdersSection(job, data, workers).error.None? ==>
              var all := LoadOrders(data.orders, job.id.office, MonthStart(job.start), MonthEnd(job.end));
              OrdersSection(job, data, workers).puts ==
              OrderPlans(job, all, TargetMap(data.targets), all).puts
              + BonusPlans(job, all, TargetMap(data.targets), data.target2Bonus, workers).puts
    ensures OrdersSection(job, data, workers).error.None? ==>
              var all := LoadOrders(data.orders, job.id.office, MonthStart(job.start), MonthEnd(job.end));
              OrdersSection(job, data, workers).missing >= OrderPlans(job, all, TargetMap(data.targets), all).missing
  {
    var all, targets := LoadOrders(data.orders, job.id.office, MonthStart(job.start), MonthEnd(job.end)), TargetMap(data.targets);
    ThenPuts(OrderPlans(job, all, targets, all), BonusPlans(job, all, targets, data.target2Bonus, workers));
  }

  lemma OrdersSectionKeys(job: Job, data: SourceData, workers: seq<Id>)
    ensures forall e :: e in OrdersSection(job, data, workers).puts ==>
              (e.id.key.SourceKey? && e.id.key.collection == Orders) || e.id.key.TargetKey?
  {
    OrdersSectionShape(job, data, workers);
    if OrdersSection(job, data, workers).error.None? {
      var all, targets := LoadOrders(data.orders, job.id.office, MonthStart(job.start), MonthEnd(job.end)), TargetMap(data.targets);
      forall e | e in OrdersSection(job, data, workers).puts
        ensures (e.id.key.SourceKey? && e.id.key.collection == Orders) || e.id.key.TargetKey?
      {
        OrderPlansWrite(job, all, targets, all, e);
        BonusPlansWrite(job, all, targets, data.target2Bonus, workers, e);
      }
    }
  }

  lemma OrdersSectionDistinct(job: Job, data: SourceData, workers: seq<Id>)
    requires DistinctOrders(data.orders)
    requires forall i, j :: 0 <= i < j < |workers| ==> workers[i] != workers[j]
    ensures DistinctKeys(OrdersSection(job, data, workers).puts)
  {
    OrdersSectionShape(job, data, workers);
    if OrdersSection(job, data, workers).error.None? {
      var all, targets := LoadOrders(data.orders, job.id.office, MonthStart(job.start), MonthEnd(job.end)), TargetMap(data.targets);
      var orders := OrderPlans(job, all, targets, all).puts;
      var bonuses := BonusPlans(job, all, targets, data.target2Bonus, workers).puts;
      LoadedDistinct(data.orders, job.id.office, MonthStart(job.start), MonthEnd(job.end));
      OrderPlansDistinct(job, all, targets, all);
      BonusPlansDistinct(job, all, targets, data.target2Bonus, workers);
      forall i, j | 0 <= i < |orders| && 0 <= j < |bonuses| ensures orders[i].id != bonuses[j].id {
        OrderPlansWrite(job, all, targets, all, orders[i]);
        BonusPlansWrite(job, all, targets, data.target2Bonus, workers, bonuses[j]);
      }
      ConcatDistinct(orders, bonuses);
    }
  }

  // ----- the trips section

  ghost predicate DistinctTrips(trips: seq<TripSource>) {
    forall i, j :: 0 <= i < j < |trips| ==> trips[i].id != trips[j].id
  }

  /** A trip's write, if any, of one component. */
  function TripWrite(job: Job, t: TripSource, c: Component, bucket: Bucket, amount: Option<real>): seq<Entry> {
    ComponentPlan(TripEntry(job.id.office, t, c, bucket, amount), amount, true).puts
  }

  lemma TripWriteShape(job: Job, t: TripSource, c: Component, bucket: Bucket, amount: Option<real>)
    requires c == TripCommission || c == Petrol
    ensures |TripWrite(job, t, c, bucket, amount)| <= 1
    ensures forall e :: e in TripWrite(job, t, c, bucket, amount) ==> e.id.key == SourceKey(Trips, t.id, c)
  {
    hide TripWorker, MoneyToPaise;
  }

  lemma TripPlanParts(job: Job, t: TripSource)
    ensures TripPlan(job, t).error.None?
    ensures TripPlan(job, t).puts != [] ==>
              var (commission, petrol) := EffectivePayables(t);
              TripPlan(job, t).puts == (if job.scope == PetrolOnly then [] else TripWrite(job, t, TripCommission, CommissionBucket, commission))
                                       + TripWrite(job, t, Petrol, PetrolBucket, petrol)
  {
    hide EffectivePayables, TripEntry, ComponentPlan;
    var (commission, petrol) := EffectivePayables(t);
    var ride, fuel := TripEntry(job.id.office, t, TripCommission, CommissionBucket, commission), TripEntry(job.id.office, t, Petrol, PetrolBucket, petrol);
    ComponentPlanShape(ride, commission, true);
    ComponentPlanShape(fuel, petrol, true);
    var head, p := Plan([], 1, 0, None), if job.scope == PetrolOnly then NOTHING else ComponentPlan(ride, commission, true);
    ThenPuts(head, p);
    ThenPuts(Then(head, p), ComponentPlan(fuel, petrol, true));
  }

  lemma TripPlanKeys(job: Job, t: TripSource, e: Entry)
    requires e in TripPlan(job, t).puts
    ensures e.id.key.SourceKey? && e.id.key.collection == Trips && e.id.key.source == t.id
  {
    hide TripPlan, EffectivePayables, TripWrite;
    var (commission, petrol) := EffectivePayables(t);
    TripPlanParts(job, t);
    TripWriteShape(job, t, TripCommission, CommissionBucket, commission);
    TripWriteShape(job, t, Petrol, PetrolBucket, petrol);
  }

  lemma TripPlanDistinct(job: Job, t: TripSource)
    ensures DistinctKeys(TripPlan(job, t).puts)
    ensures TripPlan(job, t).error.None?
  {
    hide TripPlan, EffectivePayables, TripWrite;
    var (commission, petrol) := EffectivePayables(t);
    TripPlanParts(job, t);
    TripWriteShape(job, t, TripCommission, CommissionBucket, commission);
    TripWriteShape(job, t, Petrol, PetrolBucket, petrol);
  }

  lemma {:induction false} TripPlansKeys(job: Job, trips: seq<TripSource>, e: Entry)
    requires e in TripPlans(job, trips).puts
    ensures e.id.key.SourceKey? && e.id.key.collection == Trips
    ensures exists t :: t in trips && t.id == e.id.key.source
  {
    var init, last := trips[..|trips| - 1], trips[|trips| - 1];
    if e in TripPlan(job, last).puts {
      TripPlanKeys(job, last, e);
      assert last in trips;
    } else {
      TripPlansKeys(job, init, e);
    }
  }

  lemma {:induction false} TripPlansDistinct(job: Job, trips: seq<TripSource>)
    requires DistinctTrips(trips)
    ensures DistinctKeys(TripPlans(job, trips).puts)
  {
    if trips != [] {
      var n := |trips| - 1;
      var init, last := trips[..n], trips[n];
      TripPlansDistinct(job, init);
      TripPlanDistinct(job, last);
      var before, own := TripPlans(job, init).puts, TripPlan(job, last).puts;
      forall i, j | 0 <= i < |before| && 0 <= j < |own| ensures before[i].id != own[j].id {
        TripPlansKeys(job, init, before[i]);
        TripPlanKeys(job, last, own[j]);
        var t :| t in init && t.id == before[i].id.key.source;
        var p :| 0 <= p < n && trips[p] == t;
      }
      ConcatDistinct(before, own);
    }
  }

  lemma {:induction false} SelectedDistinct(trips: seq<TripSource>, office: Id, start: DateKey, end: DateKey)
    requires DistinctTrips(trips)
    ensures DistinctTrips(SelectTrips(trips, office, start, end))
    ensures forall t :: t in SelectTrips(trips, office, start, end) ==> t in trips && TripMatches(t, office, start, end)
  {
    if trips != [] {
      var init, t := trips[..|trips| - 1], trips[|trips| - 1];
      SelectedDistinct(init, office, start, end);
      var selected := SelectTrips(init, office, start, end);
      forall i | 0 <= i < |selected| ensures selected[i].id != t.id {
        assert selected[i] in init;
        var j :| 0 <= j < |init| && init[j] == selected[i];
        assert trips[j] == selected[i];
      }
    }
  }

  // ----- the leaderboard section

  ghost predicate DistinctAwards(awards: seq<Award>) {
    forall i, j :: 0 <= i < j < |awards| ==> awards[i].worker != awards[j].worker
  }

  lemma {:induction false} AwardPlansKeys(job: Job, awards: seq<Award>, types: map<Id, WorkerType>, board: Board, prizes: PrizeSchedule, e: Entry)
    requires e in AwardPlans(job, awards, types, board, prizes).puts
    ensures e.id.key.AwardKey? && e.id.key.board == board
    ensures exists a :: a in awards && a.worker == e.id.key.worker
  {
    var init, last := awards[..|awards| - 1], awards[|awards| - 1];
    if e in AwardPlans(job, init, types, board, prizes).puts {
      AwardPlansKeys(job, init, types, board, prizes, e);
    } else {
      assert last in awards;
    }
  }

  lemma {:induction false} AwardPlansDistinct(job: Job, awards: seq<Award>, types: map<Id, WorkerType>, board: Board, prizes: PrizeSchedule)
    requires DistinctAwards(awards)
    ensures DistinctKeys(AwardPlans(job, awards, types, board, prizes).puts)
  {
    if awards != [] {
      var n := |awards| - 1;
      var init, last := awards[..n], awards[n];
      AwardPlansDistinct(job, init, types, board, prizes);
      var before := AwardPlans(job, init, types, board, prizes).puts;
      forall i | 0 <= i < |before| ensures before[i].id.key.AwardKey? && before[i].id.key.worker != last.worker {
        AwardPlansKeys(job, init, types, board, prizes, before[i]);
        var a :| a in init && a.worker == before[i].id.key.worker;
        var j :| 0 <= j < n && awards[j] == a;
      }
    }
  }

  lemma RowPlanChecks(before: seq<Row>, r: Row)
    requires RowPlan(before, r).error.None?
    ensures ValidRow(r) && forall i :: 0 <= i < |before| ==> before[i].score.worker != r.score.worker
  {
  }

  lemma RowPlansSnoc(rows: seq<Row>)
    requires rows != [] && RowPlans(rows).error.None?
    ensures RowPlans(rows[..|rows| - 1]).error.None? && RowPlan(rows[..|rows| - 1], rows[|rows| - 1]).error.None?
  {
    hide RowPlan;
  }

  lemma OneMoreRow(rows: seq<Row>, r: Row)
    requires ValidRow(r) && forall i :: 0 <= i < |rows| ==> ValidRow(rows[i]) && rows[i].score.worker != r.score.worker
    requires forall i, j :: 0 <= i < j < |rows| ==> rows[i].score.worker != rows[j].score.worker
    ensures forall i :: 0 <= i < |rows| + 1 ==> ValidRow((rows + [r])[i])
    ensures forall i, j :: 0 <= i < j < |rows| + 1 ==> (rows + [r])[i].score.worker != (rows + [r])[j].score.worker
  {
    hide *;
  }

  lemma {:induction false} RowPlansCheck(rows: seq<Row>)
    requires RowPlans(rows).error.None?
    ensures forall i :: 0 <= i < |rows| ==> ValidRow(rows[i])
    ensures forall i, j :: 0 <= i < j < |rows| ==> rows[i].score.worker != rows[j].score.worker
  {
    hide *;
    if rows != [] {
      var n := |rows| - 1;
      RowPlansSnoc(rows);
      RowPlansCheck(rows[..n]);
      RowPlanChecks(rows[..n], rows[n]);
      OneMoreRow(rows[..n], rows[n]);
      assert rows[..n] + [rows[n]] == rows;
    }
  }

  lemma {:induction false} RowWorkersAt(rows: seq<Row>, i: nat)
    requires i < |rows|
    ensures |RowWorkers(rows)| == |rows| && RowWorkers(rows)[i] == rows[i].score.worker
  {
    var n := |rows| - 1;
    if i < n {
      RowWorkersAt(rows[..n], i);
    } else if n > 0 {
      RowWorkersAt(rows[..n], 0);
    }
  }

  /** Valid rows give at most one award per worker and board. */
  lemma BoardAwardsDistinct(rows: seq<Row>, prizes: PrizeSchedule, board: Board)
    requires forall i, j :: 0 <= i < j < |rows| ==> rows[i].score.worker != rows[j].score.worker
    ensures DistinctAwards(BoardAwards(rows, prizes, board))
  {
    var awards := BoardAwards(rows, prizes, board);
    var ws, rs := AwardWorkers(awards), RowWorkers(rows);
    BoardsCoverWorkers(rows, prizes, board);
    forall i, j | 0 <= i < j < |awards| ensures awards[i].worker != awards[j].worker {
      forall p, q | 0 <= p < q < |rs| ensures rs[p] != rs[q] {
        RowWorkersLength(rows);
        RowWorkersAt(rows, p);
        RowWorkersAt(rows, q);
      }
      DistinctCount(rs, ws[i]);
      RepeatCount(ws, i, j);
    }
  }

  lemma {:induction false} RowWorkersLength(rows: seq<Row>)
    ensures |RowWorkers(rows)| == |rows|
  {
    if rows != [] { RowWorkersLength(rows[..|rows| - 1]); }
  }

  predicate BoardsUsable(data: SourceData) {
    && ValidPrizes(data.prizes.beautician) && ValidPrizes(data.prizes.rider)
    && RowPlans(data.beauticians).error.None? && RowPlans(RiderRows(data.riders)).error.None?
  }

  lemma ChainShape(x: Plan, y: Plan, a: Plan, b: Plan)
    requires x.puts == [] && y.puts == [] && a.error.None? && b.error.None?
    ensures var p := Then(Then(Then(x, y), a), b);
            && (p.error.None? <==> x.error.None? && y.error.None?)
            && p.puts == if x.error.None? && y.error.None? then a.puts + b.puts else []
  {
  }

  lemma LeaderboardShape(job: Job, data: SourceData)
    ensures LeaderboardSection(job, data).error.None? <==> BoardsUsable(data)
    ensures LeaderboardSection(job, data).puts ==
            if BoardsUsable(data) then BeauticianAwardPlans(job, data).puts + RiderAwardPlans(job, data).puts else []
  {
    ChainShape(RowPlans(data.beauticians), RowPlans(RiderRows(data.riders)),
               BeauticianAwardPlans(job, data), RiderAwardPlans(job, data));
  }

  lemma LeaderboardSectionDistinct(job: Job, data: SourceData)
    ensures DistinctKeys(LeaderboardSection(job, data).puts)
    ensures forall e :: e in LeaderboardSection(job, data).puts ==> e.id.key.AwardKey?
  {
    LeaderboardShape(job, data);
    if BoardsUsable(data) {
      var riders := RiderRows(data.riders);
      RowPlansCheck(data.beauticians);
      RowPlansCheck(riders);
      BoardAwardsDistinct(data.beauticians, data.prizes, BeauticianBoard);
      BoardAwardsDistinct(riders, data.prizes, RiderBoard);
      var a := BoardAwards(data.beauticians, data.prizes, BeauticianBoard);
      var b := BoardAwards(riders, data.prizes, RiderBoard);
      var p, q := BeauticianAwardPlans(job, data).puts, RiderAwardPlans(job, data).puts;
      AwardPlansDistinct(job, a, map[], BeauticianBoard, data.prizes);
      AwardPlansDistinct(job, b, RiderTypes(data.riders), RiderBoard, data.prizes);
      forall e | e in p ensures e.id.key.AwardKey? && e.id.key.board == BeauticianBoard {
        AwardPlansKeys(job, a, map[], BeauticianBoard, data.prizes, e);
      }
      forall e | e in q ensures e.id.key.AwardKey? && e.id.key.board == RiderBoard {
        AwardPlansKeys(job, b, RiderTypes(data.riders), RiderBoard, data.prizes, e);
      }
      ConcatDistinct(p, q);
    }
  }

  lemma PartsKeys(job: Job, data: SourceData, workers: seq<Id>)
    ensures forall e :: e in OrdersPart(job, data, workers).puts ==>
              (e.id.key.SourceKey? && e.id.key.collection == Orders) || e.id.key.TargetKey?
    ensures forall e :: e in TripsPart(job, data).puts ==> e.id.key.SourceKey? && e.id.key.collection == Trips
    ensures forall e :: e in BoardsPart(job, data).puts ==> e.id.key.AwardKey?
  {
    OrdersSectionKeys(job, data, workers);
    LeaderboardSectionDistinct(job, data);
    forall e | e in TripsPart(job, data).puts ensures e.id.key.SourceKey? && e.id.key.collection == Trips {
      TripPlansKeys(job, LoadTrips(data, job.id.office, job.start, job.end), e);
    }
  }

  /** No two puts of one rebuild share a key, whatever the scope. */
  lemma RebuildDistinct(job: Job, data: SourceData, workers: seq<Id>)
    requires DistinctOrders(data.orders) && DistinctTrips(data.trips)
    requires forall i, j :: 0 <= i < j < |workers| ==> workers[i] != workers[j]
    ensures DistinctKeys(RebuildOf(job, data, workers).puts)
  {
    var orders, rides, boards := OrdersPart(job, data, workers), TripsPart(job, data), BoardsPart(job, data);
    OrdersSectionDistinct(job, data, workers);
    LeaderboardSectionDistinct(job, data);
    SelectedDistinct(data.trips, job.id.office, job.start, job.end);
    TripPlansDistinct(job, LoadTrips(data, job.id.office, job.start, job.end));
    PartsKeys(job, data, workers);
    ThreeParts(orders, rides, boards);
    ConcatDistinct(orders.puts, rides.puts);
    ConcatDistinct(orders.puts + rides.puts, boards.puts);
  }

  lemma IterationDistinct(job: Job, data: SourceData, workers: seq<Id>)
    requires DistinctOrders(data.orders) && DistinctTrips(data.trips) && IsIteration(workers, TargetMap(data.targets))
    ensures DistinctKeys(RebuildOf(job, data, workers).puts)
  {
    RebuildDistinct(job, data, workers);
  }

  /** Two iterations over the same targets write the same bonuses, in whatever order. */
  lemma IterationsWriteAlike(job: Job, data: SourceData, workers: seq<Id>, workers': seq<Id>)
    requires forall w :: w in workers <==> w in workers'
    ensures forall e :: e in RebuildOf(job, data, workers).puts <==> e in RebuildOf(job, data, workers').puts
    ensures RebuildOf(job, data, workers).error == RebuildOf(job, data, workers').error
  {
    var p, p' := OrdersPart(job, data, workers), OrdersPart(job, data, workers');
    OrdersPartsAlike(job, data, workers, workers');
    ThreeParts(p, TripsPart(job, data), BoardsPart(job, data));
    ThreeParts(p', TripsPart(job, data), BoardsPart(job, data));
  }

  lemma OrdersPartsAlike(job: Job, data: SourceData, workers: seq<Id>, workers': seq<Id>)
    requires forall w :: w in workers <==> w in workers'
    ensures forall e :: e in OrdersPart(job, data, workers).puts <==> e in OrdersPart(job, data, workers').puts
    ensures OrdersPart(job, data, workers).error == OrdersPart(job, data, workers').error
  {
    hide OrderPlans, BonusPlans;
    OrdersSectionShape(job, data, workers);
    OrdersSectionShape(job, data, workers');
    if OrdersSection(job, data, workers).error.None? {
      var all, targets := LoadOrders(data.orders, job.id.office, MonthStart(job.start), MonthEnd(job.end)), TargetMap(data.targets);
      forall e ensures e in BonusPlans(job, all, targets, data.target2Bonus, workers).puts
                       <==> e in BonusPlans(job, all, targets, data.target2Bonus, workers').puts {
        BonusPlansWrite(job, all, targets, data.target2Bonus, workers, e);
        BonusPlansWrite(job, all, targets, data.target2Bonus, workers', e);
      }
    }
  }

  /** Rerunning a rebuild on unchanged sources, whichever way either run iterates over its targets,
      changes no entry, inserts nothing and repeats the same conflict count; each put is counted
      once in either run. */
  lemma RebuildReplayIsQuiet(job: Job, data: SourceData, workers: seq<Id>, workers': seq<Id>, m: Entries)
    requires DistinctOrders(data.orders) && DistinctTrips(data.trips)
    requires IsIteration(workers, TargetMap(data.targets)) && IsIteration(workers', TargetMap(data.targets))
    ensures var p, p' := RebuildOf(job, data, workers), RebuildOf(job, data, workers');
            var m' := PutAll(m, p.puts);
            var t, u := PlanStats(m, p, NO_STATS), PlanStats(m', p', NO_STATS);
            && PutAll(m', p'.puts) == m' && p.error == p'.error
            && u.inserted == 0 && u.conflicts == t.conflicts
            && t.inserted + t.kept + t.conflicts == u.kept + u.conflicts == |p.puts|
  {
    hide RebuildOf, PutAll, PlanStats;
    RebuildDistinct(job, data, workers);
    RebuildDistinct(job, data, workers');
    IterationsWriteAlike(job, data, workers, workers');
    PlanReplayIsQuiet(m, RebuildOf(job, data, workers), RebuildOf(job, data, workers'));
  }
}
