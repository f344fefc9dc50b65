/** A clean rebuild passes the audit. */
module Audit {
  import opened Wrappers
  import opened Dates
  import opened Money
  import opened Ranking
  import opened Ledger
  import opened SourcePuts
  import opened Sources
  import opened Plans
  import opened ControlPlane
  import opened RebuildPlan
  import opened RebuildFacts
  import opened AuditPlan
  import opened Sums

  // ----- sums

  lemma {:induction false} SumAtConcat(a: seq<Amount>, b: seq<Amount>, k: AuditKey)
    ensures SumAt(a + b, k) == SumAt(a, k) + SumAt(b, k)
  {
    if b == [] {
      assert a + b == a;
    } else {
      var n := |b| - 1;
      SumAtConcat(a, b[..n], k);
      assert (a + b)[..|a + b| - 1] == a + b[..n];
    }
  }

  /** The weight of a list of entries under the measure `f`. */
  function Total(es: seq<Entry>, f: Entry -> int): int {
    if es == [] then 0 else Total(es[..|es| - 1], f) + f(es[|es| - 1])
  }

  lemma {:induction false} TotalConcat(a: seq<Entry>, b: seq<Entry>, f: Entry -> int)
    ensures Total(a + b, f) == Total(a, f) + Total(b, f)
  {
    if b == [] {
      assert a + b == a;
    } else {
      var n := |b| - 1;
      TotalConcat(a, b[..n], f);
      assert (a + b)[..|a + b| - 1] == a + b[..n];
    }
  }

  lemma {:induction false} LedgerSum(es: seq<Entry>, start: DateKey, end: DateKey, k: AuditKey)
    ensures SumAt(LedgerAmounts(es, start, end), k) == Total(es, Weight(start, end, k))
  {
    if es != [] {
      var n := |es| - 1;
      LedgerSum(es[..n], start, end, k);
      SumAtConcat(LedgerAmounts(es[..n], start, end), LedgerAmount(es[n], start, end), k);
    }
  }

  /** A list of all values of a map weighs what the map weighs. */
  lemma {:induction false} ListWeighsMap(es: seq<Entry>, m: Entries, f: Entry -> int)
    requires forall i, j :: 0 <= i < j < |es| ==> es[i].id != es[j].id
    requires forall i :: 0 <= i < |es| ==> es[i].id in m
    requires forall i :: 0 <= i < |es| ==> f(m[es[i].id]) == f(es[i])
    requires forall k :: k in m ==> exists i :: 0 <= i < |es| && es[i].id == k
    ensures Total(es, f) == MapSum(m, f)
  {
    if es == [] {
      assert forall k :: k !in m;
      assert m == map[];
    } else {
      var n := |es| - 1;
      var init, last := es[..n], es[n];
      assert forall i :: 0 <= i < n ==> init[i] == es[i];
      MapSumRemove(m, f, last.id);
      forall k | k in m - {last.id} ensures exists i :: 0 <= i < |init| && init[i].id == k {
        var i :| 0 <= i < |es| && es[i].id == k;
        assert init[i].id == k;
      }
      ListWeighsMap(init, m - {last.id}, f);
    }
  }

  // ----- the two calculations, document by document

  lemma {:induction false} RevenuesAgree(orders: seq<OrderSource>, targets: Targets, worker: Id, month: int)
    requires forall o :: o in orders ==> !o.deleted
    ensures AuditRevenue(orders, targets, worker, month) == Revenue(orders, targets, worker, month)
    ensures AuditInvalid(orders, targets, worker, month) == MonthInvalid(orders, targets, worker, month)
  {
    if orders != [] {
      assert forall o :: o in orders[..|orders| - 1] ==> o in orders;
      RevenuesAgree(orders[..|orders| - 1], targets, worker, month);
      assert orders[|orders| - 1] in orders;
    }
  }

  /** One put weighs what the audit expects of the same item. */
  lemma ItemWeighs(p: Plan, entry: Entry, amount: Option<real>, enabled: bool, key: AuditKey, start: DateKey, end: DateKey, k: AuditKey)
    requires p == ComponentPlan(entry, amount, enabled) && p.missing == 0
    requires entry.amount == PaiseOf(amount)
    requires LedgerAmount(entry, start, end) == [Amount(key, entry.amount)]
    ensures Item(key, amount, enabled).missing == 0
    ensures SumAt(Item(key, amount, enabled).amounts, k) == Total(p.puts, Weight(start, end, k))
  {
    var one := [Amount(key, PaiseOf(amount))];
    assert one[..0] == [] && SumAt(one, k) == if key == k then PaiseOf(amount) else 0;
    if p.puts != [] {
      assert p.puts[..0] == [];
    } else if ValidAmount(amount) && amount.value == 0.0 {
      assert PaiseOf(amount) == 0;
    }
  }

  lemma ThreeItems(p: Plan, q: Plan, r: Plan)
    requires p.error.None? && q.error.None? && r.error.None?
    ensures var all := Then(Then(Then(Plan([], 1, 0, None), p), q), r);
            all.puts == p.puts + q.puts + r.puts && all.missing == p.missing + q.missing + r.missing
  {
  }

  ghost predicate Weighs(x: Expected, es: seq<Entry>, f: Entry -> int, k: AuditKey) {
    x.missing == 0 && SumAt(x.amounts, k) == Total(es, f)
  }

  lemma NothingWeighs(f: Entry -> int, k: AuditKey)
    ensures Weighs(NO_AMOUNT, [], f, k)
  {
  }

  lemma PlusWeighs(x: Expected, es: seq<Entry>, y: Expected, fs: seq<Entry>, f: Entry -> int, k: AuditKey)
    requires Weighs(x, es, f, k) && Weighs(y, fs, f, k)
    ensures Weighs(Plus(x, y), es + fs, f, k)
  {
    SumAtConcat(x.amounts, y.amounts, k);
    TotalConcat(es, fs, f);
  }

  /** One order with a snapshot, in range: three items on either side. */
  lemma SnapshotWeighs(job: Job, all: seq<OrderSource>, targets: Targets, o: OrderSource, enabled: bool, k: AuditKey)
    requires o.snapshot.Some? && Within(o.date, job.start, job.end) && o.beautician != NIL_ID
    requires enabled == GeneralEnabled(all, targets, o.beautician, o.date)
    requires var office, s := job.id.office, o.snapshot.value;
             Then(Then(Then(Plan([], 1, 0, None),
               ComponentPlan(OrderEntry(office, o, SpecialCommission, s.special), s.special, true)),
               ComponentPlan(OrderEntry(office, o, GeneralCommission, s.general), s.general, enabled)),
               ComponentPlan(OrderEntry(office, o, UpgradeCommission, s.upgrade), s.upgrade, true)).missing == 0
    ensures var office, s := job.id.office, o.snapshot.value;
            Weighs(Plus(Plus(Item(OrderKey(o, SpecialCommission), s.special, true),
                             Item(OrderKey(o, GeneralCommission), s.general, enabled)),
                        Item(OrderKey(o, UpgradeCommission), s.upgrade, true)),
                   Then(Then(Then(Plan([], 1, 0, None),
                     ComponentPlan(OrderEntry(office, o, SpecialCommission, s.special), s.special, true)),
                     ComponentPlan(OrderEntry(office, o, GeneralCommission, s.general), s.general, enabled)),
                     ComponentPlan(OrderEntry(office, o, UpgradeCommission, s.upgrade), s.upgrade, true)).puts,
                   Weight(job.start, job.end, k), k)
  {
    hide ComponentPlan, Item, SumAt, Total, Weight, Then, Plus;
    var office, s, f := job.id.office, o.snapshot.value, Weight(job.start, job.end, k);
    var special, general, upgrade := OrderEntry(office, o, SpecialCommission, s.special),
      OrderEntry(office, o, GeneralCommission, s.general), OrderEntry(office, o, UpgradeCommission, s.upgrade);
    var p, q, r := ComponentPlan(special, s.special, true), ComponentPlan(general, s.general, enabled), ComponentPlan(upgrade, s.upgrade, true);
    ComponentPlanShape(special, s.special, true);
    ComponentPlanShape(general, s.general, enabled);
    ComponentPlanShape(upgrade, s.upgrade, true);
    ThreeItems(p, q, r);
    ItemWeighs(p, special, s.special, true, OrderKey(o, SpecialCommission), job.start, job.end, k);
    ItemWeighs(q, general, s.general, enabled, OrderKey(o, GeneralCommission), job.start, job.end, k);
    ItemWeighs(r, upgrade, s.upgrade, true, OrderKey(o, UpgradeCommission), job.start, job.end, k);
    PlusWeighs(Item(OrderKey(o, SpecialCommission), s.special, true), p.puts, Item(OrderKey(o, GeneralCommission), s.general, enabled), q.puts, f, k);
    PlusWeighs(Plus(Item(OrderKey(o, SpecialCommission), s.special, true), Item(OrderKey(o, GeneralCommission), s.general, enabled)),
               p.puts + q.puts, Item(OrderKey(o, UpgradeCommission), s.upgrade, true), r.puts, f, k);
  }

  lemma OrderWeighs(job: Job, all: seq<OrderSource>, targets: Targets, o: OrderSource, k: AuditKey)
    requires forall q :: q in all ==> !q.deleted
    requires !o.deleted && o.id != NIL_ID && o.beautician != NIL_ID
    requires OrderPlan(job, all, targets, o).missing == 0
    ensures Weighs(ExpectedOrder(all, targets, job.start, job.end, o), OrderPlan(job, all, targets, o).puts,
                   Weight(job.start, job.end, k), k)
  {
    RevenuesAgree(all, targets, o.beautician, o.date.month);
    var enabled := GeneralEnabled(all, targets, o.beautician, o.date);
    assert enabled == AuditGeneralEnabled(all, targets, o);
    if o.completed && ValidDate(o.date) && Within(o.date, job.start, job.end) && o.snapshot.Some? {
      SnapshotWeighs(job, all, targets, o, enabled, k);
    }
  }

  lemma OrderPlansSnoc(job: Job, all: seq<OrderSource>, targets: Targets, orders: seq<OrderSource>)
    requires orders != []
    ensures var p, init, last := OrderPlans(job, all, targets, orders), OrderPlans(job, all, targets, orders[..|orders| - 1]), OrderPlan(job, all, targets, orders[|orders| - 1]);
            p.puts == init.puts + last.puts && p.missing == init.missing + last.missing
  {
    hide OrderPlan;
  }

  lemma {:induction false} OrdersWeigh(job: Job, all: seq<OrderSource>, targets: Targets, orders: seq<OrderSource>, k: AuditKey)
    requires forall q :: q in all ==> !q.deleted
    requires forall o :: o in orders ==> !o.deleted && o.id != NIL_ID && o.beautician != NIL_ID
    requires OrderPlans(job, all, targets, orders).missing == 0
    ensures Weighs(ExpectedOrders(all, targets, job.start, job.end, orders), OrderPlans(job, all, targets, orders).puts,
                   Weight(job.start, job.end, k), k)
  {
    if orders == [] {
      NothingWeighs(Weight(job.start, job.end, k), k);
    } else {
      hide Weighs, ExpectedOrder, OrderPlan, OrderPlans, Weight;
      var init, last := orders[..|orders| - 1], orders[|orders| - 1];
      OrderPlansSnoc(job, all, targets, orders);
      assert forall o :: o in init ==> o in orders;
      assert last in orders;
      OrdersWeigh(job, all, targets, init, k);
      OrderWeighs(job, all, targets, last, k);
      PlusWeighs(ExpectedOrders(all, targets, job.start, job.end, init), OrderPlans(job, all, targets, init).puts,
                 ExpectedOrder(all, targets, job.start, job.end, last), OrderPlan(job, all, targets, last).puts,
                 Weight(job.start, job.end, k), k);
    }
  }

  // ----- bonuses: each side iterates over the target map in its own order

  lemma SumAtOne(key: AuditKey, paise: int, k: AuditKey)
    ensures SumAt([Amount(key, paise)], k) == if key == k then paise else 0
  {
    assert [Amount(key, paise)][..0] == [];
  }

  lemma ExpectedBonusOne(all: seq<OrderSource>, targets: Targets, end: DateKey, bonus: real, w: Id, k: AuditKey)
    ensures ExpectedBonus(all, targets, end, bonus, w).missing == 0
    ensures SumAt(ExpectedBonus(all, targets, end, bonus, w).amounts, k) ==
            if k == BonusKeyOf(w) && AuditBonusEarned(all, targets, w, end.month) then MoneyToPaise(bonus) else 0
  {
    SumAtOne(BonusKeyOf(w), MoneyToPaise(bonus), k);
  }

  lemma {:induction false} ExpectedBonusAt(all: seq<OrderSource>, targets: Targets, end: DateKey, bonus: real, workers: seq<Id>, k: AuditKey)
    requires forall i, j :: 0 <= i < j < |workers| ==> workers[i] != workers[j]
    ensures ExpectedBonuses(all, targets, end, bonus, workers).missing == 0
    ensures SumAt(ExpectedBonuses(all, targets, end, bonus, workers).amounts, k) ==
            if k.worker in workers then SumAt(ExpectedBonus(all, targets, end, bonus, k.worker).amounts, k) else 0
  {
    if workers != [] {
      var n := |workers| - 1;
      var init, w := workers[..n], workers[n];
      assert workers == init + [w] && w !in init;
      ExpectedBonusAt(all, targets, end, bonus, init, k);
      var before, own := ExpectedBonuses(all, targets, end, bonus, init), ExpectedBonus(all, targets, end, bonus, w);
      SumAtConcat(before.amounts, own.amounts, k);
      if w != k.worker {
        ExpectedBonusOne(all, targets, end, bonus, w, k);
      }
    }
  }

  lemma {:induction false} WrittenBonusAt(job: Job, all: seq<OrderSource>, targets: Targets, bonus: real, workers: seq<Id>, k: AuditKey)
    requires forall i, j :: 0 <= i < j < |workers| ==> workers[i] != workers[j]
    requires forall i :: 0 <= i < |workers| ==> workers[i] != NIL_ID
    ensures Total(BonusPlans(job, all, targets, bonus, workers).puts, Weight(job.start, job.end, k)) ==
            if k == BonusKeyOf(k.worker) && k.worker in workers && BonusEarned(all, targets, k.worker, job.end.month)
            then MoneyToPaise(bonus) else 0
  {
    if workers != [] {
      var n := |workers| - 1;
      var init, w := workers[..n], workers[n];
      WrittenBonusAt(job, all, targets, bonus, init, k);
      assert workers == init + [w];
      assert w !in init;
      var own := BonusPlan(job, all, targets, bonus, w).puts;
      TotalConcat(BonusPlans(job, all, targets, bonus, init).puts, own, Weight(job.start, job.end, k));
      BonusWeighs(job, all, targets, bonus, w, k);
    }
  }

  lemma BonusWeighs(job: Job, all: seq<OrderSource>, targets: Targets, bonus: real, w: Id, k: AuditKey)
    requires w != NIL_ID
    ensures Total(BonusPlan(job, all, targets, bonus, w).puts, Weight(job.start, job.end, k)) ==
            if k == BonusKeyOf(w) && BonusEarned(all, targets, w, job.end.month) then MoneyToPaise(bonus) else 0
  {
    var own := BonusPlan(job, all, targets, bonus, w).puts;
    if own != [] {
      var e := own[0];
      assert own == [e] && own[..0] == [];
      assert LedgerAmount(e, job.start, job.end) == [Amount(BonusKeyOf(w), MoneyToPaise(bonus))];
      SumAtOne(BonusKeyOf(w), MoneyToPaise(bonus), k);
      assert Total(own, Weight(job.start, job.end, k)) == Weight(job.start, job.end, k)(e);
    } else if bonus == 0.0 {
      assert MoneyToPaise(bonus) == 0;
    }
  }

  // ----- trips

  lemma TripWeighs(job: Job, t: TripSource, k: AuditKey)
    requires job.scope != PetrolOnly && !t.deleted && t.finished && Within(t.date, job.start, job.end)
    requires TripWorker(t).Some? ==> TripWorker(t).value.0 != NIL_ID
    requires TripPlan(job, t).missing == 0
    ensures Weighs(ExpectedTrip(job.start, job.end, t), TripPlan(job, t).puts, Weight(job.start, job.end, k), k)
  {
    if ValidDate(t.date) && TripWorker(t).Some? && t.snapshot.Some? {
      var (worker, workerType) := TripWorker(t).value;
      var (commission, petrol) := EffectivePayables(t);
      var ride := TripEntry(job.id.office, t, TripCommission, CommissionBucket, commission);
      var fuel := TripEntry(job.id.office, t, Petrol, PetrolBucket, petrol);
      var p, q := ComponentPlan(ride, commission, true), ComponentPlan(fuel, petrol, true);
      var x, y := AuditKey(worker, workerType, TripScope, TripCommission, CommissionBucket),
        AuditKey(worker, workerType, TripScope, Petrol, PetrolBucket);
      TwoItems(p, q);
      ItemWeighs(p, ride, commission, true, x, job.start, job.end, k);
      ItemWeighs(q, fuel, petrol, true, y, job.start, job.end, k);
      PlusWeighs(Item(x, commission, true), p.puts, Item(y, petrol, true), q.puts, Weight(job.start, job.end, k), k);
    }
  }

  lemma TwoItems(p: Plan, q: Plan)
    requires p.error.None? && q.error.None?
    ensures var all := Then(Then(Plan([], 1, 0, None), p), q);
            all.puts == p.puts + q.puts && all.missing == p.missing + q.missing
  {
  }

  lemma {:induction false} TripsWeigh(job: Job, trips: seq<TripSource>, k: AuditKey)
    requires job.scope != PetrolOnly
    requires forall t :: t in trips ==> !t.deleted && t.finished && Within(t.date, job.start, job.end)
    requires forall t :: t in trips && TripWorker(t).Some? ==> TripWorker(t).value.0 != NIL_ID
    requires TripPlans(job, trips).missing == 0
    ensures Weighs(ExpectedTrips(job.start, job.end, trips), TripPlans(job, trips).puts, Weight(job.start, job.end, k), k)
  {
    if trips != [] {
      var init, last := trips[..|trips| - 1], trips[|trips| - 1];
      assert forall t :: t in init ==> t in trips;
      assert last in trips;
      TripsWeigh(job, init, k);
      TripWeighs(job, last, k);
      PlusWeighs(ExpectedTrips(job.start, job.end, init), TripPlans(job, init).puts,
                 ExpectedTrip(job.start, job.end, last), TripPlan(job, last).puts, Weight(job.start, job.end, k), k);
    }
  }

  // ----- awards

  lemma AwardWeighs(job: Job, a: Award, types: map<Id, WorkerType>, board: Board, prizes: PrizeSchedule, k: AuditKey)
    requires a.worker != NIL_ID
    ensures Weighs(Expected([Amount(AwardKeyOf(a, types, board), MoneyToPaise(a.bonus))], 0),
                   AwardPlan(job, a, TypeOf(types, board, a.worker), board, prizes).puts, Weight(job.start, job.end, k), k)
  {
    var own := AwardPlan(job, a, TypeOf(types, board, a.worker), board, prizes).puts;
    var one := [Amount(AwardKeyOf(a, types, board), MoneyToPaise(a.bonus))];
    assert one[..0] == [];
    if own != [] {
      assert own[..0] == [];
      assert LedgerAmount(own[0], job.start, job.end) == one;
    } else {
      assert MoneyToPaise(a.bonus) == 0;
    }
  }

  lemma {:induction false} AwardsWeigh(job: Job, awards: seq<Award>, types: map<Id, WorkerType>, board: Board, prizes: PrizeSchedule, k: AuditKey)
    requires forall a :: a in awards ==> a.worker != NIL_ID
    ensures Weighs(ExpectedAwards(awards, types, board), AwardPlans(job, awards, types, board, prizes).puts,
                   Weight(job.start, job.end, k), k)
  {
    if awards != [] {
      var init, a := awards[..|awards| - 1], awards[|awards| - 1];
      assert forall b :: b in init ==> b in awards;
      assert a in awards;
      AwardsWeigh(job, init, types, board, prizes, k);
      AwardWeighs(job, a, types, board, prizes, k);
      PlusWeighs(ExpectedAwards(init, types, board), AwardPlans(job, init, types, board, prizes).puts,
                 Expected([Amount(AwardKeyOf(a, types, board), MoneyToPaise(a.bonus))], 0),
                 AwardPlan(job, a, TypeOf(types, board, a.worker), board, prizes).puts, Weight(job.start, job.end, k), k);
    }
  }

  /** Valid rows only award workers that exist. */
  lemma AwardedWorkersExist(rows: seq<Row>, prizes: PrizeSchedule, board: Board)
    requires forall i :: 0 <= i < |rows| ==> rows[i].score.worker != NIL_ID
    ensures forall a :: a in BoardAwards(rows, prizes, board) ==> a.worker != NIL_ID
  {
    var awards := BoardAwards(rows, prizes, board);
    BoardsCoverWorkers(rows, prizes, board);
    forall a | a in awards ensures a.worker != NIL_ID {
      var i :| 0 <= i < |awards| && awards[i] == a;
      assert AwardWorkers(awards)[i] == a.worker;
      assert a.worker in multiset(AwardWorkers(awards));
      assert a.worker in RowWorkers(rows);
      var j :| 0 <= j < |RowWorkers(rows)| && RowWorkers(rows)[j] == a.worker;
      RowWorkersLength(rows);
      RowWorkersAt(rows, j);
    }
  }

  // ----- every put of the rebuild is read back

  /** Where a rebuild's puts live: in the office, readable by the audit, at their own content. */
  ghost predicate ReadablePut(e: Entry, job: Job) {
    AuditReads(e, job.id.office, job.start, job.end) && e == Content(e)
  }

  lemma OrderPutsReadable(job: Job, data: SourceData, workers: seq<Id>, e: Entry)
    requires ValidRange(job.start, job.end) && e in OrdersSection(job, data, workers).puts
    ensures ReadablePut(e, job)
  {
    var all, targets := LoadOrders(data.orders, job.id.office, MonthStart(job.start), MonthEnd(job.end)), TargetMap(data.targets);
    OrdersSectionShape(job, data, workers);
    OrderPlansWrite(job, all, targets, all, e);
    BonusPlansWrite(job, all, targets, data.target2Bonus, workers, e);
    if o, k :| o in all && RebuildWrite(job, all, targets, o, k) && e == EntryOf(job.id.office, o, k) {
      assert OrderComponent(k);
    }
  }

  lemma TripEntryReadable(job: Job, t: TripSource, c: Component, bucket: Bucket, amount: Option<real>, e: Entry)
    requires ValidRange(job.start, job.end) && Within(t.date, job.start, job.end) && (c == TripCommission || c == Petrol)
    requires e in TripWrite(job, t, c, bucket, amount)
    ensures ReadablePut(e, job)
  {
    hide TripWorker, MoneyToPaise;
  }

  lemma TripPutReadable(job: Job, t: TripSource, e: Entry)
    requires ValidRange(job.start, job.end) && e in TripPlan(job, t).puts && Within(t.date, job.start, job.end)
    ensures ReadablePut(e, job)
  {
    hide EffectivePayables, TripPlan;
    var (commission, petrol) := EffectivePayables(t);
    TripPlanParts(job, t);
    if e in TripWrite(job, t, TripCommission, CommissionBucket, commission) {
      TripEntryReadable(job, t, TripCommission, CommissionBucket, commission, e);
    } else {
      TripEntryReadable(job, t, Petrol, PetrolBucket, petrol, e);
    }
  }

  lemma {:induction false} TripPutsReadable(job: Job, trips: seq<TripSource>, e: Entry)
    requires ValidRange(job.start, job.end) && e in TripPlans(job, trips).puts
    requires forall t :: t in trips ==> Within(t.date, job.start, job.end)
    ensures ReadablePut(e, job)
  {
    var init, last := trips[..|trips| - 1], trips[|trips| - 1];
    assert last in trips && forall t :: t in init ==> t in trips;
    if e in TripPlans(job, init).puts {
      TripPutsReadable(job, init, e);
    } else {
      TripPutReadable(job, last, e);
    }
  }

  lemma {:induction false} AwardPutsReadable(job: Job, awards: seq<Award>, types: map<Id, WorkerType>, board: Board, prizes: PrizeSchedule, e: Entry)
    requires ValidRange(job.start, job.end) && e in AwardPlans(job, awards, types, board, prizes).puts
    ensures ReadablePut(e, job)
  {
    var init := awards[..|awards| - 1];
    if e in AwardPlans(job, init, types, board, prizes).puts {
      AwardPutsReadable(job, init, types, board, prizes, e);
    }
  }

  lemma {:induction false} RatedTrips(trips: seq<TripSource>, office: Id, start: DateKey, end: DateKey)
    ensures forall t :: t in SelectTrips(trips, office, start, end) ==> t in trips && TripMatches(t, office, start, end)
  {
    if trips != [] {
      RatedTrips(trips[..|trips| - 1], office, start, end);
    }
  }

  /** Hydration changes only the office rates. */
  lemma LoadedTrips(data: SourceData, office: Id, start: DateKey, end: DateKey, t: TripSource)
    requires t in LoadTrips(data, office, start, end)
    ensures TripMatches(t, office, start, end)
    ensures exists u :: u in data.trips && TripWorker(u) == TripWorker(t)
  {
    RatedTrips(data.trips, office, start, end);
    var rows, loaded := SelectTrips(data.trips, office, start, end), LoadTrips(data, office, start, end);
    var i :| 0 <= i < |loaded| && loaded[i] == t;
    assert rows[i] in data.trips && TripWorker(rows[i]) == TripWorker(t);
  }

  lemma PutsReadable(job: Job, data: SourceData, workers: seq<Id>, e: Entry)
    requires ValidRange(job.start, job.end) && e in RebuildOf(job, data, workers).puts
    ensures ReadablePut(e, job)
  {
    var p, q, r := OrdersPart(job, data, workers), TripsPart(job, data), BoardsPart(job, data);
    ThreeParts(p, q, r);
    if e in p.puts {
      OrderPutsReadable(job, data, workers, e);
    } else if e in q.puts {
      var trips := LoadTrips(data, job.id.office, job.start, job.end);
      forall t | t in trips ensures Within(t.date, job.start, job.end) { LoadedTrips(data, job.id.office, job.start, job.end, t); }
      TripPutsReadable(job, trips, e);
    } else {
      LeaderboardShape(job, data);
      var a := BoardAwards(data.beauticians, data.prizes, BeauticianBoard);
      var b := BoardAwards(RiderRows(data.riders), data.prizes, RiderBoard);
      if e in BeauticianAwardPlans(job, data).puts {
        AwardPutsReadable(job, a, map[], BeauticianBoard, data.prizes, e);
      } else {
        AwardPutsReadable(job, b, RiderTypes(data.riders), RiderBoard, data.prizes, e);
      }
    }
  }

  // ----- no conflict means every put is stored as it is

  lemma {:induction false} NoConflictAnywhere(m: Entries, es: seq<Entry>, stats: Stats, j: nat)
    requires DistinctKeys(es) && j < |es| && Tally(m, es, stats).conflicts == 0
    ensures PutOutcome(m, es[j]) != Conflict
  {
    var n := |es| - 1;
    assert forall i :: 0 <= i < n ==> es[..n][i] == es[i];
    if j == n {
      PutsElsewhere(m, es[..n], es[n].id);
    } else {
      NoConflictAnywhere(m, es[..n], stats, j);
    }
  }

  /** A ledger with no source projections of the office. */
  ghost predicate NoProjections(m: Entries, office: Id) {
    forall k :: k in m ==> m[k].id == k && (k.office == office ==> !SourceComponent(m[k].component))
  }

  lemma PutIsStored(m: Entries, es: seq<Entry>, job: Job, stats: Stats, j: nat)
    requires DistinctKeys(es) && j < |es| && Tally(m, es, stats).conflicts == 0
    requires NoProjections(m, job.id.office) && ReadablePut(es[j], job)
    ensures es[j].id in PutAll(m, es) && Content(PutAll(m, es)[es[j].id]) == es[j]
  {
    NoConflictAnywhere(m, es, stats, j);
    PutsActAlone(m, es, j);
  }

  function Visible(m: Entries, job: Job): Entries {
    map j | j in m && AuditReads(m[j], job.id.office, job.start, job.end) :: m[j]
  }

  lemma PutIsVisible(m: Entries, es: seq<Entry>, job: Job, stats: Stats, i: nat, k: AuditKey)
    requires DistinctKeys(es) && i < |es| && Tally(m, es, stats).conflicts == 0
    requires NoProjections(m, job.id.office) && ReadablePut(es[i], job)
    ensures var v := Visible(PutAll(m, es), job);
            es[i].id in v && Weight(job.start, job.end, k)(v[es[i].id]) == Weight(job.start, job.end, k)(es[i])
  {
    PutIsStored(m, es, job, stats, i);
    var stored := PutAll(m, es)[es[i].id];
    assert LedgerAmount(stored, job.start, job.end) == LedgerAmount(es[i], job.start, job.end);
  }

  lemma VisibleIsPut(m: Entries, es: seq<Entry>, job: Job, j: EntryKey)
    requires NoProjections(m, job.id.office) && j in Visible(PutAll(m, es), job)
    requires forall i :: 0 <= i < |es| ==> es[i].id.office == job.id.office
    ensures exists i :: 0 <= i < |es| && es[i].id == j
  {
    if forall i :: 0 <= i < |es| ==> es[i].id != j {
      PutsElsewhere(m, es, j);
    }
  }

  lemma PutsWeighVisible(m: Entries, es: seq<Entry>, job: Job, stats: Stats, k: AuditKey)
    requires DistinctKeys(es) && Tally(m, es, stats).conflicts == 0 && NoProjections(m, job.id.office)
    requires forall j :: 0 <= j < |es| ==> ReadablePut(es[j], job)
    ensures Total(es, Weight(job.start, job.end, k)) == MapSum(Visible(PutAll(m, es), job), Weight(job.start, job.end, k))
  {
    var v, f := Visible(PutAll(m, es), job), Weight(job.start, job.end, k);
    forall i | 0 <= i < |es| ensures es[i].id in v && f(v[es[i].id]) == f(es[i]) {
      PutIsVisible(m, es, job, stats, i, k);
    }
    forall j | j in v ensures exists i :: 0 <= i < |es| && es[i].id == j {
      VisibleIsPut(m, es, job, j);
    }
    ListWeighsMap(es, v, f);
  }

  /** The audit's ledger side weighs exactly what the rebuild put. */
  lemma ReadWeighsPuts(m: Entries, es: seq<Entry>, job: Job, stats: Stats, read: seq<Entry>, k: AuditKey)
    requires DistinctKeys(es) && Tally(m, es, stats).conflicts == 0 && NoProjections(m, job.id.office)
    requires forall j :: 0 <= j < |es| ==> ReadablePut(es[j], job)
    requires IsLedgerRead(read, PutAll(m, es), job.id.office, job.start, job.end)
    ensures SumAt(LedgerAmounts(read, job.start, job.end), k) == Total(es, Weight(job.start, job.end, k))
  {
    PutsWeighVisible(m, es, job, stats, k);
    LedgerSum(read, job.start, job.end, k);
    ListWeighsMap(read, Visible(PutAll(m, es), job), Weight(job.start, job.end, k));
  }

  // ----- the whole calculation

  /** The documents a clean audit relies on: real worker and order ids. */
  ghost predicate IdsExist(data: SourceData) {
    && (forall o :: o in data.orders ==> o.id != NIL_ID && o.beautician != NIL_ID)
    && (forall t :: t in data.trips && TripWorker(t).Some? ==> TripWorker(t).value.0 != NIL_ID)
  }

  lemma ChainWeighs(x: Expected, xs: seq<Entry>, y: Expected, ys: seq<Entry>, z: Expected, zs: seq<Entry>,
                    w: Expected, ws: seq<Entry>, f: Entry -> int, k: AuditKey)
    requires Weighs(x, xs, f, k) && Weighs(y, ys, f, k) && Weighs(z, zs, f, k) && Weighs(w, ws, f, k)
    ensures Weighs(Plus(Plus(Plus(x, y), z), w), xs + ys + (zs + ws), f, k)
  {
    PlusWeighs(x, xs, y, ys, f, k);
    PlusWeighs(Plus(x, y), xs + ys, z, zs, f, k);
    PlusWeighs(Plus(Plus(x, y), z), xs + ys + zs, w, ws, f, k);
    assert xs + ys + (zs + ws) == xs + ys + zs + ws;
  }

  lemma FinishedRebuildIsUsable(job: Job, data: SourceData, workers: seq<Id>)
    requires job.scope == AllEarnings && RebuildOf(job, data, workers).error.None? && RebuildOf(job, data, workers).missing == 0
    ensures AuditUsable(data, job.start, job.end) && BoardsUsable(data)
    ensures OrdersSection(job, data, workers).error.None? && OrdersSection(job, data, workers).missing == 0
    ensures TripsPart(job, data).missing == 0
    ensures RebuildOf(job, data, workers).puts ==
            OrdersSection(job, data, workers).puts + TripsPart(job, data).puts
            + (BeauticianAwardPlans(job, data).puts + RiderAwardPlans(job, data).puts)
  {
    ThreeParts(OrdersPart(job, data, workers), TripsPart(job, data), BoardsPart(job, data));
    OrdersSectionShape(job, data, workers);
    LeaderboardShape(job, data);
  }

  lemma SectionsWeigh(job: Job, data: SourceData, workers: seq<Id>, order: seq<Id>, k: AuditKey)
    requires job.scope == AllEarnings && IdsExist(data)
    requires RebuildOf(job, data, workers).error.None? && RebuildOf(job, data, workers).missing == 0
    requires IsIteration(workers, TargetMap(data.targets)) && IsIteration(order, TargetMap(data.targets))
    ensures ExpectedOf(data, job.id.office, job.start, job.end, order).Some?
    ensures Weighs(ExpectedOf(data, job.id.office, job.start, job.end, order).value, RebuildOf(job, data, workers).puts,
                   Weight(job.start, job.end, k), k)
  {
    FinishedRebuildIsUsable(job, data, workers);
    OrdersAndBonusesWeigh(job, data, workers, order, k);
    TripsPartWeighs(job, data, k);
    BoardsWeigh(job, data, k);
    ChainWeighs(ExpectedOrderSide(data, job.id.office, job.start, job.end, order), OrdersSection(job, data, workers).puts,
                ExpectedTrips(job.start, job.end, LoadTrips(data, job.id.office, job.start, job.end)), TripsPart(job, data).puts,
                ExpectedBeauticianAwards(data), BeauticianAwardPlans(job, data).puts,
                ExpectedRiderAwards(data), RiderAwardPlans(job, data).puts, Weight(job.start, job.end, k), k);
  }

  lemma OrdersAndBonusesWeigh(job: Job, data: SourceData, workers: seq<Id>, order: seq<Id>, k: AuditKey)
    requires IdsExist(data) && OrdersSection(job, data, workers).error.None? && OrdersSection(job, data, workers).missing == 0
    requires IsIteration(workers, TargetMap(data.targets)) && IsIteration(order, TargetMap(data.targets))
    ensures Weighs(ExpectedOrderSide(data, job.id.office, job.start, job.end, order), OrdersSection(job, data, workers).puts,
                   Weight(job.start, job.end, k), k)
  {
    var all, targets := LoadOrders(data.orders, job.id.office, MonthStart(job.start), MonthEnd(job.end)), TargetMap(data.targets);
    OrdersSectionShape(job, data, workers);
    forall o | o in all ensures o in data.orders && !o.deleted {
      LoadedOrders(data.orders, job.id.office, MonthStart(job.start), MonthEnd(job.end), o);
    }
    OrdersWeigh(job, all, targets, all, k);
    BonusesWeigh(job, all, data, workers, order, k);
    PlusWeighs(ExpectedOrders(all, targets, job.start, job.end, all), OrderPlans(job, all, targets, all).puts,
               ExpectedBonuses(all, targets, job.end, data.target2Bonus, order),
               BonusPlans(job, all, targets, data.target2Bonus, workers).puts, Weight(job.start, job.end, k), k);
  }

  lemma BonusesWeigh(job: Job, all: seq<OrderSource>, data: SourceData, workers: seq<Id>, order: seq<Id>, k: AuditKey)
    requires ValidTargets(data.targets) && forall o :: o in all ==> !o.deleted
    requires IsIteration(workers, TargetMap(data.targets)) && IsIteration(order, TargetMap(data.targets))
    ensures Weighs(ExpectedBonuses(all, TargetMap(data.targets), job.end, data.target2Bonus, order),
                   BonusPlans(job, all, TargetMap(data.targets), data.target2Bonus, workers).puts, Weight(job.start, job.end, k), k)
  {
    var targets := TargetMap(data.targets);
    TargetWorkersExist(data.targets);
    ExpectedBonusAt(all, targets, job.end, data.target2Bonus, order, k);
    ExpectedBonusOne(all, targets, job.end, data.target2Bonus, k.worker, k);
    WrittenBonusAt(job, all, targets, data.target2Bonus, workers, k);
    RevenuesAgree(all, targets, k.worker, job.end.month);
    assert k.worker in workers <==> k.worker in targets;
    assert k.worker in order <==> k.worker in targets;
  }

  lemma {:induction false} TargetWorkersExist(ts: seq<WorkerTarget>)
    requires ValidTargets(ts)
    ensures NIL_ID !in TargetMap(ts)
  {
    if ts != [] {
      TargetWorkersExist(ts[..|ts| - 1]);
    }
  }

  lemma TripsPartWeighs(job: Job, data: SourceData, k: AuditKey)
    requires job.scope == AllEarnings && IdsExist(data) && TripsPart(job, data).missing == 0
    ensures Weighs(ExpectedTrips(job.start, job.end, LoadTrips(data, job.id.office, job.start, job.end)),
                   TripsPart(job, data).puts, Weight(job.start, job.end, k), k)
  {
    var trips := LoadTrips(data, job.id.office, job.start, job.end);
    forall t | t in trips
      ensures TripMatches(t, job.id.office, job.start, job.end)
      ensures TripWorker(t).Some? ==> TripWorker(t).value.0 != NIL_ID
    {
      LoadedTrips(data, job.id.office, job.start, job.end, t);
    }
    TripsWeigh(job, trips, k);
  }

  lemma BoardsWeigh(job: Job, data: SourceData, k: AuditKey)
    requires BoardsUsable(data)
    ensures Weighs(ExpectedBeauticianAwards(data),
                   BeauticianAwardPlans(job, data).puts, Weight(job.start, job.end, k), k)
    ensures Weighs(ExpectedRiderAwards(data),
                   RiderAwardPlans(job, data).puts, Weight(job.start, job.end, k), k)
  {
    RowPlansCheck(data.beauticians);
    RowPlansCheck(RiderRows(data.riders));
    AwardedWorkersExist(data.beauticians, data.prizes, BeauticianBoard);
    AwardedWorkersExist(RiderRows(data.riders), data.prizes, RiderBoard);
    AwardsWeigh(job, BoardAwards(data.beauticians, data.prizes, BeauticianBoard), map[], BeauticianBoard, data.prizes, k);
    AwardsWeigh(job, BoardAwards(RiderRows(data.riders), data.prizes, RiderBoard), RiderTypes(data.riders), RiderBoard, data.prizes, k);
  }

  ghost predicate CleanRun(job: Job, data: SourceData, workers: seq<Id>, m: Entries, read: seq<Entry>) {
    var p := RebuildOf(job, data, workers);
    && p.error.None?
    && TerminalStatus(PlanStats(m, p, NO_STATS), false) == Completed
    && IsLedgerRead(read, PutAll(m, p.puts), job.id.office, job.start, job.end)
  }

  lemma CompletedCounts(m: Entries, p: Plan) returns (stats: Stats)
    requires TerminalStatus(PlanStats(m, p, NO_STATS), false) == Completed
    ensures p.missing == 0 && Tally(m, p.puts, stats).conflicts == 0
  {
    stats := NO_STATS.(scanned := p.scanned, missing := p.missing);
    TallyCounts(m, p.puts, stats);
  }

  lemma CleanAt(job: Job, data: SourceData, workers: seq<Id>, order: seq<Id>, m: Entries, read: seq<Entry>, k: AuditKey)
    requires job.scope == AllEarnings && ValidRange(job.start, job.end)
    requires IdsExist(data) && DistinctOrders(data.orders) && DistinctTrips(data.trips)
    requires IsIteration(workers, TargetMap(data.targets)) && IsIteration(order, TargetMap(data.targets))
    requires NoProjections(m, job.id.office) && CleanRun(job, data, workers, m, read)
    ensures var expected := ExpectedOf(data, job.id.office, job.start, job.end, order);
            && expected.Some? && expected.value.missing == 0
            && SumAt(expected.value.amounts, k) == SumAt(LedgerAmounts(read, job.start, job.end), k)
  {
    var p := RebuildOf(job, data, workers);
    var stats := CompletedCounts(m, p);
    forall j | 0 <= j < |p.puts| ensures ReadablePut(p.puts[j], job) {
      PutsReadable(job, data, workers, p.puts[j]);
    }
    RebuildDistinct(job, data, workers);
    SectionsWeigh(job, data, workers, order, k);
    ReadWeighsPuts(m, p.puts, job, stats, read, k);
  }

  /** A full rebuild of a ledger without projections that meets no conflict and misses no
      snapshot makes the audit of the same sources and range agree on every amount. */
  lemma CleanRebuildPassesAudit(job: Job, data: SourceData, workers: seq<Id>, order: seq<Id>, m: Entries, read: seq<Entry>)
    requires job.scope == AllEarnings && ValidRange(job.start, job.end)
    requires IdsExist(data) && DistinctOrders(data.orders) && DistinctTrips(data.trips)
    requires IsIteration(workers, TargetMap(data.targets)) && IsIteration(order, TargetMap(data.targets))
    requires NoProjections(m, job.id.office) && CleanRun(job, data, workers, m, read)
    ensures var expected := ExpectedOf(data, job.id.office, job.start, job.end, order);
            expected.Some? && Agrees(expected.value, LedgerAmounts(read, job.start, job.end))
  {
    CleanAt(job, data, workers, order, m, read, BonusKeyOf(NIL_ID));
    forall k
      ensures SumAt(ExpectedOf(data, job.id.office, job.start, job.end, order).value.amounts, k)
              == SumAt(LedgerAmounts(read, job.start, job.end), k)
    {
      CleanAt(job, data, workers, order, m, read, k);
    }
  }
}
