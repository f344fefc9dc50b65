/** The rebuild processor (`internal/earnings/rebuild.go`): loops that fill maps, bump counters
    and put entries one by one, proved to carry out the plans of `RebuildPlan`. */
module Processing {
  import opened Wrappers
  import opened Dates
  import opened Money
  import opened Ranking
  import opened Ledger
  import opened SourcePuts
  import opened Sources
  import opened Plans
  import opened ControlPlane
  import opened RebuildPlan
  import opened EventPlan
  import opened Store

  /** From `m` and `stats`, running `p` ends in `m'` and `stats'`. */
  ghost predicate Ran(m: Entries, stats: Stats, p: Plan, m': Entries, stats': Stats) {
    m' == PutAll(m, p.puts) && stats' == PlanStats(m, p, stats)
  }

  lemma RanOne(m: Entries, stats: Stats, e: Entry)
    ensures Ran(m, stats, Plan([e], 0, 0, None), PutSource(m, e), Count(stats, PutOutcome(m, e)))
  {
    assert [e][..0] == [] && PutAll(m, []) == m;
    var s := stats.(scanned := stats.scanned + 0, missing := stats.missing + 0);
    assert s == stats && Tally(m, [], s) == s;
    assert Tally(m, [e], s) == Count(s, PutOutcome(m, e));
  }

  lemma RanThen(m: Entries, stats: Stats, p: Plan, m': Entries, stats': Stats, q: Plan, m'': Entries, stats'': Stats)
    requires p.error.None? && Ran(m, stats, p, m', stats') && Ran(m', stats', q, m'', stats'')
    ensures Ran(m, stats, Then(p, q), m'', stats'')
  {
    ThenRuns(m, p, q, stats);
  }

  /** The counters after a plan that puts nothing. */
  function Checked(stats: Stats, p: Plan): Stats {
    stats.(scanned := stats.scanned + p.scanned, missing := stats.missing + p.missing)
  }

  lemma RanChecked(m: Entries, stats: Stats, p: Plan)
    requires p.puts == []
    ensures Ran(m, stats, p, m, Checked(stats, p))
  {
  }

  lemma CheckedThen(stats: Stats, p: Plan, q: Plan)
    requires p.error.None?
    ensures Checked(Checked(stats, p), q) == Checked(stats, Then(p, q))
  {
  }

  lemma RowsStep(rows: seq<Row>, i: nat)
    requires i < |rows|
    ensures RowPlans(rows[..i + 1]) == Then(RowPlans(rows[..i]), RowPlan(rows[..i], rows[i]))
  {
    assert rows[..i + 1][..i] == rows[..i];
  }

  lemma SeenGrows(rows: seq<Row>, i: nat, w: Id)
    requires i < |rows|
    ensures ScoredIn(rows[..i + 1], w) <==> ScoredIn(rows[..i], w) || w == rows[i].score.worker
  {
    assert rows[..i + 1][i] == rows[i];
    assert forall j :: 0 <= j < i ==> rows[..i + 1][j] == rows[..i][j];
    if ScoredIn(rows[..i], w) {
      var j :| 0 <= j < i && rows[..i][j].score.worker == w;
      assert rows[..i + 1][j].score.worker == w;
    }
  }

  /** Worker-month sums, keyed as `workerMonthKey` does. */
  type MonthSums = map<(Id, int), real>

  function SumIn(sums: MonthSums, key: (Id, int)): real {
    if key in sums then sums[key] else 0.0
  }

  /** `putLedgerEntry`, shared by the rebuild and the event materializer. */
  method PutLedgerEntry(backend: Repository, entry: Entry, stats: Stats) returns (stats': Stats)
    modifies backend`entries, backend`paidAtSource
    ensures Ran(old(backend.entries), stats, Plan([entry], 0, 0, None), backend.entries, stats')
  {
    RanOne(backend.entries, stats, entry);
    var stored, created := backend.PutSourceEntry(entry);
    if created {
      stats' := stats.(inserted := stats.inserted + 1);
    } else if SameSource(stored, entry) {
      stats' := stats.(kept := stats.kept + 1);
    } else {
      stats' := stats.(conflicts := stats.conflicts + 1);
    }
  }

  /** One item of a component table: count a missing amount, skip a zero or disabled one. */
  method PutComponent(backend: Repository, entry: Entry, amount: Option<real>, enabled: bool, stats: Stats) returns (stats': Stats)
    modifies backend`entries, backend`paidAtSource
    ensures Ran(old(backend.entries), stats, ComponentPlan(entry, amount, enabled), backend.entries, stats')
  {
    stats' := stats;
    if amount.None? || !ValidMoney(amount.value) {
      stats' := stats.(missing := stats.missing + 1);
    } else if enabled && amount.value != 0.0 {
      stats' := PutLedgerEntry(backend, entry, stats);
    }
  }

  class Processor {
    const backend: Repository

    constructor (backend: Repository)
      ensures this.backend == backend
    {
      this.backend := backend;
    }

    // ----- orders

    method IndexTargets(ts: seq<WorkerTarget>) returns (ok: bool, targets: Targets)
      ensures ok <==> ValidTargets(ts)
      ensures ok ==> targets == TargetMap(ts)
    {
      targets := map[];
      for i := 0 to |ts|
        invariant ValidTargets(ts[..i])
        invariant targets == TargetMap(ts[..i])
      {
        assert ts[..i + 1][..i] == ts[..i];
        if ts[i].worker == NIL_ID || !ValidMoney(ts[i].target1) || !ValidMoney(ts[i].target2) {
          return false, targets;
        }
        targets := targets[ts[i].worker := ts[i]];
      }
      assert ts[..|ts|] == ts;
      ok := true;
    }

    method SumMonths(orders: seq<OrderSource>, targets: Targets) returns (revenue: MonthSums, invalid: set<(Id, int)>)
      ensures forall key: (Id, int) :: SumIn(revenue, key) == Revenue(orders, targets, key.0, key.1)
      ensures forall key: (Id, int) :: key in invalid <==> MonthInvalid(orders, targets, key.0, key.1)
    {
      revenue, invalid := map[], {};
      for i := 0 to |orders|
        invariant forall key: (Id, int) :: SumIn(revenue, key) == Revenue(orders[..i], targets, key.0, key.1)
        invariant forall key: (Id, int) :: key in invalid <==> MonthInvalid(orders[..i], targets, key.0, key.1)
      {
        var o := orders[i];
        assert orders[..i + 1][..i] == orders[..i];
        if !o.completed || BeforeCutoff(targets, o.beautician, o.date) {
          continue;
        }
        var key := (o.beautician, o.date.month);
        if o.snapshot.None? || o.snapshot.value.orderCost.None? || !ValidMoney(o.snapshot.value.orderCost.value) {
          invalid := invalid + {key};
          continue;
        }
        revenue := revenue[key := SumIn(revenue, key) + o.snapshot.value.orderCost.value];
      }
      assert orders[..|orders|] == orders;
    }

    method PutOrder(job: Job, ghost all: seq<OrderSource>, targets: Targets, revenue: MonthSums, invalid: set<(Id, int)>,
                    o: OrderSource, stats: Stats) returns (stats': Stats)
      requires forall key: (Id, int) :: SumIn(revenue, key) == Revenue(all, targets, key.0, key.1)
      requires forall key: (Id, int) :: key in invalid <==> MonthInvalid(all, targets, key.0, key.1)
      modifies backend`entries, backend`paidAtSource
      ensures Ran(old(backend.entries), stats, OrderPlan(job, all, targets, o), backend.entries, stats')
    {
      stats' := stats;
      if !o.completed {
        return;
      }
      if !ValidDate(o.date) {
        stats' := stats.(missing := stats.missing + 1);
        return;
      }
      if !Within(o.date, job.start, job.end) {
        return;
      }
      stats' := stats.(scanned := stats.scanned + 1);
      if o.snapshot.None? {
        stats' := stats'.(missing := stats'.missing + 1);
        return;
      }
      var office, s, key := job.id.office, o.snapshot.value, (o.beautician, o.date.month);
      var enabled := BeforeCutoff(targets, o.beautician, o.date)
                     || (key !in invalid && SumIn(revenue, key) >= Target1(targets, o.beautician));
      ghost var m0, s0 := backend.entries, stats';
      ghost var p0 := Plan([], 1, 0, None);
      ghost var p1 := ComponentPlan(OrderEntry(office, o, SpecialCommission, s.special), s.special, true);
      ghost var p2 := ComponentPlan(OrderEntry(office, o, GeneralCommission, s.general), s.general, enabled);
      ghost var p3 := ComponentPlan(OrderEntry(office, o, UpgradeCommission, s.upgrade), s.upgrade, true);
      assert Ran(m0, stats, p0, m0, s0);
      stats' := PutComponent(backend, OrderEntry(office, o, SpecialCommission, s.special), s.special, true, stats');
      ghost var m1, s1 := backend.entries, stats';
      RanThen(m0, stats, p0, m0, s0, p1, m1, s1);
      stats' := PutComponent(backend, OrderEntry(office, o, GeneralCommission, s.general), s.general, enabled, stats');
      ghost var m2, s2 := backend.entries, stats';
      RanThen(m0, stats, Then(p0, p1), m1, s1, p2, m2, s2);
      stats' := PutComponent(backend, OrderEntry(office, o, UpgradeCommission, s.upgrade), s.upgrade, true, stats');
      RanThen(m0, stats, Then(Then(p0, p1), p2), m2, s2, p3, backend.entries, stats');
      assert enabled == GeneralEnabled(all, targets, o.beautician, o.date);
    }

    method PutOrders(job: Job, orders: seq<OrderSource>, targets: Targets, revenue: MonthSums, invalid: set<(Id, int)>, stats: Stats)
      returns (stats': Stats)
      requires forall key: (Id, int) :: SumIn(revenue, key) == Revenue(orders, targets, key.0, key.1)
      requires forall key: (Id, int) :: key in invalid <==> MonthInvalid(orders, targets, key.0, key.1)
      modifies backend`entries, backend`paidAtSource
      ensures Ran(old(backend.entries), stats, OrderPlans(job, orders, targets, orders), backend.entries, stats')
    {
      stats' := stats;
      ghost var m0 := backend.entries;
      for i := 0 to |orders|
        invariant Ran(m0, stats, OrderPlans(job, orders, targets, orders[..i]), backend.entries, stats')
      {
        ghost var m1, s1 := backend.entries, stats';
        assert orders[..i + 1][..i] == orders[..i];
        stats' := PutOrder(job, orders, targets, revenue, invalid, orders[i], stats');
        RanThen(m0, stats, OrderPlans(job, orders, targets, orders[..i]), m1, s1,
                OrderPlan(job, orders, targets, orders[i]), backend.entries, stats');
      }
      assert orders[..|orders|] == orders;
    }

    /** Go iterates over the target map in no fixed order; `workers` records the one it took. */
    method PutBonuses(job: Job, ghost all: seq<OrderSource>, targets: Targets, bonus: real, revenue: MonthSums,
                      invalid: set<(Id, int)>, stats: Stats) returns (stats': Stats, ghost workers: seq<Id>)
      requires forall key: (Id, int) :: SumIn(revenue, key) == Revenue(all, targets, key.0, key.1)
      requires forall key: (Id, int) :: key in invalid <==> MonthInvalid(all, targets, key.0, key.1)
      modifies backend`entries, backend`paidAtSource
      ensures IsIteration(workers, targets)
      ensures Ran(old(backend.entries), stats, BonusPlans(job, all, targets, bonus, workers), backend.entries, stats')
    {
      stats', workers := stats, [];
      ghost var m0 := backend.entries;
      var rest := targets.Keys;
      while rest != {}
        invariant rest <= targets.Keys
        invariant forall i, j :: 0 <= i < j < |workers| ==> workers[i] != workers[j]
        invariant forall i :: 0 <= i < |workers| ==> workers[i] in targets && workers[i] !in rest
        invariant forall w :: w in targets ==> w in rest || w in workers
        invariant Ran(m0, stats, BonusPlans(job, all, targets, bonus, workers), backend.entries, stats')
        decreases rest
      {
        var w :| w in rest;
        ghost var m1, s1, before := backend.entries, stats', workers;
        var key := (w, job.end.month);
        assert BonusEarned(all, targets, w, job.end.month) <==>
               targets[w].target2 > 0.0 && key !in invalid && SumIn(revenue, key) >= targets[w].target2;
        if !(targets[w].target2 <= 0.0 || bonus == 0.0 || key in invalid || SumIn(revenue, key) < targets[w].target2) {
          stats' := PutLedgerEntry(backend, BonusEntry(job.id.office, w, job.end, targets[w].target2, SumIn(revenue, key), bonus), stats');
        }
        assert Ran(m1, s1, BonusPlan(job, all, targets, bonus, w), backend.entries, stats');
        RanThen(m0, stats, BonusPlans(job, all, targets, bonus, before), m1, s1,
                BonusPlan(job, all, targets, bonus, w), backend.entries, stats');
        workers, rest := workers + [w], rest - {w};
        assert workers[..|workers| - 1] == before;
      }
    }

    method ProcessOrders(job: Job, data: SourceData, stats: Stats)
      returns (failed: Option<SourceError>, stats': Stats, ghost workers: seq<Id>)
      modifies backend`entries, backend`paidAtSource
      ensures IsIteration(workers, TargetMap(data.targets))
      ensures var p := OrdersSection(job, data, workers);
              failed == p.error && Ran(old(backend.entries), stats, p, backend.entries, stats')
    {
      stats', workers := stats, AnyIteration(TargetMap(data.targets));
      var months := CoveringMonths(job.start, job.end);
      if months.None? {
        return Some(Permanent), stats', workers;
      }
      var orders := LoadOrders(data.orders, job.id.office, months.value.0, months.value.1);
      if !ValidMoney(data.target2Bonus) {
        return Some(Permanent), stats', workers;
      }
      var ok, targets := IndexTargets(data.targets);
      if !ok {
        return Some(Permanent), stats', workers;
      }
      var revenue, invalid := SumMonths(orders, targets);
      ghost var m0 := backend.entries;
      stats' := PutOrders(job, orders, targets, revenue, invalid, stats);
      ghost var m1, s1 := backend.entries, stats';
      stats', workers := PutBonuses(job, orders, targets, data.target2Bonus, revenue, invalid, stats');
      RanThen(m0, stats, OrderPlans(job, orders, targets, orders), m1, s1,
              BonusPlans(job, orders, targets, data.target2Bonus, workers), backend.entries, stats');
      failed := None;
    }

    // ----- trips

    method PutTrip(job: Job, t: TripSource, stats: Stats) returns (stats': Stats)
      modifies backend`entries, backend`paidAtSource
      ensures Ran(old(backend.entries), stats, TripPlan(job, t), backend.entries, stats')
    {
      hide EffectivePayables, TripEntry;
      stats' := stats.(scanned := stats.scanned + 1);
      if !ValidDate(t.date) {
        stats' := stats'.(missing := stats'.missing + 1);
        return;
      }
      if TripWorker(t).None? {
        return;
      }
      if t.snapshot.None? {
        stats' := stats'.(missing := stats'.missing + 1);
        return;
      }
      var commission, petrol := ComputePayables(t);
      var ride := TripEntry(job.id.office, t, TripCommission, CommissionBucket, commission);
      var fuel := TripEntry(job.id.office, t, Petrol, PetrolBucket, petrol);
      ghost var m0, s0 := backend.entries, stats';
      ghost var p0 := Plan([], 1, 0, None);
      ghost var p1 := if job.scope == PetrolOnly then NOTHING else ComponentPlan(ride, commission, true);
      assert Ran(m0, stats, p0, m0, s0);
      if job.scope != PetrolOnly {
        stats' := PutComponent(backend, ride, commission, true, stats');
      }
      ghost var m1, s1 := backend.entries, stats';
      RanThen(m0, stats, p0, m0, s0, p1, m1, s1);
      stats' := PutComponent(backend, fuel, petrol, true, stats');
      RanThen(m0, stats, Then(p0, p1), m1, s1, ComponentPlan(fuel, petrol, true), backend.entries, stats');
    }

    method ProcessTrips(job: Job, data: SourceData, stats: Stats) returns (stats': Stats)
      modifies backend`entries, backend`paidAtSource
      ensures Ran(old(backend.entries), stats, TripPlans(job, LoadTrips(data, job.id.office, job.start, job.end)), backend.entries, stats')
    {
      hide Ran, TripPlan, LoadTrips;
      stats' := stats;
      var trips := LoadTrips(data, job.id.office, job.start, job.end);
      ghost var m0 := backend.entries;
      RanChecked(m0, stats, NOTHING);
      for i := 0 to |trips|
        invariant Ran(m0, stats, TripPlans(job, trips[..i]), backend.entries, stats')
      {
        ghost var m1, s1 := backend.entries, stats';
        assert trips[..i + 1][..i] == trips[..i];
        stats' := PutTrip(job, trips[i], stats');
        RanThen(m0, stats, TripPlans(job, trips[..i]), m1, s1, TripPlan(job, trips[i]), backend.entries, stats');
      }
      assert trips[..|trips|] == trips;
    }

    // ----- leaderboards

    method CheckRow(seen: set<Id>, ghost before: seq<Row>, r: Row, stats: Stats)
      returns (failed: Option<SourceError>, stats': Stats, seen': set<Id>)
      requires forall w :: w in seen <==> ScoredIn(before, w)
      ensures var p := RowPlan(before, r);
              failed == p.error && stats' == Checked(stats, p)
      ensures seen' == seen + {r.score.worker}
    {
      seen' := seen + {r.score.worker};
      stats' := stats.(scanned := stats.scanned + 1);
      failed := None;
      if r.score.worker == NIL_ID || !ValidMoney(r.score.first) || !ValidMoney(r.score.second) {
        stats' := stats'.(missing := stats'.missing + 1);
        failed := Some(Permanent);
      } else if r.score.worker in seen {
        failed := Some(Permanent);
      }
    }

    method CheckRows(rows: seq<Row>, stats: Stats) returns (failed: Option<SourceError>, stats': Stats)
      ensures failed == RowPlans(rows).error && stats' == Checked(stats, RowPlans(rows))
    {
      stats', failed := stats, None;
      var seen: set<Id> := {};
      for i := 0 to |rows|
        invariant failed.None? && RowPlans(rows[..i]).error.None?
        invariant stats' == Checked(stats, RowPlans(rows[..i]))
        invariant forall w :: w in seen <==> ScoredIn(rows[..i], w)
      {
        ghost var done, next := RowPlans(rows[..i]), RowPlan(rows[..i], rows[i]);
        failed, stats', seen := CheckRow(seen, rows[..i], rows[i], stats');
        CheckedThen(stats, done, next);
        RowsStep(rows, i);
        if failed.Some? {
          FirstBadRow(rows, i);
          return;
        }
        forall w ensures w in seen <==> ScoredIn(rows[..i + 1], w) {
          SeenGrows(rows, i, w);
        }
      }
      assert rows[..|rows|] == rows;
    }

    method PutAwards(job: Job, awards: seq<Award>, types: map<Id, WorkerType>, board: Board, prizes: PrizeSchedule, stats: Stats)
      returns (stats': Stats)
      modifies backend`entries, backend`paidAtSource
      ensures Ran(old(backend.entries), stats, AwardPlans(job, awards, types, board, prizes), backend.entries, stats')
    {
      stats' := stats;
      ghost var m0 := backend.entries;
      for i := 0 to |awards|
        invariant Ran(m0, stats, AwardPlans(job, awards[..i], types, board, prizes), backend.entries, stats')
      {
        ghost var m1, s1 := backend.entries, stats';
        assert awards[..i + 1][..i] == awards[..i];
        var workerType := TypeOf(types, board, awards[i].worker);
        if awards[i].bonus != 0.0 {
          stats' := PutLedgerEntry(backend, AwardEntry(job, awards[i], workerType, board, prizes), stats');
        }
        RanThen(m0, stats, AwardPlans(job, awards[..i], types, board, prizes), m1, s1,
                AwardPlan(job, awards[i], workerType, board, prizes), backend.entries, stats');
      }
      assert awards[..|awards|] == awards;
    }

    method IndexTypes(riders: seq<RiderRow>) returns (types: map<Id, WorkerType>)
      ensures types == RiderTypes(riders)
    {
      types := map[];
      for i := 0 to |riders|
        invariant types == RiderTypes(riders[..i])
      {
        assert riders[..i + 1][..i] == riders[..i];
        types := types[riders[i].row.score.worker := riders[i].workerType];
      }
      assert riders[..|riders|] == riders;
    }

    method ProcessLeaderboards(job: Job, data: SourceData, stats: Stats) returns (failed: Option<SourceError>, stats': Stats)
      modifies backend`entries, backend`paidAtSource
      ensures var p := LeaderboardSection(job, data);
              failed == p.error && Ran(old(backend.entries), stats, p, backend.entries, stats')
    {
      stats' := stats;
      if !ValidPrizes(data.prizes.beautician) || !ValidPrizes(data.prizes.rider) {
        return Some(Permanent), stats';
      }
      ghost var m0 := backend.entries;
      failed, stats' := CheckRows(data.beauticians, stats);
      ghost var rows := RowPlans(data.beauticians);
      RanChecked(m0, stats, rows);
      if failed.Some? {
        return;
      }
      ghost var s1 := stats';
      failed, stats' := CheckRows(RiderRows(data.riders), stats');
      ghost var p := Then(rows, RowPlans(RiderRows(data.riders)));
      ghost var s2 := stats';
      RanChecked(m0, s1, RowPlans(RiderRows(data.riders)));
      RanThen(m0, stats, rows, m0, s1, RowPlans(RiderRows(data.riders)), m0, s2);
      if failed.Some? {
        return;
      }
      var types := IndexTypes(data.riders);
      var beauticianAwards := RankBoards(data.beauticians, data.prizes, BeauticianBoard);
      var riderAwards := RankBoards(RiderRows(data.riders), data.prizes, RiderBoard);
      stats' := PutAwards(job, beauticianAwards, map[], BeauticianBoard, data.prizes, stats');
      ghost var m3, s3 := backend.entries, stats';
      RanThen(m0, stats, p, m0, s2, BeauticianAwardPlans(job, data), m3, s3);
      stats' := PutAwards(job, riderAwards, types, RiderBoard, data.prizes, stats');
      RanThen(m0, stats, Then(p, BeauticianAwardPlans(job, data)), m3, s3, RiderAwardPlans(job, data), backend.entries, stats');
    }

    // ----- the job

    method RunOrders(job: Job, data: SourceData, stats: Stats) returns (failed: Option<SourceError>, stats': Stats, ghost workers: seq<Id>)
      modifies backend`entries, backend`paidAtSource
      ensures IsIteration(workers, TargetMap(data.targets))
      ensures failed == OrdersPart(job, data, workers).error
      ensures Ran(old(backend.entries), stats, OrdersPart(job, data, workers), backend.entries, stats')
    {
      hide Ran, OrdersSection;
      stats', failed, workers := stats, None, AnyIteration(TargetMap(data.targets));
      RanChecked(backend.entries, stats, NOTHING);
      if job.scope == AllEarnings || job.scope == Commissions {
        failed, stats', workers := ProcessOrders(job, data, stats);
      }
    }

    method RunTrips(job: Job, data: SourceData, stats: Stats) returns (stats': Stats)
      modifies backend`entries, backend`paidAtSource
      ensures Ran(old(backend.entries), stats, TripsPart(job, data), backend.entries, stats')
    {
      hide Ran, TripPlans, LoadTrips;
      stats' := stats;
      RanChecked(backend.entries, stats, NOTHING);
      if job.scope == AllEarnings || job.scope == Commissions || job.scope == PetrolOnly {
        stats' := ProcessTrips(job, data, stats);
      }
    }

    method RunBoards(job: Job, data: SourceData, stats: Stats) returns (failed: Option<SourceError>, stats': Stats)
      modifies backend`entries, backend`paidAtSource
      ensures failed == BoardsPart(job, data).error && Ran(old(backend.entries), stats, BoardsPart(job, data), backend.entries, stats')
    {
      hide Ran, LeaderboardSection;
      stats', failed := stats, None;
      RanChecked(backend.entries, stats, NOTHING);
      if job.scope == LeaderboardsOnly || job.scope == AllEarnings {
        failed, stats' := ProcessLeaderboards(job, data, stats);
      }
    }

    method Process(job: Job, data: SourceData) returns (failed: Option<SourceError>, stats: Stats, ghost workers: seq<Id>)
      modifies backend`entries, backend`paidAtSource
      ensures IsIteration(workers, TargetMap(data.targets))
      ensures var p := RebuildOf(job, data, workers);
              failed == p.error && Ran(old(backend.entries), NO_STATS, p, backend.entries, stats)
    {
      hide Ran, OrdersPart, TripsPart, BoardsPart, IsIteration, TargetMap;
      ghost var m0 := backend.entries;
      failed, stats, workers := RunOrders(job, data, NO_STATS);
      if failed.Some? {
        return;
      }
      ghost var m1, s1 := backend.entries, stats;
      stats := RunTrips(job, data, stats);
      ghost var m2, s2 := backend.entries, stats;
      RanThen(m0, NO_STATS, OrdersPart(job, data, workers), m1, s1, TripsPart(job, data), m2, s2);
      failed, stats := RunBoards(job, data, stats);
      RanThen(m0, NO_STATS, Then(OrdersPart(job, data, workers), TripsPart(job, data)), m2, s2, BoardsPart(job, data), backend.entries, stats);
    }

    /** `ProcessNext`: claim the oldest queued job, run it, record how it ended. */
    method ProcessNext(data: SourceData) returns (worked: bool, ghost ran: Option<(Job, Plan)>)
      requires forall k :: k in backend.jobs ==> backend.jobs[k].id == k
      modifies backend`entries, backend`paidAtSource, backend`jobs
      ensures worked == ran.Some?
      ensures !worked ==> NothingQueued(old(backend.jobs)) && backend.jobs == old(backend.jobs) && backend.entries == old(backend.entries)
      ensures worked ==>
                var (job, p) := ran.value;
                && NextQueued(old(backend.jobs), job.id) && job == Started(old(backend.jobs), job.id)[job.id]
                && (exists workers :: IsIteration(workers, TargetMap(data.targets)) && p == RebuildOf(job, data, workers))
                && backend.entries == PutAll(old(backend.entries), p.puts)
                && backend.jobs == Finished(Started(old(backend.jobs), job.id), job.id,
                     TerminalStatus(PlanStats(old(backend.entries), p, NO_STATS), p.error.Some?), PlanStats(old(backend.entries), p, NO_STATS))
    {
      var claimed := backend.ClaimNextRebuild();
      if claimed.None? {
        return false, None;
      }
      var job := claimed.value;
      var failed, stats, workers := Process(job, data);
      var status := Completed;
      if stats.conflicts > 0 || stats.missing > 0 {
        status := CompletedWithIssues;
      }
      if failed.Some? {
        status := Failed;
      }
      backend.FinishRebuild(job.id, status, stats);
      return true, Some((job, RebuildOf(job, data, workers)));
    }
  }

  /** Some order of a finite map's keys. */
  ghost function AnyIteration(targets: Targets): (workers: seq<Id>)
    ensures IsIteration(workers, targets)
    decreases |targets|
  {
    if targets == map[] then []
    else
      var w :| w in targets;
      var rest := AnyIteration(targets - {w});
      assert forall v :: v in targets ==> v == w || v in targets - {w};
      [w] + rest
  }

  /** After the first unusable row nothing else is looked at. */
  lemma {:induction false} FirstBadRow(rows: seq<Row>, i: nat)
    requires i < |rows| && RowPlans(rows[..i]).error.None? && RowPlan(rows[..i], rows[i]).error.Some?
    ensures RowPlans(rows) == Then(RowPlans(rows[..i]), RowPlan(rows[..i], rows[i]))
  {
    var n := |rows| - 1;
    if i < n {
      assert rows[..n][..i] == rows[..i];
      FirstBadRow(rows[..n], i);
    }
  }
}
