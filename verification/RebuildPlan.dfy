/** What a rebuild job writes: `process`, `processOrders`, `processTrips` and
    `processLeaderboards` of `internal/earnings/rebuild.go`, as plans. */
module RebuildPlan {
  import opened Wrappers
  import opened Dates
  import opened Money
  import opened Ranking
  import opened Ledger
  import opened SourcePuts
  import opened Sources
  import opened Plans
  import opened ControlPlane

  /** One payable component of a source document. */
  function ComponentPlan(entry: Entry, amount: Option<real>, enabled: bool): Plan {
    if !ValidAmount(amount) then Plan([], 0, 1, None)
    else if !enabled || amount.value == 0.0 then NOTHING
    else Plan([entry], 0, 0, None)
  }

  function PaiseOf(amount: Option<real>): int {
    if amount.Some? then MoneyToPaise(amount.value) else 0
  }

  // ----- orders

  function OrderEntry(office: Id, o: OrderSource, component: Component, amount: Option<real>): Entry {
    SourceEntry(office, o.id, o.beautician, Beautician, o.date, component, CommissionBucket, PaiseOf(amount),
                o.snapshot.Some? && o.snapshot.value.isPaid)
  }

  function OrderPlan(job: Job, all: seq<OrderSource>, targets: Targets, o: OrderSource): Plan {
    if !o.completed then NOTHING
    else if !ValidDate(o.date) then Plan([], 0, 1, None)
    else if !Within(o.date, job.start, job.end) then NOTHING
    else if o.snapshot.None? then Plan([], 1, 1, None)
    else
      var s := o.snapshot.value;
      Then(Then(Then(Plan([], 1, 0, None),
        ComponentPlan(OrderEntry(job.id.office, o, SpecialCommission, s.special), s.special, true)),
        ComponentPlan(OrderEntry(job.id.office, o, GeneralCommission, s.general), s.general,
                      GeneralEnabled(all, targets, o.beautician, o.date))),
        ComponentPlan(OrderEntry(job.id.office, o, UpgradeCommission, s.upgrade), s.upgrade, true))
  }

  function OrderPlans(job: Job, all: seq<OrderSource>, targets: Targets, orders: seq<OrderSource>): (p: Plan)
    ensures p.error.None?
  {
    if orders == [] then NOTHING
    else Then(OrderPlans(job, all, targets, orders[..|orders| - 1]), OrderPlan(job, all, targets, orders[|orders| - 1]))
  }

  function BonusPlan(job: Job, all: seq<OrderSource>, targets: Targets, bonus: real, worker: Id): Plan {
    if bonus == 0.0 || !BonusEarned(all, targets, worker, job.end.month) then NOTHING
    else
      Plan([BonusEntry(job.id.office, worker, job.end, Target2(targets, worker),
                       Revenue(all, targets, worker, job.end.month), bonus)], 0, 0, None)
  }

  function BonusPlans(job: Job, all: seq<OrderSource>, targets: Targets, bonus: real, workers: seq<Id>): (p: Plan)
    ensures p.error.None?
  {
    if workers == [] then NOTHING
    else Then(BonusPlans(job, all, targets, bonus, workers[..|workers| - 1]),
              BonusPlan(job, all, targets, bonus, workers[|workers| - 1]))
  }

  /** `workers` is the order in which Go happened to iterate over the target map. */
  predicate IsIteration(workers: seq<Id>, targets: Targets) {
    && (forall i, j :: 0 <= i < j < |workers| ==> workers[i] != workers[j])
    && (forall i :: 0 <= i < |workers| ==> workers[i] in targets)
    && (forall w :: w in targets ==> w in workers)
  }

  function OrdersSection(job: Job, data: SourceData, workers: seq<Id>): Plan {
    match CoveringMonths(job.start, job.end)
    case None => Failing(Permanent)
    case Some((start, end)) =>
      if !ValidMoney(data.target2Bonus) || !ValidTargets(data.targets) then Failing(Permanent)
      else
        var all, targets := LoadOrders(data.orders, job.id.office, start, end), TargetMap(data.targets);
        Then(OrderPlans(job, all, targets, all), BonusPlans(job, all, targets, data.target2Bonus, workers))
  }

  // ----- trips

  function TripEntry(office: Id, t: TripSource, component: Component, bucket: Bucket, amount: Option<real>): Entry {
    var (worker, workerType) := TripWorker(t).GetOr((NIL_ID, Rider));
    SourceEntry(office, t.id, worker, workerType, t.date, component, bucket, PaiseOf(amount),
                component == Petrol && t.snapshot.Some? && t.snapshot.value.isPaid)
  }

  function TripPlan(job: Job, t: TripSource): Plan {
    if !ValidDate(t.date) then Plan([], 1, 1, None)
    else if TripWorker(t).None? then Plan([], 1, 0, None)
    else if t.snapshot.None? then Plan([], 1, 1, None)
    else
      var (commission, petrol) := EffectivePayables(t);
      var trip := TripEntry(job.id.office, t, TripCommission, CommissionBucket, commission);
      Then(Then(Plan([], 1, 0, None),
        if job.scope == PetrolOnly then NOTHING else ComponentPlan(trip, commission, true)),
        ComponentPlan(TripEntry(job.id.office, t, Petrol, PetrolBucket, petrol), petrol, true))
  }

  function TripPlans(job: Job, trips: seq<TripSource>): (p: Plan)
    ensures p.error.None?
  {
    if trips == [] then NOTHING
    else Then(TripPlans(job, trips[..|trips| - 1]), TripPlan(job, trips[|trips| - 1]))
  }

  // ----- leaderboards

  predicate ValidPrizes(prizes: seq<real>) {
    forall i :: 0 <= i < |prizes| ==> ValidMoney(prizes[i])
  }

  predicate ValidRow(r: Row) {
    r.score.worker != NIL_ID && ValidMoney(r.score.first) && ValidMoney(r.score.second)
  }

  predicate ScoredIn(rows: seq<Row>, worker: Id) {
    exists i :: 0 <= i < |rows| && rows[i].score.worker == worker
  }

  /** One aggregate row, after the rows before it: a malformed or repeated one fails the job. */
  function RowPlan(before: seq<Row>, r: Row): Plan {
    if !ValidRow(r) then Plan([], 1, 1, Some(Permanent))
    else if ScoredIn(before, r.score.worker) then Plan([], 1, 0, Some(Permanent))
    else Plan([], 1, 0, None)
  }

  function RowPlans(rows: seq<Row>): (p: Plan)
    ensures p.puts == []
  {
    if rows == [] then NOTHING
    else Then(RowPlans(rows[..|rows| - 1]), RowPlan(rows[..|rows| - 1], rows[|rows| - 1]))
  }

  function RiderRows(riders: seq<RiderRow>): (rows: seq<Row>)
    ensures |rows| == |riders|
    ensures forall i :: 0 <= i < |rows| ==> rows[i] == riders[i].row
  {
    seq(|riders|, i requires 0 <= i < |riders| => riders[i].row)
  }

  function RiderTypes(riders: seq<RiderRow>): map<Id, WorkerType> {
    if riders == [] then map[]
    else RiderTypes(riders[..|riders| - 1])[riders[|riders| - 1].row.score.worker := riders[|riders| - 1].workerType]
  }

  function Prices(prizes: seq<real>): (paise: seq<int>)
    ensures |paise| == |prizes|
  {
    seq(|prizes|, i requires 0 <= i < |prizes| => MoneyToPaise(prizes[i]))
  }

  function PrintedSetting(s: GenderSetting): (Option<nat>, seq<real>) {
    (match s.bonusEnabled case None => None case Some(flag) => Some(flag.address), s.prizes)
  }

  function PrintedSettings(s: GenderSettings): seq<(Option<nat>, seq<real>)> {
    [PrintedSetting(s.female), PrintedSetting(s.male), PrintedSetting(s.other)]
  }

  /** `snapshotLeaderboardConfiguration` */
  function VersionOf(prizes: PrizeSchedule): Fingerprint {
    Fingerprint(Prices(prizes.beautician), Prices(prizes.rider),
                PrintedSettings(prizes.beauticianByGender), PrintedSettings(prizes.riderByGender))
  }

  function AwardEntry(job: Job, award: Award, workerType: WorkerType, board: Board, prizes: PrizeSchedule): Entry {
    var paise := MoneyToPaise(award.bonus);
    Entry(EntryKey(job.id.office, AwardKey(board, job.start, job.end, award.worker)),
          award.worker, workerType, job.end, LeaderboardBonus, CommissionBucket, paise, 0, Open,
          Leaderboards, None, 3,
          AwardConfiguration(job.start, job.end, board, award.rank, paise,
                             Prices(if board == BeauticianBoard then prizes.beautician else prizes.rider),
                             VersionOf(prizes)), 0)
  }

  function AwardPlan(job: Job, award: Award, workerType: WorkerType, board: Board, prizes: PrizeSchedule): Plan {
    if award.bonus == 0.0 then NOTHING else Plan([AwardEntry(job, award, workerType, board, prizes)], 0, 0, None)
  }

  function TypeOf(types: map<Id, WorkerType>, board: Board, worker: Id): WorkerType {
    if board == BeauticianBoard || worker !in types then Beautician else types[worker]
  }

  function AwardPlans(job: Job, awards: seq<Award>, types: map<Id, WorkerType>, board: Board, prizes: PrizeSchedule): (p: Plan)
    ensures p.error.None?
  {
    if awards == [] then NOTHING
    else
      var a := awards[|awards| - 1];
      Then(AwardPlans(job, awards[..|awards| - 1], types, board, prizes),
           AwardPlan(job, a, TypeOf(types, board, a.worker), board, prizes))
  }

  function BeauticianAwardPlans(job: Job, data: SourceData): (p: Plan)
    ensures p.error.None?
  {
    AwardPlans(job, BoardAwards(data.beauticians, data.prizes, BeauticianBoard), map[], BeauticianBoard, data.prizes)
  }

  function RiderAwardPlans(job: Job, data: SourceData): (p: Plan)
    ensures p.error.None?
  {
    AwardPlans(job, BoardAwards(RiderRows(data.riders), data.prizes, RiderBoard), RiderTypes(data.riders), RiderBoard, data.prizes)
  }

  /** Every row is checked and ranked before the first award is written. */
  function LeaderboardSection(job: Job, data: SourceData): Plan {
    if !ValidPrizes(data.prizes.beautician) || !ValidPrizes(data.prizes.rider) then Failing(Permanent)
    else
      Then(Then(Then(RowPlans(data.beauticians), RowPlans(RiderRows(data.riders))),
        BeauticianAwardPlans(job, data)), RiderAwardPlans(job, data))
  }

  // ----- the whole job

  function OrdersPart(job: Job, data: SourceData, workers: seq<Id>): Plan {
    if job.scope == AllEarnings || job.scope == Commissions then OrdersSection(job, data, workers) else NOTHING
  }

  function TripsPart(job: Job, data: SourceData): (p: Plan)
    ensures p.error.None?
  {
    if job.scope == LeaderboardsOnly then NOTHING else TripPlans(job, LoadTrips(data, job.id.office, job.start, job.end))
  }

  function BoardsPart(job: Job, data: SourceData): Plan {
    if job.scope == AllEarnings || job.scope == LeaderboardsOnly then LeaderboardSection(job, data) else NOTHING
  }

  function RebuildOf(job: Job, data: SourceData, workers: seq<Id>): Plan {
    Then(Then(OrdersPart(job, data, workers), TripsPart(job, data)), BoardsPart(job, data))
  }
}
