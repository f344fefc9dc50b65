/** What the audit expects and what it reads from the ledger: `Reconciler.Run` of
    `internal/earnings/reconciliation.go`, as lists of keyed amounts. The calculation is the
    audit's own; it shares no code with the rebuild beyond the pricing of one document. */
module AuditPlan {
  import opened Wrappers
  import opened Dates
  import opened Money
  import opened Ranking
  import opened Ledger
  import opened SourcePuts
  import opened Sources
  import opened Plans
  import opened RebuildPlan

  datatype AuditScope = OrderScope | TripScope | TargetScope | BoardScope(board: Board)

  datatype AuditKey = AuditKey(worker: Id, workerType: WorkerType, scope: AuditScope, component: Component, bucket: Bucket)

  datatype Amount = Amount(key: AuditKey, paise: int)

  /** The amount a list of additions leaves under one key. */
  function SumAt(cs: seq<Amount>, k: AuditKey): int {
    if cs == [] then 0
    else SumAt(cs[..|cs| - 1], k) + (if cs[|cs| - 1].key == k then cs[|cs| - 1].paise else 0)
  }

  /** Additions and the number of documents that could not be priced. */
  datatype Expected = Expected(amounts: seq<Amount>, missing: nat)

  function Plus(a: Expected, b: Expected): Expected {
    Expected(a.amounts + b.amounts, a.missing + b.missing)
  }

  const NO_AMOUNT := Expected([], 0)

  // ----- the month, recomputed

  predicate AuditCounts(o: OrderSource, targets: Targets, worker: Id, month: int) {
    o.completed && !o.deleted && !BeforeCutoff(targets, o.beautician, o.date)
    && o.beautician == worker && o.date.month == month
  }

  function AuditRevenue(orders: seq<OrderSource>, targets: Targets, worker: Id, month: int): real {
    if orders == [] then 0.0
    else
      var o := orders[|orders| - 1];
      AuditRevenue(orders[..|orders| - 1], targets, worker, month)
      + (if AuditCounts(o, targets, worker, month) && CostKnown(o) then o.snapshot.value.orderCost.value else 0.0)
  }

  function AuditInvalid(orders: seq<OrderSource>, targets: Targets, worker: Id, month: int): bool {
    if orders == [] then false
    else
      var o := orders[|orders| - 1];
      AuditInvalid(orders[..|orders| - 1], targets, worker, month) || (AuditCounts(o, targets, worker, month) && !CostKnown(o))
  }

  predicate AuditGeneralEnabled(orders: seq<OrderSource>, targets: Targets, o: OrderSource) {
    BeforeCutoff(targets, o.beautician, o.date)
    || (!AuditInvalid(orders, targets, o.beautician, o.date.month)
        && AuditRevenue(orders, targets, o.beautician, o.date.month) >= Target1(targets, o.beautician))
  }

  // ----- expected amounts

  function Item(key: AuditKey, amount: Option<real>, enabled: bool): Expected {
    if !ValidAmount(amount) then Expected([], 1)
    else if enabled then Expected([Amount(key, MoneyToPaise(amount.value))], 0)
    else NO_AMOUNT
  }

  function OrderKey(o: OrderSource, c: Component): AuditKey {
    AuditKey(o.beautician, Beautician, OrderScope, c, CommissionBucket)
  }

  function ExpectedOrder(all: seq<OrderSource>, targets: Targets, start: DateKey, end: DateKey, o: OrderSource): Expected {
    if !o.completed || o.deleted || !Within(o.date, start, end) then NO_AMOUNT
    else if o.id == NIL_ID || o.beautician == NIL_ID || !ValidDate(o.date) || o.snapshot.None? then Expected([], 1)
    else
      var s := o.snapshot.value;
      Plus(Plus(Item(OrderKey(o, SpecialCommission), s.special, true),
                Item(OrderKey(o, GeneralCommission), s.general, AuditGeneralEnabled(all, targets, o))),
           Item(OrderKey(o, UpgradeCommission), s.upgrade, true))
  }

  function ExpectedOrders(all: seq<OrderSource>, targets: Targets, start: DateKey, end: DateKey, orders: seq<OrderSource>): Expected {
    if orders == [] then NO_AMOUNT
    else Plus(ExpectedOrders(all, targets, start, end, orders[..|orders| - 1]),
              ExpectedOrder(all, targets, start, end, orders[|orders| - 1]))
  }

  function BonusKeyOf(worker: Id): AuditKey {
    AuditKey(worker, Beautician, TargetScope, TargetBonus, CommissionBucket)
  }

  predicate AuditBonusEarned(all: seq<OrderSource>, targets: Targets, worker: Id, month: int) {
    Target2(targets, worker) > 0.0 && !AuditInvalid(all, targets, worker, month)
    && AuditRevenue(all, targets, worker, month) >= Target2(targets, worker)
  }

  function ExpectedBonus(all: seq<OrderSource>, targets: Targets, end: DateKey, bonus: real, worker: Id): Expected {
    if AuditBonusEarned(all, targets, worker, end.month) then Expected([Amount(BonusKeyOf(worker), MoneyToPaise(bonus))], 0)
    else NO_AMOUNT
  }

  function ExpectedBonuses(all: seq<OrderSource>, targets: Targets, end: DateKey, bonus: real, workers: seq<Id>): Expected {
    if workers == [] then NO_AMOUNT
    else Plus(ExpectedBonuses(all, targets, end, bonus, workers[..|workers| - 1]),
              ExpectedBonus(all, targets, end, bonus, workers[|workers| - 1]))
  }

  function ExpectedTrip(start: DateKey, end: DateKey, t: TripSource): Expected {
    if t.deleted || !t.finished || !Within(t.date, start, end) then NO_AMOUNT
    else
      match TripWorker(t)
      case None => NO_AMOUNT
      case Some((worker, workerType)) =>
        if t.snapshot.None? || !ValidDate(t.date) then Expected([], 1)
        else
          var (commission, petrol) := EffectivePayables(t);
          Plus(Item(AuditKey(worker, workerType, TripScope, TripCommission, CommissionBucket), commission, true),
               Item(AuditKey(worker, workerType, TripScope, Petrol, PetrolBucket), petrol, true))
  }

  function ExpectedTrips(start: DateKey, end: DateKey, trips: seq<TripSource>): Expected {
    if trips == [] then NO_AMOUNT
    else Plus(ExpectedTrips(start, end, trips[..|trips| - 1]), ExpectedTrip(start, end, trips[|trips| - 1]))
  }

  function AwardKeyOf(a: Award, types: map<Id, WorkerType>, board: Board): AuditKey {
    AuditKey(a.worker, TypeOf(types, board, a.worker), BoardScope(board), LeaderboardBonus, CommissionBucket)
  }

  function ExpectedAwards(awards: seq<Award>, types: map<Id, WorkerType>, board: Board): Expected {
    if awards == [] then NO_AMOUNT
    else
      var a := awards[|awards| - 1];
      Plus(ExpectedAwards(awards[..|awards| - 1], types, board),
           Expected([Amount(AwardKeyOf(a, types, board), MoneyToPaise(a.bonus))], 0))
  }

  predicate AuditUsable(data: SourceData, start: DateKey, end: DateKey) {
    && ValidDate(start) && ValidDate(end)
    && ValidMoney(data.target2Bonus) && ValidPrizes(data.prizes.beautician) && ValidPrizes(data.prizes.rider)
    && ValidTargets(data.targets)
    && RowPlans(data.beauticians).error.None? && RowPlans(RiderRows(data.riders)).error.None?
  }

  function ExpectedOrderSide(data: SourceData, office: Id, start: DateKey, end: DateKey, workers: seq<Id>): Expected {
    var all, targets := LoadOrders(data.orders, office, MonthStart(start), MonthEnd(end)), TargetMap(data.targets);
    Plus(ExpectedOrders(all, targets, start, end, all), ExpectedBonuses(all, targets, end, data.target2Bonus, workers))
  }

  function ExpectedBeauticianAwards(data: SourceData): Expected {
    ExpectedAwards(BoardAwards(data.beauticians, data.prizes, BeauticianBoard), map[], BeauticianBoard)
  }

  function ExpectedRiderAwards(data: SourceData): Expected {
    ExpectedAwards(BoardAwards(RiderRows(data.riders), data.prizes, RiderBoard), RiderTypes(data.riders), RiderBoard)
  }

  /** All expected amounts; unusable configuration or aggregate rows are an error. */
  function ExpectedOf(data: SourceData, office: Id, start: DateKey, end: DateKey, workers: seq<Id>): Option<Expected> {
    if !AuditUsable(data, start, end) then None
    else
      Some(Plus(Plus(Plus(ExpectedOrderSide(data, office, start, end, workers),
        ExpectedTrips(start, end, LoadTrips(data, office, start, end))),
        ExpectedBeauticianAwards(data)), ExpectedRiderAwards(data)))
  }

  // ----- ledger amounts

  predicate SourceComponent(c: Component) {
    c == SpecialCommission || c == GeneralCommission || c == UpgradeCommission || c == TripCommission
    || c == Petrol || c == TargetBonus || c == LeaderboardBonus
  }

  /** The filter of `LoadReconciliationLedger`. */
  predicate AuditReads(e: Entry, office: Id, start: DateKey, end: DateKey) {
    && e.id.office == office && e.status != Void && Within(e.date, start, MonthEnd(end)) && SourceComponent(e.component)
  }

  /** `reconciliationEntryScope`: the scope an entry belongs to, if the audit includes it. */
  function EntryScope(e: Entry, start: DateKey, end: DateKey): Option<AuditScope> {
    if e.status == Void || e.worker == NIL_ID then None
    else
      match e.component
      case SpecialCommission => if OrderProjection(e, start, end) then Some(OrderScope) else None
      case GeneralCommission => if OrderProjection(e, start, end) then Some(OrderScope) else None
      case UpgradeCommission => if OrderProjection(e, start, end) then Some(OrderScope) else None
      case TripCommission => if TripProjection(e, start, end) then Some(TripScope) else None
      case Petrol => if TripProjection(e, start, end) then Some(TripScope) else None
      case TargetBonus =>
        if e.sourceType == Targets && e.date == MonthEnd(end) && e.configuration.TargetConfiguration?
           && e.configuration.targetMonth == end.month then Some(TargetScope) else None
      case LeaderboardBonus =>
        if e.sourceType == Leaderboards && e.configuration.AwardConfiguration?
           && e.configuration.periodStart == start && e.configuration.periodEnd == end
        then Some(BoardScope(e.configuration.board)) else None
      case _ => None
  }

  predicate OrderProjection(e: Entry, start: DateKey, end: DateKey) {
    e.sourceType == Orders && e.sourceId.Some? && Within(e.date, start, end)
  }

  predicate TripProjection(e: Entry, start: DateKey, end: DateKey) {
    e.sourceType == Trips && e.sourceId.Some? && Within(e.date, start, end)
  }

  function LedgerAmount(e: Entry, start: DateKey, end: DateKey): seq<Amount> {
    match EntryScope(e, start, end)
    case None => []
    case Some(scope) => [Amount(AuditKey(e.worker, e.workerType, scope, e.component, e.bucket), e.amount)]
  }

  function LedgerAmounts(es: seq<Entry>, start: DateKey, end: DateKey): seq<Amount> {
    if es == [] then [] else LedgerAmounts(es[..|es| - 1], start, end) + LedgerAmount(es[|es| - 1], start, end)
  }

  /** What one entry adds under one key. */
  function Weight(start: DateKey, end: DateKey, k: AuditKey): Entry -> int {
    (e: Entry) => SumAt(LedgerAmount(e, start, end), k)
  }

  /** `es` is what the ledger query returned, in whatever order. */
  ghost predicate IsLedgerRead(es: seq<Entry>, m: Entries, office: Id, start: DateKey, end: DateKey) {
    && (forall i, j :: 0 <= i < j < |es| ==> es[i].id != es[j].id)
    && (forall i :: 0 <= i < |es| ==> es[i].id in m && m[es[i].id] == es[i] && AuditReads(es[i], office, start, end))
    && (forall k :: k in m && AuditReads(m[k], office, start, end) ==> exists i :: 0 <= i < |es| && es[i].id == k)
  }

  /** The audit finds nothing wrong: the two sides agree under every key and nothing is missing. */
  ghost predicate Agrees(expected: Expected, ledger: seq<Amount>) {
    expected.missing == 0 && forall k :: SumAt(expected.amounts, k) == SumAt(ledger, k)
  }
}
