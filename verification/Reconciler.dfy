/** The audit itself (`Reconciler.Run`): loops that fill two maps and compare them key by key. */
module Reconciling {
  import opened Wrappers
  import opened Dates
  import opened Money
  import opened Ranking
  import opened Ledger
  import opened SourcePuts
  import opened Sources
  import opened ControlPlane
  import opened RebuildPlan
  import opened AuditPlan
  import opened Audit
  import opened Processing
  import opened Store

  type Totals = map<AuditKey, int>

  function At(totals: Totals, k: AuditKey): int {
    if k in totals then totals[k] else 0
  }

  /** `addReconciliationAmount`: zero amounts leave no key. */
  function Add(totals: Totals, a: Amount): Totals {
    if a.paise == 0 then totals else totals[a.key := At(totals, a.key) + a.paise]
  }

  function AddAll(totals: Totals, cs: seq<Amount>): Totals {
    if cs == [] then totals else Add(AddAll(totals, cs[..|cs| - 1]), cs[|cs| - 1])
  }

  lemma {:induction false} AddAllSums(totals: Totals, cs: seq<Amount>, k: AuditKey)
    ensures At(AddAll(totals, cs), k) == At(totals, k) + SumAt(cs, k)
  {
    if cs != [] {
      AddAllSums(totals, cs[..|cs| - 1], k);
    }
  }

  lemma {:induction false} AddAllConcat(totals: Totals, a: seq<Amount>, b: seq<Amount>)
    ensures AddAll(totals, a + b) == AddAll(AddAll(totals, a), b)
  {
    if b == [] {
      assert a + b == a;
    } else {
      var n := |b| - 1;
      AddAllConcat(totals, a, b[..n]);
      assert (a + b)[..|a + b| - 1] == a + b[..n];
    }
  }

  datatype AuditRow = AuditRow(key: AuditKey, expected: int, ledger: int)

  datatype Report = Report(ready: bool, expected: int, ledger: int, difference: int, absolute: int,
                           matched: nat, mismatched: nat, missing: nat, rows: seq<AuditRow>)

  function RowDifference(r: AuditRow): int {
    r.ledger - r.expected
  }

  function ExpectedTotal(rows: seq<AuditRow>): int {
    if rows == [] then 0 else ExpectedTotal(rows[..|rows| - 1]) + rows[|rows| - 1].expected
  }

  function LedgerTotal(rows: seq<AuditRow>): int {
    if rows == [] then 0 else LedgerTotal(rows[..|rows| - 1]) + rows[|rows| - 1].ledger
  }

  function AbsoluteTotal(rows: seq<AuditRow>): int {
    if rows == [] then 0 else AbsoluteTotal(rows[..|rows| - 1]) + AbsPaise(RowDifference(rows[|rows| - 1]))
  }

  function MismatchCount(rows: seq<AuditRow>): nat {
    if rows == [] then 0
    else MismatchCount(rows[..|rows| - 1]) + (if RowDifference(rows[|rows| - 1]) != 0 then 1 else 0)
  }

  /** One row per key of either side, carrying both sides' amounts. */
  ghost predicate RowsCompare(rows: seq<AuditRow>, expected: Totals, actual: Totals, keys: set<AuditKey>) {
    && (forall i, j :: 0 <= i < j < |rows| ==> rows[i].key != rows[j].key)
    && (forall i :: 0 <= i < |rows| ==>
          rows[i].key in keys && rows[i] == AuditRow(rows[i].key, At(expected, rows[i].key), At(actual, rows[i].key)))
    && (forall k :: k in keys ==> exists i :: 0 <= i < |rows| && rows[i].key == k)
  }

  /** The figures of a report are those of its rows, and ready means no difference and nothing missing. */
  ghost predicate ReportAddsUp(r: Report) {
    && r.expected == ExpectedTotal(r.rows) && r.ledger == LedgerTotal(r.rows)
    && r.difference == r.ledger - r.expected && r.absolute == AbsoluteTotal(r.rows)
    && r.mismatched == MismatchCount(r.rows) && r.matched + r.mismatched == |r.rows|
    && (r.ready <==> r.missing == 0 && forall i :: 0 <= i < |r.rows| ==> RowDifference(r.rows[i]) == 0)
    && AbsPaise(r.difference) <= r.absolute
    && (r.absolute == 0 <==> r.mismatched == 0)
  }

  lemma {:induction false} RowFigures(rows: seq<AuditRow>)
    ensures AbsPaise(LedgerTotal(rows) - ExpectedTotal(rows)) <= AbsoluteTotal(rows)
    ensures AbsoluteTotal(rows) == 0 <==> MismatchCount(rows) == 0
    ensures MismatchCount(rows) == 0 <==> forall i :: 0 <= i < |rows| ==> RowDifference(rows[i]) == 0
    ensures MismatchCount(rows) <= |rows| && AbsoluteTotal(rows) >= 0
  {
    if rows != [] {
      var n := |rows| - 1;
      RowFigures(rows[..n]);
      assert forall i :: 0 <= i < n ==> rows[..n][i] == rows[i];
    }
  }

  /** The counters so far are those of the rows so far. */
  ghost predicate Tallied(r: Report) {
    && r.expected == ExpectedTotal(r.rows) && r.ledger == LedgerTotal(r.rows)
    && r.absolute == AbsoluteTotal(r.rows) && r.mismatched == MismatchCount(r.rows)
    && r.matched + r.mismatched == |r.rows|
  }

  method CompareKey(r: Report, row: AuditRow) returns (r': Report)
    requires Tallied(r)
    ensures Tallied(r') && r'.rows == r.rows + [row] && r'.missing == r.missing
  {
    var difference := row.ledger - row.expected;
    r' := r.(expected := r.expected + row.expected, ledger := r.ledger + row.ledger, rows := r.rows + [row]);
    if difference != 0 {
      r' := r'.(mismatched := r.mismatched + 1, absolute := r.absolute + AbsPaise(difference));
    } else {
      r' := r'.(matched := r.matched + 1);
    }
    assert r'.rows[..|r.rows|] == r.rows;
  }

  /** The final loop of `Run`, over the keys in whatever order the map yields them. */
  method Compare(expected: Totals, actual: Totals, missing: nat) returns (r: Report)
    ensures r.missing == missing && ReportAddsUp(r)
    ensures RowsCompare(r.rows, expected, actual, expected.Keys + actual.Keys)
  {
    r := Report(false, 0, 0, 0, 0, 0, 0, missing, []);
    var rest := expected.Keys + actual.Keys;
    ghost var done: set<AuditKey> := {};
    while rest != {}
      invariant done !! rest && done + rest == expected.Keys + actual.Keys
      invariant RowsCompare(r.rows, expected, actual, done)
      invariant Tallied(r) && r.missing == missing
      decreases rest
    {
      var k :| k in rest;
      var row := AuditRow(k, At(expected, k), At(actual, k));
      RowAdded(r.rows, row, expected, actual, done);
      r := CompareKey(r, row);
      rest, done := rest - {k}, done + {k};
    }
    assert done == expected.Keys + actual.Keys;
    RowFigures(r.rows);
    r := r.(difference := r.ledger - r.expected, ready := r.mismatched == 0 && missing == 0);
  }

  lemma RowAdded(rows: seq<AuditRow>, row: AuditRow, expected: Totals, actual: Totals, keys: set<AuditKey>)
    requires RowsCompare(rows, expected, actual, keys) && row.key !in keys
    requires row == AuditRow(row.key, At(expected, row.key), At(actual, row.key))
    ensures RowsCompare(rows + [row], expected, actual, keys + {row.key})
  {
    forall k | k in keys + {row.key} ensures exists i :: 0 <= i < |rows + [row]| && (rows + [row])[i].key == k {
      if k == row.key {
        assert (rows + [row])[|rows|].key == k;
      } else {
        var i :| 0 <= i < |rows| && rows[i].key == k;
        assert (rows + [row])[i].key == k;
      }
    }
  }

  /** Ready is exact: it holds just when both sides agree under every key and nothing is missing. */
  lemma ReadyIsAgreement(x: Expected, ledger: seq<Amount>, r: Report)
    requires r.missing == x.missing && ReportAddsUp(r)
    requires var e, a := AddAll(map[], x.amounts), AddAll(map[], ledger); RowsCompare(r.rows, e, a, e.Keys + a.Keys)
    ensures r.ready <==> Agrees(x, ledger)
  {
    var e, a := AddAll(map[], x.amounts), AddAll(map[], ledger);
    forall k ensures At(e, k) == SumAt(x.amounts, k) && At(a, k) == SumAt(ledger, k) {
      AddAllSums(map[], x.amounts, k);
      AddAllSums(map[], ledger, k);
    }
    if r.ready {
      forall k ensures SumAt(x.amounts, k) == SumAt(ledger, k) {
        if k in e.Keys + a.Keys {
          var i :| 0 <= i < |r.rows| && r.rows[i].key == k;
          assert RowDifference(r.rows[i]) == 0;
        }
      }
    }
  }

  // ----- filling the two maps

  /** `totals` and `missing` after the additions `x`, starting from `before` and `count`. */
  ghost predicate Added(before: Totals, count: nat, x: Expected, totals: Totals, missing: nat) {
    totals == AddAll(before, x.amounts) && missing == count + x.missing
  }

  lemma AddedPlus(before: Totals, count: nat, x: Expected, t: Totals, c: nat, y: Expected, t': Totals, c': nat)
    requires Added(before, count, x, t, c) && Added(t, c, y, t', c')
    ensures Added(before, count, Plus(x, y), t', c')
  {
    AddAllConcat(before, x.amounts, y.amounts);
  }

  lemma AddOne(totals: Totals, a: Amount)
    ensures AddAll(totals, [a]) == Add(totals, a)
  {
    assert [a][..0] == [];
  }

  method AddItem(totals: Totals, missing: nat, key: AuditKey, amount: Option<real>, enabled: bool)
    returns (totals': Totals, missing': nat)
    ensures Added(totals, missing, Item(key, amount, enabled), totals', missing')
  {
    totals', missing' := totals, missing;
    if amount.None? || !ValidMoney(amount.value) {
      missing' := missing + 1;
    } else if enabled {
      AddOne(totals, Amount(key, MoneyToPaise(amount.value)));
      totals' := Add(totals, Amount(key, MoneyToPaise(amount.value)));
    }
  }

  method SumAuditMonths(orders: seq<OrderSource>, targets: Targets) returns (revenue: MonthSums, invalid: set<(Id, int)>)
    ensures forall key: (Id, int) :: SumIn(revenue, key) == AuditRevenue(orders, targets, key.0, key.1)
    ensures forall key: (Id, int) :: key in invalid <==> AuditInvalid(orders, targets, key.0, key.1)
  {
    revenue, invalid := map[], {};
    for i := 0 to |orders|
      invariant forall key: (Id, int) :: SumIn(revenue, key) == AuditRevenue(orders[..i], targets, key.0, key.1)
      invariant forall key: (Id, int) :: key in invalid <==> AuditInvalid(orders[..i], targets, key.0, key.1)
    {
      var o := orders[i];
      assert orders[..i + 1][..i] == orders[..i];
      if !o.completed || o.deleted || BeforeCutoff(targets, o.beautician, o.date) {
        continue;
      }
      var key := (o.beautician, o.date.month);
      if o.snapshot.None? || o.snapshot.value.orderCost.None? || !ValidMoney(o.snapshot.value.orderCost.value) {
        invalid := invalid + {key};
        continue;
      }
      revenue := revenue[key := SumIn(revenue, key) + o.snapshot.value.orderCost.value];
    }
    assert orders[..|orders|] == orders;
  }

  method AddOrder(ghost all: seq<OrderSource>, targets: Targets, revenue: MonthSums, invalid: set<(Id, int)>,
                  start: DateKey, end: DateKey, o: OrderSource, totals: Totals, missing: nat)
    returns (totals': Totals, missing': nat)
    requires forall key: (Id, int) :: SumIn(revenue, key) == AuditRevenue(all, targets, key.0, key.1)
    requires forall key: (Id, int) :: key in invalid <==> AuditInvalid(all, targets, key.0, key.1)
    ensures Added(totals, missing, ExpectedOrder(all, targets, start, end, o), totals', missing')
  {
    totals', missing' := totals, missing;
    if !o.completed || o.deleted || !Within(o.date, start, end) {
      return;
    }
    if o.id == NIL_ID || o.beautician == NIL_ID || !ValidDate(o.date) || o.snapshot.None? {
      return totals, missing + 1;
    }
    var s, key := o.snapshot.value, (o.beautician, o.date.month);
    var enabled := BeforeCutoff(targets, o.beautician, o.date)
                   || (key !in invalid && SumIn(revenue, key) >= Target1(targets, o.beautician));
    assert enabled == AuditGeneralEnabled(all, targets, o);
    ghost var x, y := Item(OrderKey(o, SpecialCommission), s.special, true), Item(OrderKey(o, GeneralCommission), s.general, enabled);
    totals', missing' := AddItem(totals', missing', OrderKey(o, SpecialCommission), s.special, true);
    ghost var t1, c1 := totals', missing';
    totals', missing' := AddItem(totals', missing', OrderKey(o, GeneralCommission), s.general, enabled);
    ghost var t2, c2 := totals', missing';
    AddedPlus(totals, missing, x, t1, c1, y, t2, c2);
    totals', missing' := AddItem(totals', missing', OrderKey(o, UpgradeCommission), s.upgrade, true);
    AddedPlus(totals, missing, Plus(x, y), t2, c2, Item(OrderKey(o, UpgradeCommission), s.upgrade, true), totals', missing');
  }

  method AddOrders(orders: seq<OrderSource>, targets: Targets, revenue: MonthSums, invalid: set<(Id, int)>, start: DateKey, end: DateKey)
    returns (totals: Totals, missing: nat)
    requires forall key: (Id, int) :: SumIn(revenue, key) == AuditRevenue(orders, targets, key.0, key.1)
    requires forall key: (Id, int) :: key in invalid <==> AuditInvalid(orders, targets, key.0, key.1)
    ensures Added(map[], 0, ExpectedOrders(orders, targets, start, end, orders), totals, missing)
  {
    totals, missing := map[], 0;
    for i := 0 to |orders|
      invariant Added(map[], 0, ExpectedOrders(orders, targets, start, end, orders[..i]), totals, missing)
    {
      ghost var t, c := totals, missing;
      assert orders[..i + 1][..i] == orders[..i];
      totals, missing := AddOrder(orders, targets, revenue, invalid, start, end, orders[i], totals, missing);
      AddedPlus(map[], 0, ExpectedOrders(orders, targets, start, end, orders[..i]), t, c,
                ExpectedOrder(orders, targets, start, end, orders[i]), totals, missing);
    }
    assert orders[..|orders|] == orders;
  }

  method AddBonus(ghost all: seq<OrderSource>, targets: Targets, revenue: MonthSums, invalid: set<(Id, int)>, end: DateKey, bonus: real,
                  w: Id, totals: Totals, ghost missing: nat) returns (totals': Totals)
    requires w in targets
    requires forall key: (Id, int) :: SumIn(revenue, key) == AuditRevenue(all, targets, key.0, key.1)
    requires forall key: (Id, int) :: key in invalid <==> AuditInvalid(all, targets, key.0, key.1)
    ensures Added(totals, missing, ExpectedBonus(all, targets, end, bonus, w), totals', missing)
  {
    var key := (w, end.month);
    var earned := targets[w].target2 > 0.0 && key !in invalid && SumIn(revenue, key) >= targets[w].target2;
    assert earned == AuditBonusEarned(all, targets, w, end.month);
    totals' := totals;
    if earned {
      AddOne(totals, Amount(BonusKeyOf(w), MoneyToPaise(bonus)));
      totals' := Add(totals, Amount(BonusKeyOf(w), MoneyToPaise(bonus)));
    }
  }

  lemma NothingAdded(all: seq<OrderSource>, targets: Targets, end: DateKey, bonus: real, totals: Totals, missing: nat)
    ensures Added(totals, missing, ExpectedBonuses(all, targets, end, bonus, []), totals, missing)
  {
  }

  lemma BonusAppended(all: seq<OrderSource>, targets: Targets, end: DateKey, bonus: real, order: seq<Id>, w: Id)
    ensures ExpectedBonuses(all, targets, end, bonus, order + [w])
         == Plus(ExpectedBonuses(all, targets, end, bonus, order), ExpectedBonus(all, targets, end, bonus, w))
  {
    assert (order + [w])[..|order + [w]| - 1] == order;
  }

  method AddBonuses(ghost all: seq<OrderSource>, targets: Targets, revenue: MonthSums, invalid: set<(Id, int)>, end: DateKey, bonus: real,
                    totals: Totals, ghost missing: nat) returns (totals': Totals, ghost order: seq<Id>)
    requires forall key: (Id, int) :: SumIn(revenue, key) == AuditRevenue(all, targets, key.0, key.1)
    requires forall key: (Id, int) :: key in invalid <==> AuditInvalid(all, targets, key.0, key.1)
    ensures IsIteration(order, targets)
    ensures Added(totals, missing, ExpectedBonuses(all, targets, end, bonus, order), totals', missing)
  {
    hide SumIn, AuditRevenue, AuditInvalid, ExpectedBonus, Added;
    NothingAdded(all, targets, end, bonus, totals, missing);
    totals', order := totals, [];
    var rest := targets.Keys;
    while rest != {}
      invariant rest <= targets.Keys
      invariant forall i, j :: 0 <= i < j < |order| ==> order[i] != order[j]
      invariant forall i :: 0 <= i < |order| ==> order[i] in targets && order[i] !in rest
      invariant forall w :: w in targets ==> w in rest || w in order
      invariant Added(totals, missing, ExpectedBonuses(all, targets, end, bonus, order), totals', missing)
      decreases rest
    {
      var w :| w in rest;
      ghost var t := totals';
      totals' := AddBonus(all, targets, revenue, invalid, end, bonus, w, totals', missing);
      AddedPlus(totals, missing, ExpectedBonuses(all, targets, end, bonus, order), t, missing,
                ExpectedBonus(all, targets, end, bonus, w), totals', missing);
      BonusAppended(all, targets, end, bonus, order, w);
      order, rest := order + [w], rest - {w};
    }
  }

  method AddTrips(trips: seq<TripSource>, start: DateKey, end: DateKey, totals: Totals, missing: nat)
    returns (totals': Totals, missing': nat)
    ensures Added(totals, missing, ExpectedTrips(start, end, trips), totals', missing')
  {
    totals', missing' := totals, missing;
    for i := 0 to |trips|
      invariant Added(totals, missing, ExpectedTrips(start, end, trips[..i]), totals', missing')
    {
      ghost var t0, c0 := totals', missing';
      var t := trips[i];
      assert trips[..i + 1][..i] == trips[..i];
      if !(t.deleted || !t.finished || !Within(t.date, start, end)) && TripWorker(t).Some? {
        if t.snapshot.None? || !ValidDate(t.date) {
          missing' := missing' + 1;
        } else {
          var (worker, workerType) := TripWorker(t).value;
          var commission, petrol := ComputePayables(t);
          var ride := AuditKey(worker, workerType, TripScope, TripCommission, CommissionBucket);
          var fuel := AuditKey(worker, workerType, TripScope, Petrol, PetrolBucket);
          totals', missing' := AddItem(totals', missing', ride, commission, true);
          ghost var t1, c1 := totals', missing';
          totals', missing' := AddItem(totals', missing', fuel, petrol, true);
          AddedPlus(t0, c0, Item(ride, commission, true), t1, c1, Item(fuel, petrol, true), totals', missing');
        }
      }
      AddedPlus(totals, missing, ExpectedTrips(start, end, trips[..i]), t0, c0, ExpectedTrip(start, end, t), totals', missing');
    }
    assert trips[..|trips|] == trips;
  }

  method AddAwards(awards: seq<Award>, types: map<Id, WorkerType>, board: Board, totals: Totals, ghost missing: nat)
    returns (totals': Totals)
    ensures Added(totals, missing, ExpectedAwards(awards, types, board), totals', missing)
  {
    totals' := totals;
    for i := 0 to |awards|
      invariant Added(totals, missing, ExpectedAwards(awards[..i], types, board), totals', missing)
    {
      ghost var t := totals';
      assert awards[..i + 1][..i] == awards[..i];
      var a := Amount(AwardKeyOf(awards[i], types, board), MoneyToPaise(awards[i].bonus));
      AddOne(totals', a);
      totals' := Add(totals', a);
      AddedPlus(totals, missing, ExpectedAwards(awards[..i], types, board), t, missing, Expected([a], 0), totals', missing);
    }
    assert awards[..|awards|] == awards;
  }

  method AddLedger(read: seq<Entry>, start: DateKey, end: DateKey) returns (totals: Totals)
    ensures totals == AddAll(map[], LedgerAmounts(read, start, end))
  {
    totals := map[];
    for i := 0 to |read|
      invariant totals == AddAll(map[], LedgerAmounts(read[..i], start, end))
    {
      var e := read[i];
      assert read[..i + 1][..i] == read[..i];
      var scope := EntryScope(e, start, end);
      AddAllConcat(map[], LedgerAmounts(read[..i], start, end), LedgerAmount(e, start, end));
      if scope.Some? {
        var a := Amount(AuditKey(e.worker, e.workerType, scope.value, e.component, e.bucket), e.amount);
        AddOne(totals, a);
        totals := Add(totals, a);
      }
    }
    assert read[..|read|] == read;
  }

  class Reconciler {
    const backend: Repository

    constructor (backend: Repository)
      ensures this.backend == backend
    {
      this.backend := backend;
    }

    method LoadReconciliationLedger(office: Id, start: DateKey, end: DateKey) returns (read: seq<Entry>)
      requires forall k :: k in backend.entries ==> backend.entries[k].id == k
      ensures IsLedgerRead(read, backend.entries, office, start, end)
    {
      read := [];
      var rest := set k | k in backend.entries && AuditReads(backend.entries[k], office, start, end);
      while rest != {}
        invariant forall k :: k in rest ==> k in backend.entries && AuditReads(backend.entries[k], office, start, end)
        invariant forall i, j :: 0 <= i < j < |read| ==> read[i].id != read[j].id
        invariant forall i :: 0 <= i < |read| ==>
                    && read[i].id in backend.entries && backend.entries[read[i].id] == read[i]
                    && AuditReads(read[i], office, start, end) && read[i].id !in rest
        invariant forall k :: k in backend.entries && AuditReads(backend.entries[k], office, start, end) ==>
                    k in rest || exists i :: 0 <= i < |read| && read[i].id == k
        decreases rest
      {
        var k :| k in rest;
        ghost var before := read;
        read, rest := read + [backend.entries[k]], rest - {k};
        assert read[|before|].id == k;
        assert forall i :: 0 <= i < |before| ==> read[i] == before[i];
      }
    }

    /** All expected amounts, section by section. */
    method Expect(data: SourceData, office: Id, start: DateKey, end: DateKey)
      returns (ok: bool, totals: Totals, missing: nat, ghost order: seq<Id>)
      ensures IsIteration(order, TargetMap(data.targets))
      ensures ok <==> ExpectedOf(data, office, start, end, order).Some?
      ensures ok ==> Added(map[], 0, ExpectedOf(data, office, start, end, order).value, totals, missing)
    {
      totals, missing, order := map[], 0, AnyIteration(TargetMap(data.targets));
      var months := CoveringMonths(start, end);
      if months.None? || !ValidMoney(data.target2Bonus) || !ValidPrizes(data.prizes.beautician) || !ValidPrizes(data.prizes.rider) {
        return false, totals, missing, order;
      }
      var processor := new Processor(backend);
      var targets;
      ok, targets := processor.IndexTargets(data.targets);
      if !ok {
        return;
      }
      var orders := LoadOrders(data.orders, office, months.value.0, months.value.1);
      var revenue, invalid := SumAuditMonths(orders, targets);
      totals, missing := AddOrders(orders, targets, revenue, invalid, start, end);
      ghost var t1, c1 := totals, missing;
      totals, order := AddBonuses(orders, targets, revenue, invalid, end, data.target2Bonus, totals, missing);
      ghost var t2 := totals;
      AddedPlus(map[], 0, ExpectedOrders(orders, targets, start, end, orders), t1, c1,
                ExpectedBonuses(orders, targets, end, data.target2Bonus, order), t2, c1);
      totals, missing := AddTrips(LoadTrips(data, office, start, end), start, end, totals, missing);
      ghost var t3, c3 := totals, missing;
      ghost var x := ExpectedOrderSide(data, office, start, end, order);
      ghost var y := ExpectedTrips(start, end, LoadTrips(data, office, start, end));
      AddedPlus(map[], 0, x, t2, c1, y, t3, c3);
      var failed, checked := processor.CheckRows(data.beauticians, NO_STATS);
      if failed.Some? {
        return false, totals, missing, order;
      }
      failed, checked := processor.CheckRows(RiderRows(data.riders), NO_STATS);
      if failed.Some? {
        return false, totals, missing, order;
      }
      var beauticianAwards := RankBoards(data.beauticians, data.prizes, BeauticianBoard);
      totals := AddAwards(beauticianAwards, map[], BeauticianBoard, totals, missing);
      ghost var t4 := totals;
      AddedPlus(map[], 0, Plus(x, y), t3, c3, ExpectedBeauticianAwards(data), t4, c3);
      var types := processor.IndexTypes(data.riders);
      var riderAwards := RankBoards(RiderRows(data.riders), data.prizes, RiderBoard);
      totals := AddAwards(riderAwards, types, RiderBoard, totals, missing);
      AddedPlus(map[], 0, Plus(Plus(x, y), ExpectedBeauticianAwards(data)), t4, c3, ExpectedRiderAwards(data), totals, missing);
    }

    method Run(data: SourceData, office: Id, start: DateKey, end: DateKey)
      returns (report: Option<Report>, ghost order: seq<Id>, ghost read: seq<Entry>)
      requires forall k :: k in backend.entries ==> backend.entries[k].id == k
      ensures report.Some? ==> ReportAddsUp(report.value)
      ensures IsIteration(order, TargetMap(data.targets)) && IsLedgerRead(read, backend.entries, office, start, end)
      ensures match ExpectedOf(data, office, start, end, order)
              case None => report.None?
              case Some(x) =>
                && report.Some? && report.value.missing == x.missing
                && (report.value.ready <==> Agrees(x, LedgerAmounts(read, start, end)))
    {
      var entries := LoadReconciliationLedger(office, start, end);
      read := entries;
      var ok, expected, missing;
      ok, expected, missing, order := Expect(data, office, start, end);
      if !ok {
        return None, order, read;
      }
      var actual := AddLedger(entries, start, end);
      var r := Compare(expected, actual, missing);
      ReadyIsAgreement(ExpectedOf(data, office, start, end, order).value, LedgerAmounts(read, start, end), r);
      report := Some(r);
    }
  }
}
