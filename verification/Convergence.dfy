/** Source events converge to the rebuild: however the events of a worker's month arrive, the
    ledger ends with the order and bonus entries a rebuild of the month would write. */
module Convergence {
  import opened Wrappers
  import opened Dates
  import opened Money
  import opened Ranking
  import opened Ledger
  import opened SourcePuts
  import opened Sources
  import opened Plans
  import opened ControlPlane
  import opened RebuildPlan
  import opened EventPlan
  import opened EventFacts
  import opened RebuildFacts

  // ----- what an accepted order event writes

  predicate InMonth(o: OrderSource, c: MonthContext) {
    o.office == c.office && o.beautician == c.worker && o.date.month == c.month && o.completed && !o.deleted
  }

  /** Order `o`'s component `k` is among the writes of an event with context `c`. */
  predicate OrderWrite(c: MonthContext, o: OrderSource, k: Component) {
    InMonth(o, c) && Earns(o, k) && (k == GeneralCommission ==> EventGeneralEnabled(c, o.date))
  }

  predicate BonusDue(c: MonthContext, bonus: real) {
    c.revenue.Some? && c.target2 > 0.0 && c.revenue.value >= c.target2 && bonus > 0.0
  }

  function BonusOf(c: MonthContext, bonus: real): Entry
    requires c.revenue.Some?
  {
    BonusEntry(c.office, c.worker, DateKey(c.month, 1), c.target2, c.revenue.value, bonus)
  }

  ghost predicate EventWrite(c: MonthContext, orders: seq<OrderSource>, bonus: real, e: Entry) {
    (exists o, k :: o in orders && OrderWrite(c, o, k) && e == EntryOf(c.office, o, k))
    || (BonusDue(c, bonus) && e == BonusOf(c, bonus))
  }

  /** The general-commission writes are exactly those of the month's enabled orders. */
  lemma {:induction false} GeneralWrites(c: MonthContext, orders: seq<OrderSource>, e: Entry)
    requires forall o :: o in orders && InMonth(o, c) ==> o.id != NIL_ID && ValidDate(o.date)
    ensures e in EventGeneralPlans(c, orders).puts <==>
            exists o :: o in orders && OrderWrite(c, o, GeneralCommission) && e == EntryOf(c.office, o, GeneralCommission)
  {
    if orders != [] {
      var init, last := orders[..|orders| - 1], orders[|orders| - 1];
      assert forall o :: o in init ==> o in orders;
      GeneralWrites(c, init, e);
      var plan := EventGeneralPlan(c, last);
      assert plan.puts == if OrderWrite(c, last, GeneralCommission) then [EntryOf(c.office, last, GeneralCommission)] else [];
      assert EventGeneralPlans(c, orders).puts == EventGeneralPlans(c, init).puts + plan.puts;
      if exists o :: o in orders && OrderWrite(c, o, GeneralCommission) && e == EntryOf(c.office, o, GeneralCommission) {
        var o :| o in orders && OrderWrite(c, o, GeneralCommission) && e == EntryOf(c.office, o, GeneralCommission);
        assert o in init || o == last;
      }
    }
  }

  function ComponentWrite(office: Id, o: OrderSource, k: Component): seq<Entry> {
    if Earns(o, k) then [EntryOf(office, o, k)] else []
  }

  function BonusWrite(c: MonthContext, bonus: real): seq<Entry> {
    if BonusDue(c, bonus) then [BonusOf(c, bonus)] else []
  }

  lemma ComponentWrites(c: MonthContext, o: OrderSource, special: Plan, upgrade: Plan)
    requires o.snapshot.Some?
    requires special == ComponentPlan(OrderEntry(c.office, o, SpecialCommission, o.snapshot.value.special), o.snapshot.value.special, true)
    requires upgrade == ComponentPlan(OrderEntry(c.office, o, UpgradeCommission, o.snapshot.value.upgrade), o.snapshot.value.upgrade, true)
    ensures special.error.None? && special.puts == ComponentWrite(c.office, o, SpecialCommission)
    ensures upgrade.error.None? && upgrade.puts == ComponentWrite(c.office, o, UpgradeCommission)
  {
    hide SourceEntry;
  }

  lemma BonusWrites(ev: SourceEvent, c: MonthContext, bonus: real)
    requires c.revenue.Some? && ValidMoney(bonus) && ev.date.month == c.month
    ensures EventBonusPlan(c, ev.date, bonus).error.None? && EventBonusPlan(c, ev.date, bonus).puts == BonusWrite(c, bonus)
  {
    hide MoneyToPaise;
  }

  lemma AcceptedShape(ev: SourceEvent, o: OrderSource, c: MonthContext, orders: seq<OrderSource>, bonus: real)
    requires o.snapshot.Some? && c.revenue.Some? && ValidMoney(bonus) && ev.date.month == c.month
    ensures var p := AcceptedOrderPlan(ev, o, c, orders, bonus);
            && p.error.None?
            && p.puts == ComponentWrite(c.office, o, SpecialCommission) + ComponentWrite(c.office, o, UpgradeCommission)
                         + EventGeneralPlans(c, orders).puts + BonusWrite(c, bonus)
  {
    hide EventGeneralPlans, ComponentPlan, EntryOf, OrderEntry, EventBonusPlan, BonusWrite, ComponentWrite;
    var s := o.snapshot.value;
    var special := ComponentPlan(OrderEntry(c.office, o, SpecialCommission, s.special), s.special, true);
    var upgrade := ComponentPlan(OrderEntry(c.office, o, UpgradeCommission, s.upgrade), s.upgrade, true);
    ComponentWrites(c, o, special, upgrade);
    BonusWrites(ev, c, bonus);
  }

  ghost predicate UsableOrders(orders: seq<OrderSource>, c: MonthContext) {
    DistinctOrders(orders) && forall o :: o in orders && InMonth(o, c) ==> o.id != NIL_ID && ValidDate(o.date)
  }

  /** An accepted event writes its own special and upgrade components, the enabled general
      commission of its worker's month, and the bonus once it is due; nothing else. */
  lemma AcceptedWrites(ev: SourceEvent, o: OrderSource, c: MonthContext, orders: seq<OrderSource>, bonus: real, e: Entry)
    requires o.snapshot.Some? && o in orders && InMonth(o, c) && c.revenue.Some? && ValidMoney(bonus)
    requires ev.date == o.date && UsableOrders(orders, c)
    ensures var p := AcceptedOrderPlan(ev, o, c, orders, bonus);
            && (e in p.puts ==> EventWrite(c, orders, bonus, e))
            && (Earns(o, SpecialCommission) && e == EntryOf(c.office, o, SpecialCommission) ==> e in p.puts)
            && (Earns(o, UpgradeCommission) && e == EntryOf(c.office, o, UpgradeCommission) ==> e in p.puts)
            && (forall q :: q in orders && OrderWrite(c, q, GeneralCommission) && e == EntryOf(c.office, q, GeneralCommission) ==> e in p.puts)
            && (BonusDue(c, bonus) && e == BonusOf(c, bonus) ==> e in p.puts)
  {
    AcceptedShape(ev, o, c, orders, bonus);
    GeneralWrites(c, orders, e);
    if e in ComponentWrite(c.office, o, SpecialCommission) { assert OrderWrite(c, o, SpecialCommission); }
    if e in ComponentWrite(c.office, o, UpgradeCommission) { assert OrderWrite(c, o, UpgradeCommission); }
  }

  // ----- runs: orders arrive, events are delivered

  datatype Action = Arrive(order: OrderSource) | Deliver(ev: SourceEvent)

  datatype State = State(orders: seq<OrderSource>, entries: Entries)

  /** One office, worker and calendar month. */
  datatype Month = Month(office: Id, worker: Id, month: int) {
    function First(): DateKey { DateKey(month, 1) }
  }

  function DataOf(fixed: SourceData, s: State): SourceData {
    fixed.(orders := s.orders)
  }

  function Act(fixed: SourceData, periods: set<Period>, s: State, a: Action): State {
    match a
    case Arrive(o) => s.(orders := s.orders + [o])
    case Deliver(ev) => s.(entries := PutAll(s.entries, EventPlanOf(DataOf(fixed, s), periods, ev).puts))
  }

  predicate Counted(f: Month, o: OrderSource) {
    o.office == f.office && o.beautician == f.worker && o.date.month == f.month && o.completed && !o.deleted
  }

  predicate Usable(o: OrderSource) {
    && o.id != NIL_ID && ValidDate(o.date) && CostKnown(o) && o.snapshot.value.capturedAt.Some?
    && ValidAmount(AmountOf(o, SpecialCommission)) && ValidAmount(AmountOf(o, GeneralCommission))
    && ValidAmount(AmountOf(o, UpgradeCommission))
  }

  /** The month's completed orders are all usable and no two stored orders share an id. */
  ghost predicate GoodOrders(f: Month, orders: seq<OrderSource>) {
    DistinctOrders(orders) && forall o :: o in orders && Counted(f, o) ==> Usable(o)
  }

  /** The notification that describes the stored version of an order. */
  predicate Announces(ev: SourceEvent, o: OrderSource) {
    && ev.wellFormed && ev.isOrder && ev.source == o.id && ev.office == o.office && ev.date == o.date
    && o.snapshot.Some? && o.snapshot.value.capturedAt == Some(ev.version)
  }

  function Loaded(f: Month, orders: seq<OrderSource>): seq<OrderSource> {
    LoadOrders(orders, f.office, f.First(), MonthEnd(f.First()))
  }

  /** What a rebuild of the month pays for a component, given the orders stored so far. */
  predicate Due(fixed: SourceData, f: Month, orders: seq<OrderSource>, o: OrderSource, k: Component) {
    && Earns(o, k)
    && (k == GeneralCommission ==> GeneralEnabled(Loaded(f, orders), TargetMap(fixed.targets), f.worker, o.date))
  }

  function RevenueOf(fixed: SourceData, f: Month, orders: seq<OrderSource>): real {
    Revenue(Loaded(f, orders), TargetMap(fixed.targets), f.worker, f.month)
  }

  predicate MonthBonusDue(fixed: SourceData, f: Month, orders: seq<OrderSource>) {
    fixed.target2Bonus != 0.0 && BonusEarned(Loaded(f, orders), TargetMap(fixed.targets), f.worker, f.month)
  }

  function BonusKey(f: Month): EntryKey {
    EntryKey(f.office, TargetKey(f.worker, f.month))
  }

  function BonusAt(fixed: SourceData, f: Month, revenue: real): Entry {
    BonusEntry(f.office, f.worker, f.First(), Target2(TargetMap(fixed.targets), f.worker), revenue, fixed.target2Bonus)
  }

  // ----- the month's revenue, seen from both calculators

  lemma {:induction false} MonthFacts(f: Month, orders: seq<OrderSource>, targets: Targets, cutoff: DateKey)
    requires forall o :: o in orders && Counted(f, o) ==> CostKnown(o)
    requires forall o :: o in orders ==> o.office == f.office && o.completed && !o.deleted
    requires f.worker in targets ==> cutoff == ApplicableFrom(targets[f.worker])
    ensures !MonthInvalid(orders, targets, f.worker, f.month)
    ensures Revenue(orders, targets, f.worker, f.month) >= 0.0
    ensures var r := EventRevenue(orders, f.worker, f.month, cutoff);
            r.Some? && r.value >= 0.0 && (f.worker in targets ==> r.value == Revenue(orders, targets, f.worker, f.month))
  {
    if orders != [] {
      var init, o := orders[..|orders| - 1], orders[|orders| - 1];
      assert forall p :: p in init ==> p in orders;
      MonthFacts(f, init, targets, cutoff);
      assert o in orders;
    }
  }

  lemma {:induction false} TargetsAreValid(ts: seq<WorkerTarget>)
    requires ValidTargets(ts)
    ensures forall w :: w in TargetMap(ts) ==> ValidTarget(TargetMap(ts)[w]) && TargetMap(ts)[w].worker == w
  {
    if ts != [] {
      TargetsAreValid(ts[..|ts| - 1]);
    }
  }

  /** An event and a rebuild agree on what the month's orders earn. */
  lemma ContextAgrees(fixed: SourceData, f: Month, s: State, date: DateKey)
    requires GoodOrders(f, s.orders) && date.month == f.month && ValidTargets(fixed.targets)
    ensures var c := ContextOf(DataOf(fixed, s), f.office, f.worker, date, Loaded(f, s.orders));
            && c.revenue.Some? && c.office == f.office && c.worker == f.worker && c.month == f.month
            && (forall d: DateKey :: d.month == f.month ==>
                  (EventGeneralEnabled(c, d) <==>
                   GeneralEnabled(Loaded(f, s.orders), TargetMap(fixed.targets), f.worker, d)))
            && (ValidMoney(fixed.target2Bonus) ==> (BonusDue(c, fixed.target2Bonus) <==> MonthBonusDue(fixed, f, s.orders)))
            && (BonusDue(c, fixed.target2Bonus) ==> BonusOf(c, fixed.target2Bonus) == BonusAt(fixed, f, RevenueOf(fixed, f, s.orders)))
  {
    var all, targets := Loaded(f, s.orders), TargetMap(fixed.targets);
    forall o | o in all ensures o in s.orders && o.office == f.office && o.completed && !o.deleted {
      LoadedOrders(s.orders, f.office, f.First(), MonthEnd(f.First()), o);
    }
    TargetsAreValid(fixed.targets);
    MonthFacts(f, all, targets, EventCutoff(targets, f.worker));
  }

  // ----- the invariant

  /** A stored component entry is one the month pays, with its exact content. */
  ghost predicate ComponentFits(fixed: SourceData, f: Month, s: State, o: OrderSource, k: Component) {
    var e := EntryOf(f.office, o, k);
    e.id in s.entries ==> Due(fixed, f, s.orders, o, k) && Content(s.entries[e.id]) == e
  }

  /** A stored bonus was earned with some revenue the month had reached. */
  ghost predicate BonusFits(fixed: SourceData, f: Month, s: State) {
    BonusKey(f) in s.entries ==>
      exists r: real ::
        && Content(s.entries[BonusKey(f)]) == BonusAt(fixed, f, r)
        && r <= RevenueOf(fixed, f, s.orders) && MonthBonusDue(fixed, f, s.orders)
  }

  ghost predicate Fits(fixed: SourceData, f: Month, s: State) {
    && (forall o, k :: o in s.orders && Counted(f, o) && OrderComponent(k) ==> ComponentFits(fixed, f, s, o, k))
    && BonusFits(fixed, f, s)
    && (forall id, k :: (forall o :: o in s.orders ==> o.id != id) ==>
          EntryKey(f.office, SourceKey(Orders, id, k)) !in s.entries)
  }

  /** Everything the month decides jointly is in place. */
  ghost predicate Complete(fixed: SourceData, f: Month, s: State) {
    && (forall o :: o in s.orders && Counted(f, o) && Due(fixed, f, s.orders, o, GeneralCommission) ==>
          EntryOf(f.office, o, GeneralCommission).id in s.entries)
    && (MonthBonusDue(fixed, f, s.orders) ==>
          BonusKey(f) in s.entries
          && Content(s.entries[BonusKey(f)]) == BonusAt(fixed, f, RevenueOf(fixed, f, s.orders)))
  }

  /** An order's own components are in place. */
  ghost predicate OwnStored(f: Month, s: State, o: OrderSource) {
    && (Earns(o, SpecialCommission) ==> EntryOf(f.office, o, SpecialCommission).id in s.entries)
    && (Earns(o, UpgradeCommission) ==> EntryOf(f.office, o, UpgradeCommission).id in s.entries)
  }

  lemma {:induction false} FindsOrder(orders: seq<OrderSource>, o: OrderSource)
    requires DistinctOrders(orders) && o in orders
    ensures FindOrder(orders, o.id) == Some(o)
  {
    var init, last := orders[..|orders| - 1], orders[|orders| - 1];
    if last.id != o.id {
      assert o in init;
      FindsOrder(init, o);
    } else {
      var i :| 0 <= i < |orders| && orders[i] == o;
    }
  }

  lemma {:induction false} FoundIsStored(orders: seq<OrderSource>, id: Id)
    ensures FindOrder(orders, id).Some? ==> FindOrder(orders, id).value in orders && FindOrder(orders, id).value.id == id
  {
    if orders != [] {
      FoundIsStored(orders[..|orders| - 1], id);
    }
  }

  /** Puts of one plan by key: the effect is that of the one put with the key. */
  lemma PutIn(m: Entries, es: seq<Entry>, e: Entry)
    requires DistinctKeys(es) && e in es
    ensures e.id in PutAll(m, es)
    ensures Content(PutAll(m, es)[e.id]) == Content(PutSource(m, e)[e.id])
  {
    var j :| 0 <= j < |es| && es[j] == e;
    PutsActAlone(m, es, j);
  }

  lemma PutKeepsKeys(m: Entries, es: seq<Entry>, k: EntryKey)
    requires k in m
    ensures k in PutAll(m, es)
  {
    PutsKeepFrozen(m, es, k);
  }

  // ----- one step

  lemma EventPlanIs(fixed: SourceData, periods: set<Period>, f: Month, s: State, ev: SourceEvent, o: OrderSource)
    requires GoodOrders(f, s.orders) && o in s.orders && Counted(f, o) && Announces(ev, o)
    requires ValidTargets(fixed.targets) && !ClosedPeriodOverlap(periods, ev.office, ev.date, ev.date)
    ensures var all := Loaded(f, s.orders);
            EventPlanOf(DataOf(fixed, s), periods, ev) ==
            AcceptedOrderPlan(ev, o, ContextOf(DataOf(fixed, s), f.office, f.worker, ev.date, all), all, fixed.target2Bonus)
  {
    FindsOrder(s.orders, o);
    assert MonthStart(ev.date) == f.First() && MonthEnd(ev.date) == MonthEnd(f.First());
  }

  ghost predicate Setting(fixed: SourceData, f: Month, s: State) {
    Fits(fixed, f, s) && GoodOrders(f, s.orders) && ValidTargets(fixed.targets) && ValidMoney(fixed.target2Bonus)
  }

  /** A family write, once put, is stored with exactly its content. */
  lemma WriteLands(fixed: SourceData, f: Month, s: State, date: DateKey, e: Entry)
    requires Setting(fixed, f, s) && date.month == f.month
    requires EventWrite(ContextOf(DataOf(fixed, s), f.office, f.worker, date, Loaded(f, s.orders)), Loaded(f, s.orders), fixed.target2Bonus, e)
    ensures Content(PutSource(s.entries, e)[e.id]) == e
  {
    var all := Loaded(f, s.orders);
    var c := ContextOf(DataOf(fixed, s), f.office, f.worker, date, all);
    ContextAgrees(fixed, f, s, date);
    if o, k :| o in all && OrderWrite(c, o, k) && e == EntryOf(c.office, o, k) {
      LoadedOrders(s.orders, f.office, f.First(), MonthEnd(f.First()), o);
      assert OrderComponent(k);
      assert ComponentFits(fixed, f, s, o, k);
    } else {
      assert e.id == BonusKey(f);
    }
  }

  /** The entries of the month after a family event, one component at a time. */
  lemma FamilyComponent(fixed: SourceData, f: Month, s: State, date: DateKey, es: seq<Entry>, o: OrderSource, k: Component)
    requires Setting(fixed, f, s) && date.month == f.month && DistinctKeys(es)
    requires var all := Loaded(f, s.orders);
             forall e :: e in es ==> EventWrite(ContextOf(DataOf(fixed, s), f.office, f.worker, date, all), all, fixed.target2Bonus, e)
    requires o in s.orders && Counted(f, o) && OrderComponent(k)
    ensures ComponentFits(fixed, f, s.(entries := PutAll(s.entries, es)), o, k)
  {
    var all := Loaded(f, s.orders);
    var c := ContextOf(DataOf(fixed, s), f.office, f.worker, date, all);
    var own := EntryOf(f.office, o, k);
    ContextAgrees(fixed, f, s, date);
    assert ComponentFits(fixed, f, s, o, k);
    if i :| 0 <= i < |es| && es[i].id == own.id {
      var e := es[i];
      assert EventWrite(c, all, fixed.target2Bonus, e);
      var p, q :| p in all && OrderWrite(c, p, q) && e == EntryOf(c.office, p, q);
      LoadedOrders(s.orders, f.office, f.First(), MonthEnd(f.First()), p);
      SameOrder(s.orders, o, p);
      WriteLands(fixed, f, s, date, e);
      PutIn(s.entries, es, e);
    } else {
      PutsElsewhere(s.entries, es, own.id);
    }
  }

  lemma SameOrder(orders: seq<OrderSource>, o: OrderSource, p: OrderSource)
    requires DistinctOrders(orders) && o in orders && p in orders && o.id == p.id
    ensures o == p
  {
    var i :| 0 <= i < |orders| && orders[i] == o;
    var j :| 0 <= j < |orders| && orders[j] == p;
  }

  lemma FamilyBonus(fixed: SourceData, f: Month, s: State, date: DateKey, es: seq<Entry>)
    requires Setting(fixed, f, s) && date.month == f.month && DistinctKeys(es)
    requires var all := Loaded(f, s.orders);
             var c := ContextOf(DataOf(fixed, s), f.office, f.worker, date, all);
             && (forall e :: e in es ==> EventWrite(c, all, fixed.target2Bonus, e))
             && (BonusDue(c, fixed.target2Bonus) ==> BonusOf(c, fixed.target2Bonus) in es)
    ensures var s' := s.(entries := PutAll(s.entries, es));
            && BonusFits(fixed, f, s')
            && (MonthBonusDue(fixed, f, s.orders) ==>
                  BonusKey(f) in s'.entries
                  && Content(s'.entries[BonusKey(f)]) == BonusAt(fixed, f, RevenueOf(fixed, f, s.orders)))
  {
    var all := Loaded(f, s.orders);
    var c := ContextOf(DataOf(fixed, s), f.office, f.worker, date, all);
    ContextAgrees(fixed, f, s, date);
    if MonthBonusDue(fixed, f, s.orders) {
      var e := BonusOf(c, fixed.target2Bonus);
      WriteLands(fixed, f, s, date, e);
      PutIn(s.entries, es, e);
    } else {
      forall i | 0 <= i < |es| ensures es[i].id != BonusKey(f) {
        assert EventWrite(c, all, fixed.target2Bonus, es[i]);
      }
      PutsElsewhere(s.entries, es, BonusKey(f));
    }
  }

  lemma FamilyAbsent(fixed: SourceData, f: Month, s: State, c: MonthContext, es: seq<Entry>, id: Id, k: Component)
    requires Fits(fixed, f, s) && (forall o :: o in s.orders ==> o.id != id)
    requires forall e :: e in es ==> EventWrite(c, Loaded(f, s.orders), fixed.target2Bonus, e)
    ensures EntryKey(f.office, SourceKey(Orders, id, k)) !in PutAll(s.entries, es)
  {
    var key := EntryKey(f.office, SourceKey(Orders, id, k));
    forall i | 0 <= i < |es| ensures es[i].id != key {
      assert EventWrite(c, Loaded(f, s.orders), fixed.target2Bonus, es[i]);
      if o, q :| o in Loaded(f, s.orders) && OrderWrite(c, o, q) && es[i] == EntryOf(c.office, o, q) {
        LoadedOrders(s.orders, f.office, f.First(), MonthEnd(f.First()), o);
      }
    }
    PutsElsewhere(s.entries, es, key);
  }

  /** An event of the month brings everything the month decides up to date. */
  lemma FamilyEvent(fixed: SourceData, periods: set<Period>, f: Month, s: State, ev: SourceEvent, o: OrderSource)
    requires Setting(fixed, f, s) && o in s.orders && Counted(f, o) && Announces(ev, o)
    requires !ClosedPeriodOverlap(periods, ev.office, ev.date, ev.date)
    ensures var s' := Act(fixed, periods, s, Deliver(ev));
            Fits(fixed, f, s') && Complete(fixed, f, s') && OwnStored(f, s', o)
  {
    var all := Loaded(f, s.orders);
    var c := ContextOf(DataOf(fixed, s), f.office, f.worker, ev.date, all);
    EventPlanIs(fixed, periods, f, s, ev, o);
    ContextAgrees(fixed, f, s, ev.date);
    var es := AcceptedOrderPlan(ev, o, c, all, fixed.target2Bonus).puts;
    var s' := s.(entries := PutAll(s.entries, es));
    assert UsableOrders(all, c) by {
      LoadedDistinct(s.orders, f.office, f.First(), MonthEnd(f.First()));
      forall p | p in all ensures p in s.orders { LoadedOrders(s.orders, f.office, f.First(), MonthEnd(f.First()), p); }
    }
    LoadedOrders(s.orders, f.office, f.First(), MonthEnd(f.First()), o);
    AcceptedOrderDistinct(ev, o, c, all, fixed.target2Bonus);
    forall e | e in es ensures EventWrite(c, all, fixed.target2Bonus, e) {
      AcceptedWrites(ev, o, c, all, fixed.target2Bonus, e);
    }
    if BonusDue(c, fixed.target2Bonus) {
      AcceptedWrites(ev, o, c, all, fixed.target2Bonus, BonusOf(c, fixed.target2Bonus));
    }
    FamilyBonus(fixed, f, s, ev.date, es);
    forall p, k | p in s.orders && Counted(f, p) && OrderComponent(k) ensures ComponentFits(fixed, f, s', p, k) {
      FamilyComponent(fixed, f, s, ev.date, es, p, k);
    }
    forall id, k | forall p :: p in s.orders ==> p.id != id
      ensures EntryKey(f.office, SourceKey(Orders, id, k)) !in s'.entries
    {
      FamilyAbsent(fixed, f, s, c, es, id, k);
    }
    forall p | p in s.orders && Counted(f, p) && Due(fixed, f, s.orders, p, GeneralCommission)
      ensures EntryOf(f.office, p, GeneralCommission).id in s'.entries
    {
      LoadedOrders(s.orders, f.office, f.First(), MonthEnd(f.First()), p);
      AcceptedWrites(ev, o, c, all, fixed.target2Bonus, EntryOf(f.office, p, GeneralCommission));
      PutIn(s.entries, es, EntryOf(f.office, p, GeneralCommission));
    }
    OwnLands(f, s, ev, o, c, all, fixed.target2Bonus);
  }

  lemma OwnLands(f: Month, s: State, ev: SourceEvent, o: OrderSource, c: MonthContext, all: seq<OrderSource>, bonus: real)
    requires o.snapshot.Some? && o in all && InMonth(o, c) && c.revenue.Some? && ValidMoney(bonus)
    requires ev.date == o.date && UsableOrders(all, c) && c.office == f.office
    ensures OwnStored(f, s.(entries := PutAll(s.entries, AcceptedOrderPlan(ev, o, c, all, bonus).puts)), o)
  {
    var es := AcceptedOrderPlan(ev, o, c, all, bonus).puts;
    AcceptedOrderDistinct(ev, o, c, all, bonus);
    if Earns(o, SpecialCommission) {
      AcceptedWrites(ev, o, c, all, bonus, EntryOf(f.office, o, SpecialCommission));
      PutIn(s.entries, es, EntryOf(f.office, o, SpecialCommission));
    }
    if Earns(o, UpgradeCommission) {
      AcceptedWrites(ev, o, c, all, bonus, EntryOf(f.office, o, UpgradeCommission));
      PutIn(s.entries, es, EntryOf(f.office, o, UpgradeCommission));
    }
  }

  // ----- events and arrivals outside the month

  /** Where the writes of any accepted order event can be. */
  ghost predicate Belongs(c: MonthContext, orders: seq<OrderSource>, e: Entry) {
    && e.id.office == c.office
    && (e.id.key == TargetKey(c.worker, c.month)
        || exists o, k :: o in orders && o.beautician == c.worker && o.date.month == c.month && o.office == c.office
                          && e.id.key == SourceKey(Orders, o.id, k))
  }

  lemma {:induction false} GeneralBelongs(c: MonthContext, orders: seq<OrderSource>, e: Entry)
    requires e in EventGeneralPlans(c, orders).puts
    ensures Belongs(c, orders, e)
  {
    var init, last := orders[..|orders| - 1], orders[|orders| - 1];
    if e in EventGeneralPlans(c, init).puts {
      GeneralBelongs(c, init, e);
      if o, k :| o in init && o.beautician == c.worker && o.date.month == c.month && o.office == c.office
                 && e.id.key == SourceKey(Orders, o.id, k) {
        assert o in orders;
      }
    } else {
      assert last in orders;
    }
  }

  lemma AcceptedBelongs(ev: SourceEvent, o: OrderSource, c: MonthContext, orders: seq<OrderSource>, bonus: real, e: Entry)
    requires o.snapshot.Some? && o in orders && o.beautician == c.worker && o.date.month == c.month && o.office == c.office
    requires ev.date.month == c.month
    requires e in AcceptedOrderPlan(ev, o, c, orders, bonus).puts
    ensures Belongs(c, orders, e)
  {
    var s := o.snapshot.value;
    var special := ComponentPlan(OrderEntry(c.office, o, SpecialCommission, s.special), s.special, true).puts;
    var upgrade := ComponentPlan(OrderEntry(c.office, o, UpgradeCommission, s.upgrade), s.upgrade, true).puts;
    var general := EventGeneralPlans(c, orders).puts;
    var due := EventBonusPlan(c, ev.date, bonus).puts;
    assert AcceptedOrderPlan(ev, o, c, orders, bonus).puts == [] + special + upgrade + general + due;
    if e in general {
      GeneralBelongs(c, orders, e);
    } else if e in due {
      assert e.id.key == TargetKey(c.worker, c.month);
    } else {
      assert e.id.key == SourceKey(Orders, o.id, e.component);
    }
  }

  ghost predicate FamilyEventFor(f: Month, s: State, ev: SourceEvent) {
    exists o :: o in s.orders && Counted(f, o) && Announces(ev, o)
  }

  /** A key the month's entries can have, or could have for an order not stored yet. */
  ghost predicate MonthKey(f: Month, orders: seq<OrderSource>, key: EntryKey) {
    && key.office == f.office
    && (key == BonusKey(f)
        || exists id, k :: key == EntryKey(f.office, SourceKey(Orders, id, k))
                           && forall o :: o in orders && o.id == id ==> Counted(f, o))
  }

  /** The order whose announcement makes an order event write, and what the event reloads with it. */
  lemma WritingOrder(data: SourceData, periods: set<Period>, ev: SourceEvent, e: Entry)
    returns (o: OrderSource, c: MonthContext, all: seq<OrderSource>)
    requires ev.isOrder && e in EventPlanOf(data, periods, ev).puts
    ensures o in data.orders && Announces(ev, o) && o.completed && !o.deleted
    ensures all == LoadOrders(data.orders, ev.office, MonthStart(ev.date), MonthEnd(ev.date)) && o in all
    ensures c.office == o.office && c.worker == o.beautician && c.month == o.date.month
    ensures e in AcceptedOrderPlan(ev, o, c, all, data.target2Bonus).puts
  {
    hide FindOrder, LoadOrders, AcceptedOrderPlan, TripEventPlan, ClosedPeriodOverlap;
    FoundIsStored(data.orders, ev.source);
    o := FindOrder(data.orders, ev.source).value;
    all := LoadOrders(data.orders, ev.office, MonthStart(ev.date), MonthEnd(ev.date));
    c := ContextOf(data, ev.office, o.beautician, ev.date, all);
    LoadedOrders(data.orders, ev.office, MonthStart(ev.date), MonthEnd(ev.date), o);
  }

  /** What an order of another family writes is none of the month's. */
  lemma BelongsElsewhere(f: Month, orders: seq<OrderSource>, o: OrderSource, c: MonthContext, all: seq<OrderSource>, e: Entry)
    requires Belongs(c, all, e) && forall p :: p in all ==> p in orders
    requires c.office == o.office && c.worker == o.beautician && c.month == o.date.month
    requires o.completed && !o.deleted && !Counted(f, o)
    ensures !MonthKey(f, orders, e.id)
  {
  }

  lemma OtherEventElsewhere(fixed: SourceData, periods: set<Period>, f: Month, s: State, ev: SourceEvent, e: Entry)
    requires !FamilyEventFor(f, s, ev)
    requires e in EventPlanOf(DataOf(fixed, s), periods, ev).puts
    ensures !MonthKey(f, s.orders, e.id)
  {
    if ev.isOrder {
      hide EventPlanOf, LoadOrders, AcceptedOrderPlan, Belongs, MonthKey;
      var o, c, all := WritingOrder(DataOf(fixed, s), periods, ev, e);
      AcceptedBelongs(ev, o, c, all, fixed.target2Bonus, e);
      forall p | p in all ensures p in s.orders {
        LoadedOrders(s.orders, ev.office, MonthStart(ev.date), MonthEnd(ev.date), p);
      }
      BelongsElsewhere(f, s.orders, o, c, all, e);
    } else {
      TripPutElsewhere(DataOf(fixed, s), periods, ev, e);
    }
  }

  lemma TripPutElsewhere(data: SourceData, periods: set<Period>, ev: SourceEvent, e: Entry)
    requires !ev.isOrder && e in EventPlanOf(data, periods, ev).puts
    ensures e.id.key.SourceKey? && e.id.key.collection == Trips
  {
  }

  lemma OtherEvent(fixed: SourceData, periods: set<Period>, f: Month, s: State, ev: SourceEvent)
    requires Setting(fixed, f, s) && !FamilyEventFor(f, s, ev)
    ensures var s' := Act(fixed, periods, s, Deliver(ev));
            && Fits(fixed, f, s')
            && (Complete(fixed, f, s) ==> Complete(fixed, f, s'))
  {
    var es := EventPlanOf(DataOf(fixed, s), periods, ev).puts;
    var s' := Act(fixed, periods, s, Deliver(ev));
    forall key | MonthKey(f, s.orders, key)
      ensures key in s'.entries <==> key in s.entries
      ensures key in s.entries ==> s'.entries[key] == s.entries[key]
    {
      forall i | 0 <= i < |es| ensures es[i].id != key {
        OtherEventElsewhere(fixed, periods, f, s, ev, es[i]);
      }
      PutsElsewhere(s.entries, es, key);
    }
    assert MonthKey(f, s.orders, BonusKey(f));
    forall o, k | o in s.orders && Counted(f, o) && OrderComponent(k)
      ensures MonthKey(f, s.orders, EntryOf(f.office, o, k).id)
    {
      assert EntryOf(f.office, o, k).id == EntryKey(f.office, SourceKey(Orders, o.id, k));
      forall p | p in s.orders && p.id == o.id ensures p == o { SameOrder(s.orders, o, p); }
    }
    forall o, k | o in s.orders && Counted(f, o) && OrderComponent(k) ensures ComponentFits(fixed, f, s', o, k) {
      assert ComponentFits(fixed, f, s, o, k);
    }
    forall id, k | forall o :: o in s.orders ==> o.id != id
      ensures EntryKey(f.office, SourceKey(Orders, id, k)) !in s'.entries
    {
      assert MonthKey(f, s.orders, EntryKey(f.office, SourceKey(Orders, id, k)));
    }
  }

  /** A new order changes what the month decides only upwards. */
  lemma ArrivalRaises(fixed: SourceData, f: Month, orders: seq<OrderSource>, x: OrderSource, o: OrderSource, k: Component)
    requires GoodOrders(f, orders + [x]) && ValidTargets(fixed.targets)
    ensures Loaded(f, orders + [x]) == Loaded(f, orders) + (if OrderMatches(x, f.office, f.First(), MonthEnd(f.First())) then [x] else [])
    ensures RevenueOf(fixed, f, orders + [x]) >= RevenueOf(fixed, f, orders)
    ensures !Counted(f, x) ==> RevenueOf(fixed, f, orders + [x]) == RevenueOf(fixed, f, orders)
    ensures MonthBonusDue(fixed, f, orders) ==> MonthBonusDue(fixed, f, orders + [x])
    ensures !Counted(f, x) ==> (MonthBonusDue(fixed, f, orders) <==> MonthBonusDue(fixed, f, orders + [x]))
    ensures o.date.month == f.month && Due(fixed, f, orders, o, k) ==> Due(fixed, f, orders + [x], o, k)
    ensures !Counted(f, x) && o.date.month == f.month ==> (Due(fixed, f, orders, o, k) <==> Due(fixed, f, orders + [x], o, k))
  {
    var targets := TargetMap(fixed.targets);
    var all, all' := Loaded(f, orders), Loaded(f, orders + [x]);
    assert (orders + [x])[..|orders|] == orders;
    forall p | p in all' ensures p in orders + [x] && p.office == f.office && p.completed && !p.deleted {
      LoadedOrders(orders + [x], f.office, f.First(), MonthEnd(f.First()), p);
    }
    MonthFacts(f, all', targets, EventCutoff(targets, f.worker));
    if all' != all {
      assert all' == all + [x] && all'[..|all|] == all;
      assert x in orders + [x];
    }
  }

  lemma Arrival(fixed: SourceData, periods: set<Period>, f: Month, s: State, x: OrderSource)
    requires Setting(fixed, f, s) && GoodOrders(f, s.orders + [x])
    ensures var s' := Act(fixed, periods, s, Arrive(x));
            && Fits(fixed, f, s')
            && (!Counted(f, x) && Complete(fixed, f, s) ==> Complete(fixed, f, s'))
  {
    var s' := Act(fixed, periods, s, Arrive(x));
    assert forall o :: o in s'.orders <==> o in s.orders || o == x;
    assert forall o :: o in s.orders ==> o.id != x.id by {
      forall o | o in s.orders ensures o.id != x.id {
        var i :| 0 <= i < |s.orders| && s.orders[i] == o;
        assert s'.orders[i] == o && s'.orders[|s.orders|] == x;
      }
    }
    forall o, k | o in s'.orders && Counted(f, o) && OrderComponent(k) ensures ComponentFits(fixed, f, s', o, k) {
      if o in s.orders {
        assert ComponentFits(fixed, f, s, o, k);
        ArrivalRaises(fixed, f, s.orders, x, o, k);
      } else {
        assert EntryOf(f.office, o, k).id == EntryKey(f.office, SourceKey(Orders, x.id, k));
      }
    }
    ArrivalRaises(fixed, f, s.orders, x, x, SpecialCommission);
    if !Counted(f, x) && Complete(fixed, f, s) {
      forall o | o in s'.orders && Counted(f, o) && Due(fixed, f, s'.orders, o, GeneralCommission)
        ensures EntryOf(f.office, o, GeneralCommission).id in s'.entries
      {
        ArrivalRaises(fixed, f, s.orders, x, o, GeneralCommission);
      }
    }
  }

  // ----- whole runs

  /** A ledger without order projections of the office and without the month's bonus. */
  ghost predicate Fresh(f: Month, m: Entries) {
    && (forall id, k :: EntryKey(f.office, SourceKey(Orders, id, k)) !in m)
    && BonusKey(f) !in m
  }

  ghost predicate Stepped(fixed: SourceData, periods: set<Period>, states: seq<State>, actions: seq<Action>, i: nat)
    requires |states| == |actions| + 1 && i < |actions|
  {
    states[i + 1] == Act(fixed, periods, states[i], actions[i])
  }

  ghost predicate IsRun(fixed: SourceData, periods: set<Period>, f: Month, states: seq<State>, actions: seq<Action>) {
    && |states| == |actions| + 1
    && states[0].orders == [] && Fresh(f, states[0].entries)
    && (forall i {:trigger Stepped(fixed, periods, states, actions, i)} :: 0 <= i < |actions| ==> Stepped(fixed, periods, states, actions, i))
    && ValidTargets(fixed.targets) && ValidMoney(fixed.target2Bonus)
    && (forall d: DateKey :: d.month == f.month ==> !ClosedPeriodOverlap(periods, f.office, d, d))
  }

  lemma {:induction false} OrdersGrow(fixed: SourceData, periods: set<Period>, f: Month, states: seq<State>, actions: seq<Action>, i: nat, j: nat)
    requires IsRun(fixed, periods, f, states, actions) && i <= j <= |actions|
    ensures states[i].orders <= states[j].orders
    decreases j - i
  {
    if i < j {
      OrdersGrow(fixed, periods, f, states, actions, i, j - 1);
      assert Stepped(fixed, periods, states, actions, j - 1);
    }
  }

  lemma PrefixIsGood(f: Month, orders: seq<OrderSource>, orders': seq<OrderSource>)
    requires orders <= orders' && GoodOrders(f, orders')
    ensures GoodOrders(f, orders)
  {
    forall o | o in orders ensures o in orders' {
      var i :| 0 <= i < |orders| && orders[i] == o;
      assert orders'[i] == o;
    }
    assert forall i :: 0 <= i < |orders| ==> orders[i] == orders'[i];
  }

  lemma {:induction false} RunFits(fixed: SourceData, periods: set<Period>, f: Month, states: seq<State>, actions: seq<Action>, i: nat)
    requires IsRun(fixed, periods, f, states, actions) && i <= |actions| && GoodOrders(f, states[|actions|].orders)
    ensures Setting(fixed, f, states[i])
  {
    OrdersGrow(fixed, periods, f, states, actions, i, |actions|);
    PrefixIsGood(f, states[i].orders, states[|actions|].orders);
    if i > 0 {
      hide Act, GoodOrders, Fits, ClosedPeriodOverlap, Fresh, Complete;
      RunFits(fixed, periods, f, states, actions, i - 1);
      assert Stepped(fixed, periods, states, actions, i - 1);
      StepFits(fixed, periods, f, states[i - 1], actions[i - 1]);
    }
  }

  lemma StepFits(fixed: SourceData, periods: set<Period>, f: Month, s: State, a: Action)
    requires Setting(fixed, f, s) && GoodOrders(f, Act(fixed, periods, s, a).orders)
    requires forall d: DateKey :: d.month == f.month ==> !ClosedPeriodOverlap(periods, f.office, d, d)
    ensures Fits(fixed, f, Act(fixed, periods, s, a))
    ensures a.Deliver? && FamilyEventFor(f, s, a.ev) ==> Complete(fixed, f, Act(fixed, periods, s, a))
    ensures !(a.Arrive? && Counted(f, a.order)) && Complete(fixed, f, s) ==> Complete(fixed, f, Act(fixed, periods, s, a))
  {
    match a
    case Arrive(x) => Arrival(fixed, periods, f, s, x);
    case Deliver(ev) =>
      if o :| o in s.orders && Counted(f, o) && Announces(ev, o) {
        FamilyEvent(fixed, periods, f, s, ev, o);
      } else {
        OtherEvent(fixed, periods, f, s, ev);
      }
  }

  /** By step `i`, every counted order that has arrived was followed by an event of the month. */
  ghost predicate Heard(f: Month, states: seq<State>, actions: seq<Action>, i: nat)
    requires |states| == |actions| + 1 && i <= |actions|
  {
    forall p :: 0 <= p < i && actions[p].Arrive? && Counted(f, actions[p].order) ==>
      exists q :: p < q < i && actions[q].Deliver? && FamilyEventFor(f, states[q], actions[q].ev)
  }

  lemma HeardBefore(f: Month, states: seq<State>, actions: seq<Action>, i: nat)
    requires |states| == |actions| + 1 && 0 < i <= |actions| && Heard(f, states, actions, i)
    requires !(actions[i - 1].Deliver? && FamilyEventFor(f, states[i - 1], actions[i - 1].ev))
    ensures !(actions[i - 1].Arrive? && Counted(f, actions[i - 1].order))
    ensures Heard(f, states, actions, i - 1)
  {
    forall p | 0 <= p < i - 1 && actions[p].Arrive? && Counted(f, actions[p].order)
      ensures exists q :: p < q < i - 1 && actions[q].Deliver? && FamilyEventFor(f, states[q], actions[q].ev)
    {
      var q :| p < q < i && actions[q].Deliver? && FamilyEventFor(f, states[q], actions[q].ev);
      assert q != i - 1;
    }
  }

  lemma NothingIsComplete(fixed: SourceData, f: Month, s: State)
    requires s.orders == [] && ValidTargets(fixed.targets)
    ensures Complete(fixed, f, s)
  {
    assert Loaded(f, []) == [];
    TargetsAreValid(fixed.targets);
  }

  lemma {:induction false} HeardIsComplete(fixed: SourceData, periods: set<Period>, f: Month, states: seq<State>, actions: seq<Action>, i: nat)
    requires IsRun(fixed, periods, f, states, actions) && i <= |actions| && GoodOrders(f, states[|actions|].orders)
    requires Heard(f, states, actions, i)
    ensures Complete(fixed, f, states[i])
  {
    if i == 0 {
      NothingIsComplete(fixed, f, states[0]);
    } else {
      hide Act, Complete, Fits, FamilyEventFor, GoodOrders, ClosedPeriodOverlap, Heard, Counted, Fresh;
      RunFits(fixed, periods, f, states, actions, i);
      RunFits(fixed, periods, f, states, actions, i - 1);
      assert Stepped(fixed, periods, states, actions, i - 1);
      StepFits(fixed, periods, f, states[i - 1], actions[i - 1]);
      if !(actions[i - 1].Deliver? && FamilyEventFor(f, states[i - 1], actions[i - 1].ev)) {
        HeardBefore(f, states, actions, i);
        HeardIsComplete(fixed, periods, f, states, actions, i - 1);
      }
    }
  }

  lemma {:induction false} OwnStaysStored(fixed: SourceData, periods: set<Period>, f: Month, states: seq<State>, actions: seq<Action>,
                                          q: nat, i: nat, o: OrderSource)
    requires IsRun(fixed, periods, f, states, actions) && q < i <= |actions| && GoodOrders(f, states[|actions|].orders)
    requires actions[q].Deliver? && o in states[q].orders && Counted(f, o) && Announces(actions[q].ev, o)
    ensures OwnStored(f, states[i], o)
  {
    hide Act, Setting, GoodOrders, OwnStored, ClosedPeriodOverlap, Fresh, Counted, Announces;
    if i == q + 1 {
      RunFits(fixed, periods, f, states, actions, q);
      assert Stepped(fixed, periods, states, actions, q);
      OwnDelivered(fixed, periods, f, states[q], actions[q].ev, o);
    } else {
      OwnStaysStored(fixed, periods, f, states, actions, q, i - 1, o);
      assert Stepped(fixed, periods, states, actions, i - 1);
      OwnKept(fixed, periods, f, states[i - 1], actions[i - 1], o);
    }
  }

  lemma OwnDelivered(fixed: SourceData, periods: set<Period>, f: Month, s: State, ev: SourceEvent, o: OrderSource)
    requires Setting(fixed, f, s) && forall d: DateKey :: d.month == f.month ==> !ClosedPeriodOverlap(periods, f.office, d, d)
    requires o in s.orders && Counted(f, o) && Announces(ev, o)
    ensures OwnStored(f, Act(fixed, periods, s, Deliver(ev)), o)
  {
    FamilyEvent(fixed, periods, f, s, ev, o);
  }

  lemma OwnKept(fixed: SourceData, periods: set<Period>, f: Month, s: State, a: Action, o: OrderSource)
    requires OwnStored(f, s, o)
    ensures OwnStored(f, Act(fixed, periods, s, a), o)
  {
    if a.Deliver? {
      var es := EventPlanOf(DataOf(fixed, s), periods, a.ev).puts;
      forall k | k in s.entries ensures k in PutAll(s.entries, es) {
        PutKeepsKeys(s.entries, es, k);
      }
    }
  }

  lemma {:induction false} ArrivedAt(fixed: SourceData, periods: set<Period>, f: Month, states: seq<State>, actions: seq<Action>,
                                     i: nat, o: OrderSource) returns (p: nat)
    requires IsRun(fixed, periods, f, states, actions) && i <= |actions| && o in states[i].orders
    ensures p < i && actions[p] == Arrive(o)
  {
    assert Stepped(fixed, periods, states, actions, i - 1);
    if o in states[i - 1].orders {
      p := ArrivedAt(fixed, periods, f, states, actions, i - 1, o);
    } else {
      p := i - 1;
    }
  }

  /** The ledger holds exactly what the month pays for these orders. */
  ghost predicate Exact(fixed: SourceData, f: Month, orders: seq<OrderSource>, m: Entries) {
    && (forall o, k :: o in orders && Counted(f, o) && OrderComponent(k) ==>
          var e := EntryOf(f.office, o, k);
          (e.id in m <==> Due(fixed, f, orders, o, k)) && (e.id in m ==> Content(m[e.id]) == e))
    && (BonusKey(f) in m <==> MonthBonusDue(fixed, f, orders))
    && (BonusKey(f) in m ==> Content(m[BonusKey(f)]) == BonusAt(fixed, f, RevenueOf(fixed, f, orders)))
  }

  /** Each counted order's own event was delivered at some point after it arrived. */
  ghost predicate EachAnnounced(f: Month, actions: seq<Action>) {
    forall p :: 0 <= p < |actions| && actions[p].Arrive? && Counted(f, actions[p].order) ==>
      exists q :: p < q < |actions| && actions[q].Deliver? && Announces(actions[q].ev, actions[p].order)
  }

  lemma EventsAreExact(fixed: SourceData, periods: set<Period>, f: Month, states: seq<State>, actions: seq<Action>)
    requires IsRun(fixed, periods, f, states, actions) && EachAnnounced(f, actions)
    requires GoodOrders(f, states[|actions|].orders)
    ensures Exact(fixed, f, states[|actions|].orders, states[|actions|].entries)
  {
    var n := |actions|;
    var last := states[n];
    RunFits(fixed, periods, f, states, actions, n);
    forall p | 0 <= p < n && actions[p].Arrive? && Counted(f, actions[p].order)
      ensures exists q :: p < q < n && actions[q].Deliver? && FamilyEventFor(f, states[q], actions[q].ev)
    {
      var q :| p < q < n && actions[q].Deliver? && Announces(actions[q].ev, actions[p].order);
      ArrivedStays(fixed, periods, f, states, actions, p, q);
    }
    HeardIsComplete(fixed, periods, f, states, actions, n);
    forall o, k | o in last.orders && Counted(f, o) && OrderComponent(k)
      ensures EntryOf(f.office, o, k).id in last.entries <==> Due(fixed, f, last.orders, o, k)
      ensures ComponentFits(fixed, f, last, o, k)
    {
      var p := ArrivedAt(fixed, periods, f, states, actions, n, o);
      var q :| p < q < n && actions[q].Deliver? && Announces(actions[q].ev, actions[p].order);
      ArrivedStays(fixed, periods, f, states, actions, p, q);
      OwnStaysStored(fixed, periods, f, states, actions, q, n, o);
      assert ComponentFits(fixed, f, last, o, k);
    }
  }

  lemma ArrivedStays(fixed: SourceData, periods: set<Period>, f: Month, states: seq<State>, actions: seq<Action>, p: nat, q: nat)
    requires IsRun(fixed, periods, f, states, actions) && p < q < |actions| && actions[p].Arrive?
    ensures actions[p].order in states[q].orders
  {
    OrdersGrow(fixed, periods, f, states, actions, p + 1, q);
    assert Stepped(fixed, periods, states, actions, p);
    var i := |states[p].orders|;
    assert states[q].orders[i] == actions[p].order;
  }

  // ----- the rebuild of the month

  predicate MonthJob(f: Month, job: Job) {
    && job.id.office == f.office && job.start == f.First() && job.end == MonthEnd(f.First())
    && (job.scope == Commissions || job.scope == AllEarnings)
  }

  /** Lookup after the orders section and the rest: a month key sees only its own put. */
  lemma SectionDecides(m: Entries, section: seq<Entry>, rest: seq<Entry>, key: EntryKey)
    requires DistinctKeys(section) && key !in m
    requires forall e :: e in rest ==> e.id != key
    ensures key in PutAll(m, section + rest) <==> exists e :: e in section && e.id == key
    ensures forall e :: e in section && e.id == key ==> Content(PutAll(m, section + rest)[key]) == Content(e)
  {
    PutAllConcat(m, section, rest, NO_STATS);
    PutsElsewhere(PutAll(m, section), rest, key);
    if e :| e in section && e.id == key {
      PutIn(m, section, e);
      forall e' | e' in section && e'.id == key ensures Content(PutAll(m, section)[key]) == Content(e') {
        PutIn(m, section, e');
      }
    } else {
      PutsElsewhere(m, section, key);
    }
  }

  lemma SplitRebuild(job: Job, data: SourceData, workers: seq<Id>) returns (rest: seq<Entry>)
    requires job.scope == Commissions || job.scope == AllEarnings
    requires OrdersSection(job, data, workers).error.None?
    ensures RebuildOf(job, data, workers).puts == OrdersSection(job, data, workers).puts + rest
    ensures forall e :: e in rest ==> e.id.key.AwardKey? || (e.id.key.SourceKey? && e.id.key.collection == Trips)
  {
    var p, q, r := OrdersPart(job, data, workers), TripsPart(job, data), BoardsPart(job, data);
    PartsKeys(job, data, workers);
    rest := Reassociate(p, q, r);
  }

  lemma Reassociate(p: Plan, q: Plan, r: Plan) returns (rest: seq<Entry>)
    requires p.error.None? && q.error.None?
    ensures Then(Then(p, q), r).puts == p.puts + rest
    ensures forall e :: e in rest <==> e in q.puts || e in r.puts
  {
    rest := q.puts + r.puts;
    assert p.puts + q.puts + r.puts == p.puts + rest;
  }

  lemma MonthSection(fixed: SourceData, f: Month, orders: seq<OrderSource>, job: Job, workers: seq<Id>)
    requires MonthJob(f, job) && ValidTargets(fixed.targets) && ValidMoney(fixed.target2Bonus)
    ensures var section, targets, all := OrdersSection(job, fixed.(orders := orders), workers), TargetMap(fixed.targets), Loaded(f, orders);
            && section.error.None?
            && section.puts == OrderPlans(job, all, targets, all).puts
                               + BonusPlans(job, all, targets, fixed.target2Bonus, workers).puts
  {
    assert MonthStart(job.start) == f.First() && MonthEnd(job.end) == MonthEnd(f.First());
    OrdersSectionShape(job, fixed.(orders := orders), workers);
  }

  lemma RebuildIsExact(fixed: SourceData, f: Month, orders: seq<OrderSource>, m: Entries, job: Job, workers: seq<Id>)
    requires MonthJob(f, job) && IsIteration(workers, TargetMap(fixed.targets)) && Fresh(f, m)
    requires ValidTargets(fixed.targets) && ValidMoney(fixed.target2Bonus) && GoodOrders(f, orders)
    ensures Exact(fixed, f, orders, PutAll(m, RebuildOf(job, fixed.(orders := orders), workers).puts))
  {
    MonthSection(fixed, f, orders, job, workers);
    OrdersSectionDistinct(job, fixed.(orders := orders), workers);
    var section := OrdersSection(job, fixed.(orders := orders), workers).puts;
    var rest := SplitRebuild(job, fixed.(orders := orders), workers);
    var m' := PutAll(m, section + rest);
    forall o, k | o in orders && Counted(f, o) && OrderComponent(k)
      ensures var e := EntryOf(f.office, o, k);
              (e.id in m' <==> Due(fixed, f, orders, o, k)) && (e.id in m' ==> Content(m'[e.id]) == e)
    {
      RebuildComponent(fixed, f, orders, job, workers, section, o, k);
      SectionDecides(m, section, rest, EntryOf(f.office, o, k).id);
    }
    RebuildBonus(fixed, f, orders, job, workers, section);
    SectionDecides(m, section, rest, BonusKey(f));
  }

  lemma RebuildComponent(fixed: SourceData, f: Month, orders: seq<OrderSource>, job: Job, workers: seq<Id>, section: seq<Entry>,
                         o: OrderSource, k: Component)
    requires MonthJob(f, job) && GoodOrders(f, orders) && o in orders && Counted(f, o) && OrderComponent(k)
    requires var targets, all := TargetMap(fixed.targets), Loaded(f, orders);
             section == OrderPlans(job, all, targets, all).puts + BonusPlans(job, all, targets, fixed.target2Bonus, workers).puts
    ensures EntryOf(f.office, o, k) in section <==> Due(fixed, f, orders, o, k)
    ensures forall e :: e in section && e.id == EntryOf(f.office, o, k).id ==> e == EntryOf(f.office, o, k)
  {
    var targets, all, own := TargetMap(fixed.targets), Loaded(f, orders), EntryOf(f.office, o, k);
    LoadedOrders(orders, f.office, f.First(), MonthEnd(f.First()), o);
    assert Due(fixed, f, orders, o, k) <==> RebuildWrite(job, all, targets, o, k);
    OrderPlansWrite(job, all, targets, all, own);
    forall e | e in section && e.id == own.id ensures e == own && RebuildWrite(job, all, targets, o, k) {
      OrderPlansWrite(job, all, targets, all, e);
      BonusPlansWrite(job, all, targets, fixed.target2Bonus, workers, e);
      var p, q :| p in all && RebuildWrite(job, all, targets, p, q) && e == EntryOf(job.id.office, p, q);
      LoadedOrders(orders, f.office, f.First(), MonthEnd(f.First()), p);
      SameOrder(orders, o, p);
    }
  }

  lemma RebuildBonus(fixed: SourceData, f: Month, orders: seq<OrderSource>, job: Job, workers: seq<Id>, section: seq<Entry>)
    requires MonthJob(f, job) && IsIteration(workers, TargetMap(fixed.targets)) && ValidTargets(fixed.targets)
    requires var targets, all := TargetMap(fixed.targets), Loaded(f, orders);
             section == OrderPlans(job, all, targets, all).puts + BonusPlans(job, all, targets, fixed.target2Bonus, workers).puts
    ensures var e := BonusAt(fixed, f, RevenueOf(fixed, f, orders));
            && e.id == BonusKey(f)
            && (e in section <==> MonthBonusDue(fixed, f, orders))
            && (forall e' :: e' in section && e'.id == BonusKey(f) ==> e' == e)
  {
    var targets, all := TargetMap(fixed.targets), Loaded(f, orders);
    var own := BonusAt(fixed, f, RevenueOf(fixed, f, orders));
    BonusPlansWrite(job, all, targets, fixed.target2Bonus, workers, own);
    forall e | e in section && e.id == BonusKey(f) ensures e == own {
      OrderPlansWrite(job, all, targets, all, e);
      BonusPlansWrite(job, all, targets, fixed.target2Bonus, workers, e);
    }
    OrderPlansWrite(job, all, targets, all, own);
  }

  // ----- no entry of the month comes from anywhere else

  predicate OrderEntryKey(f: Month, key: EntryKey) {
    key.office == f.office && key.key.SourceKey? && key.key.collection == Orders
  }

  /** An order entry of the office shows a stored, completed order: its worker and its date. */
  ghost predicate Rooted(f: Month, orders: seq<OrderSource>, key: EntryKey, e: Entry) {
    OrderEntryKey(f, key) ==>
      exists o :: o in orders && o.office == f.office && o.completed && !o.deleted && o.id == key.key.source
                  && e.worker == o.beautician && e.date == o.date && OrderComponent(key.key.component)
  }

  ghost predicate AllRooted(f: Month, orders: seq<OrderSource>, m: Entries) {
    forall key :: key in m ==> Rooted(f, orders, key, m[key])
  }

  lemma {:induction false} PutsOrKept(m: Entries, es: seq<Entry>, key: EntryKey)
    requires key in PutAll(m, es)
    ensures (key in m && PutAll(m, es)[key] == m[key])
            || exists e :: e in es && e.id == key && Content(PutAll(m, es)[key]) == Content(e)
  {
    if es != [] {
      var init, last := es[..|es| - 1], es[|es| - 1];
      if key in PutAll(m, init) && PutAll(m, es)[key] == PutAll(m, init)[key] {
        PutsOrKept(m, init, key);
        if e :| e in init && e.id == key && Content(PutAll(m, init)[key]) == Content(e) {
          assert e in es;
        }
      } else {
        assert last in es && last.id == key;
      }
    }
  }

  lemma PutsStayRooted(f: Month, orders: seq<OrderSource>, m: Entries, es: seq<Entry>)
    requires AllRooted(f, orders, m) && forall e :: e in es ==> Rooted(f, orders, e.id, e)
    ensures AllRooted(f, orders, PutAll(m, es))
  {
    hide Rooted, PutAll;
    forall key | key in PutAll(m, es) ensures Rooted(f, orders, key, PutAll(m, es)[key]) {
      PutsOrKept(m, es, key);
      if e :| e in es && e.id == key && Content(PutAll(m, es)[key]) == Content(e) {
        RootedContent(f, orders, key, e, PutAll(m, es)[key]);
      }
    }
  }

  lemma RootedContent(f: Month, orders: seq<OrderSource>, key: EntryKey, e: Entry, e': Entry)
    requires Rooted(f, orders, key, e) && Content(e') == Content(e)
    ensures Rooted(f, orders, key, e')
  {
    assert Content(e').worker == e'.worker && Content(e').date == e'.date;
  }

  lemma {:induction false} GeneralRooted(f: Month, c: MonthContext, orders: seq<OrderSource>, e: Entry)
    requires e in EventGeneralPlans(c, orders).puts
    ensures Rooted(f, orders, e.id, e)
  {
    var init, last := orders[..|orders| - 1], orders[|orders| - 1];
    if e in EventGeneralPlans(c, init).puts {
      GeneralRooted(f, c, init, e);
      MoreOrders(f, init, orders, e.id, e);
    } else {
      assert last in orders;
    }
  }

  lemma MoreOrders(f: Month, orders: seq<OrderSource>, orders': seq<OrderSource>, key: EntryKey, e: Entry)
    requires Rooted(f, orders, key, e) && forall o :: o in orders ==> o in orders'
    ensures Rooted(f, orders', key, e)
  {
  }

  lemma AcceptedRooted(f: Month, ev: SourceEvent, o: OrderSource, c: MonthContext, orders: seq<OrderSource>, bonus: real, e: Entry)
    requires o.snapshot.Some? && o in orders && o.completed && !o.deleted && c.office == o.office && ev.date == o.date
    requires e in AcceptedOrderPlan(ev, o, c, orders, bonus).puts
    ensures Rooted(f, orders, e.id, e)
  {
    hide EventGeneralPlans, MoneyToPaise;
    var s := o.snapshot.value;
    var special := ComponentPlan(OrderEntry(c.office, o, SpecialCommission, s.special), s.special, true).puts;
    var upgrade := ComponentPlan(OrderEntry(c.office, o, UpgradeCommission, s.upgrade), s.upgrade, true).puts;
    var general := EventGeneralPlans(c, orders).puts;
    var due := EventBonusPlan(c, ev.date, bonus).puts;
    assert AcceptedOrderPlan(ev, o, c, orders, bonus).puts == [] + special + upgrade + general + due;
    if e in general {
      GeneralRooted(f, c, orders, e);
    }
  }

  lemma EventRooted(data: SourceData, periods: set<Period>, f: Month, ev: SourceEvent, e: Entry)
    requires e in EventPlanOf(data, periods, ev).puts
    ensures Rooted(f, data.orders, e.id, e)
  {
    hide EventPlanOf, AcceptedOrderPlan, LoadOrders, Rooted;
    if ev.isOrder {
      var o, c, all := WritingOrder(data, periods, ev, e);
      AcceptedRooted(f, ev, o, c, all, data.target2Bonus, e);
      forall p | p in all ensures p in data.orders {
        LoadedOrders(data.orders, ev.office, MonthStart(ev.date), MonthEnd(ev.date), p);
      }
      MoreOrders(f, all, data.orders, e.id, e);
    } else {
      TripPutElsewhere(data, periods, ev, e);
      NotAnOrderKey(f, data.orders, e);
    }
  }

  lemma NotAnOrderKey(f: Month, orders: seq<OrderSource>, e: Entry)
    requires !OrderEntryKey(f, e.id)
    ensures Rooted(f, orders, e.id, e)
  {
  }

  lemma StepRooted(fixed: SourceData, periods: set<Period>, f: Month, s: State, a: Action)
    requires AllRooted(f, s.orders, s.entries)
    ensures var s' := Act(fixed, periods, s, a); AllRooted(f, s'.orders, s'.entries)
  {
    hide Rooted, EventPlanOf, PutAll;
    match a
    case Arrive(x) =>
      forall key | key in s.entries ensures Rooted(f, s.orders + [x], key, s.entries[key]) {
        MoreOrders(f, s.orders, s.orders + [x], key, s.entries[key]);
      }
    case Deliver(ev) =>
      var es := EventPlanOf(DataOf(fixed, s), periods, ev).puts;
      forall e | e in es ensures Rooted(f, s.orders, e.id, e) {
        EventRooted(DataOf(fixed, s), periods, f, ev, e);
      }
      PutsStayRooted(f, s.orders, s.entries, es);
  }

  lemma {:induction false} RunRooted(fixed: SourceData, periods: set<Period>, f: Month, states: seq<State>, actions: seq<Action>, i: nat)
    requires IsRun(fixed, periods, f, states, actions) && i <= |actions|
    ensures AllRooted(f, states[i].orders, states[i].entries)
  {
    if i == 0 {
      FreshIsRooted(f, states[0].orders, states[0].entries);
    } else {
      hide AllRooted, Act;
      RunRooted(fixed, periods, f, states, actions, i - 1);
      assert Stepped(fixed, periods, states, actions, i - 1);
      StepRooted(fixed, periods, f, states[i - 1], actions[i - 1]);
    }
  }

  lemma FreshIsRooted(f: Month, orders: seq<OrderSource>, m: Entries)
    requires Fresh(f, m)
    ensures AllRooted(f, orders, m)
  {
    forall key | OrderEntryKey(f, key) ensures key !in m {
      assert key == EntryKey(f.office, SourceKey(Orders, key.key.source, key.key.component));
    }
  }

  lemma RebuildRooted(fixed: SourceData, f: Month, orders: seq<OrderSource>, m: Entries, job: Job, workers: seq<Id>)
    requires MonthJob(f, job) && Fresh(f, m) && ValidTargets(fixed.targets) && ValidMoney(fixed.target2Bonus)
    ensures AllRooted(f, orders, PutAll(m, RebuildOf(job, fixed.(orders := orders), workers).puts))
  {
    hide RebuildOf, PutAll, AllRooted, OrdersSection, OrderPlans, BonusPlans;
    MonthSection(fixed, f, orders, job, workers);
    var rest := SplitRebuild(job, fixed.(orders := orders), workers);
    var targets, all := TargetMap(fixed.targets), Loaded(f, orders);
    forall e | e in RebuildOf(job, fixed.(orders := orders), workers).puts ensures Rooted(f, orders, e.id, e) {
      SectionRooted(f, orders, job, all, targets, fixed.target2Bonus, workers, e);
    }
    FreshIsRooted(f, orders, m);
    PutsStayRooted(f, orders, m, RebuildOf(job, fixed.(orders := orders), workers).puts);
  }

  lemma SectionRooted(f: Month, orders: seq<OrderSource>, job: Job, all: seq<OrderSource>, targets: Targets, bonus: real, workers: seq<Id>, e: Entry)
    requires MonthJob(f, job) && all == Loaded(f, orders)
    requires e in OrderPlans(job, all, targets, all).puts + BonusPlans(job, all, targets, bonus, workers).puts || !OrderEntryKey(f, e.id)
    ensures Rooted(f, orders, e.id, e)
  {
    if OrderEntryKey(f, e.id) {
      OrderPlansWrite(job, all, targets, all, e);
      BonusPlansWrite(job, all, targets, bonus, workers, e);
      var o, k :| o in all && RebuildWrite(job, all, targets, o, k) && e == EntryOf(job.id.office, o, k);
      LoadedOrders(orders, f.office, f.First(), MonthEnd(f.First()), o);
    }
  }

  // ----- the two ledgers

  /** The entry is the worker's bonus of the month or an order entry of that worker and month. */
  ghost predicate MonthEntry(f: Month, m: Entries, key: EntryKey) {
    key in m && (key == BonusKey(f) || (OrderEntryKey(f, key) && m[key].worker == f.worker && m[key].date.month == f.month))
  }

  /** The two ledgers hold the same entries of the worker's month, and agree on every key that the
      month's orders and target can have. */
  ghost predicate SameMonth(f: Month, orders: seq<OrderSource>, m: Entries, n: Entries) {
    && (forall key :: (MonthEntry(f, m, key) <==> MonthEntry(f, n, key)) && (MonthEntry(f, m, key) ==> Content(m[key]) == Content(n[key])))
    && (forall key :: (key == BonusKey(f)
                       || exists o, k :: o in orders && Counted(f, o) && OrderComponent(k) && key == EntryOf(f.office, o, k).id) ==>
          (key in m <==> key in n) && (key in m ==> Content(m[key]) == Content(n[key])))
  }

  /** A ledger that is exact and rooted has no entry of the month that another exact one lacks. */
  lemma ExactCovers(fixed: SourceData, f: Month, orders: seq<OrderSource>, m: Entries, n: Entries, key: EntryKey)
    requires Exact(fixed, f, orders, m) && Exact(fixed, f, orders, n) && AllRooted(f, orders, m) && MonthEntry(f, m, key)
    ensures MonthEntry(f, n, key) && Content(n[key]) == Content(m[key])
  {
    if key != BonusKey(f) {
      hide Due;
      assert Rooted(f, orders, key, m[key]);
      var o :| o in orders && o.office == f.office && o.completed && !o.deleted && o.id == key.key.source
               && m[key].worker == o.beautician && m[key].date == o.date && OrderComponent(key.key.component);
      var e := EntryOf(f.office, o, key.key.component);
      assert Counted(f, o) && e.id == key;
      assert Content(n[key]) == e && e.worker == f.worker && e.date.month == f.month;
    }
  }

  /** In whatever order a worker's month of orders arrives and its events are delivered, once
      each order has been announced the ledger agrees with a rebuild of the month: the same
      entries with the same keys, amounts, statuses and configuration snapshots, and no others. */
  lemma EventsConvergeToRebuild(fixed: SourceData, periods: set<Period>, f: Month, states: seq<State>, actions: seq<Action>,
                                job: Job, workers: seq<Id>, m: Entries)
    requires IsRun(fixed, periods, f, states, actions) && EachAnnounced(f, actions)
    requires GoodOrders(f, states[|actions|].orders)
    requires MonthJob(f, job) && IsIteration(workers, TargetMap(fixed.targets)) && Fresh(f, m)
    ensures var orders := states[|actions|].orders;
            SameMonth(f, orders, states[|actions|].entries, PutAll(m, RebuildOf(job, fixed.(orders := orders), workers).puts))
  {
    var orders, byEvents := states[|actions|].orders, states[|actions|].entries;
    var rebuilt := PutAll(m, RebuildOf(job, fixed.(orders := orders), workers).puts);
    EventsAreExact(fixed, periods, f, states, actions);
    RebuildIsExact(fixed, f, orders, m, job, workers);
    RunRooted(fixed, periods, f, states, actions, |actions|);
    RebuildRooted(fixed, f, orders, m, job, workers);
    ExactMeansSame(fixed, f, orders, byEvents, rebuilt);
  }

  lemma ExactMeansSame(fixed: SourceData, f: Month, orders: seq<OrderSource>, m: Entries, n: Entries)
    requires Exact(fixed, f, orders, m) && Exact(fixed, f, orders, n) && AllRooted(f, orders, m) && AllRooted(f, orders, n)
    ensures SameMonth(f, orders, m, n)
  {
    hide MonthEntry, Due, AllRooted;
    forall key ensures MonthEntry(f, m, key) <==> MonthEntry(f, n, key)
      ensures MonthEntry(f, m, key) ==> key in m && key in n && Content(m[key]) == Content(n[key])
    {
      if MonthEntry(f, m, key) { ExactCovers(fixed, f, orders, m, n, key); IsStored(f, m, key); }
      if MonthEntry(f, n, key) { ExactCovers(fixed, f, orders, n, m, key); IsStored(f, n, key); }
    }
  }

  lemma IsStored(f: Month, m: Entries, key: EntryKey)
    requires MonthEntry(f, m, key)
    ensures key in m
  {
  }
}
