/** Where a trip event and a rebuild can price one trip differently: the rebuild's loader fills
    the office rates in on every row once any row needs them, the event's loader only when its
    own trip does (`internal/earnings/repository.go`, `LoadTripSources` and `LoadTripSource`). */
module TripConvergence {
  import opened Wrappers
  import opened Dates
  import opened Money
  import opened Ranking
  import opened Ledger
  import opened SourcePuts
  import opened Sources
  import opened Plans
  import opened ControlPlane
  import opened EventPlan
  import opened RebuildPlan
  import opened RebuildFacts

  /** Some selected trip makes the rebuild load the office rates. */
  predicate RatesLoaded(data: SourceData, office: Id, start: DateKey, end: DateKey) {
    var rows := SelectTrips(data.trips, office, start, end);
    exists i :: 0 <= i < |rows| && NeedsOfficeRates(rows[i])
  }

  /** The trip as the rebuild's batch loader returns it. */
  function BatchRow(data: SourceData, office: Id, start: DateKey, end: DateKey, t: TripSource): TripSource {
    if RatesLoaded(data, office, start, end) then t.(officeCost := data.officeCost, officeMileage := data.officeMileage) else t
  }

  /** An unpaid snapshot with a stored petrol amount but no stored price or mileage of its own. */
  predicate LeansOnOffice(t: TripSource) {
    && t.snapshot.Some? && !t.snapshot.value.isPaid && t.snapshot.value.petrol.Some? && Distance(t) > 0.0
    && (Positive(t.snapshot.value.cost, t.fareCost) <= 0.0 || Positive(t.snapshot.value.mileage, t.fareMileage) <= 0.0)
  }

  /** The petrol a trip earns at the office's rates. */
  function AtOfficeRates(t: TripSource, cost: real, mileage: real): Option<real>
    requires t.snapshot.Some?
  {
    var u := t.(officeCost := cost, officeMileage := mileage);
    var c, m := PetrolCost(u, t.snapshot.value.cost), Mileage(u, t.snapshot.value.mileage);
    if c <= 0.0 || m <= 0.0 then None else Some(PetrolFor(Distance(t), m, c))
  }

  lemma {:induction false} SelectedIsBatched(trips: seq<TripSource>, office: Id, start: DateKey, end: DateKey, t: TripSource)
    requires t in trips && TripMatches(t, office, start, end)
    ensures t in SelectTrips(trips, office, start, end)
  {
    if trips[|trips| - 1] != t {
      assert t in trips[..|trips| - 1];
      SelectedIsBatched(trips[..|trips| - 1], office, start, end, t);
    }
  }

  lemma BatchRowIsLoaded(data: SourceData, office: Id, start: DateKey, end: DateKey, t: TripSource)
    requires t in data.trips && TripMatches(t, office, start, end)
    ensures BatchRow(data, office, start, end, t) in LoadTrips(data, office, start, end)
    ensures NeedsOfficeRates(t) ==> RatesLoaded(data, office, start, end)
  {
    var rows := SelectTrips(data.trips, office, start, end);
    SelectedIsBatched(data.trips, office, start, end, t);
    var i :| 0 <= i < |rows| && rows[i] == t;
    if RatesLoaded(data, office, start, end) {
      assert WithRates(rows, data.officeCost, data.officeMileage)[i] == BatchRow(data, office, start, end, t);
    }
  }

  /** The event and the rebuild price a trip alike if and only if the batch loaded no rates the
      trip leans on, or those rates give nothing else than the stored petrol. */
  lemma TripPricesAgreeIff(data: SourceData, office: Id, start: DateKey, end: DateKey, t: TripSource)
    requires t in data.trips && TripMatches(t, office, start, end)
    requires FindTrip(data.trips, t.id) == Some(t) && t.officeCost == 0.0 && t.officeMileage == 0.0
    ensures EffectivePayables(LoadTrip(data, t.id).value) == EffectivePayables(BatchRow(data, office, start, end, t))
            <==> !LeansOnOffice(t) || !RatesLoaded(data, office, start, end)
                 || AtOfficeRates(t, data.officeCost, data.officeMileage).None?
                 || AtOfficeRates(t, data.officeCost, data.officeMileage) == t.snapshot.value.petrol
  {
    BatchRowIsLoaded(data, office, start, end, t);
    if RatesLoaded(data, office, start, end) && !NeedsOfficeRates(t) && t.snapshot.Some? {
      RatesMatterToLeaners(t, data.officeCost, data.officeMileage);
    }
  }

  lemma RatesMatterToLeaners(t: TripSource, cost: real, mileage: real)
    requires t.snapshot.Some? && !NeedsOfficeRates(t) && t.officeCost == 0.0 && t.officeMileage == 0.0
    ensures EffectivePayables(t) == EffectivePayables(t.(officeCost := cost, officeMileage := mileage))
            <==> !LeansOnOffice(t) || AtOfficeRates(t, cost, mileage).None? || AtOfficeRates(t, cost, mileage) == t.snapshot.value.petrol
  {
    var u := t.(officeCost := cost, officeMileage := mileage);
    assert Distance(u) == Distance(t) && Commission(u, Positive(t.snapshot.value.rate, 1.0)) == Commission(t, Positive(t.snapshot.value.rate, 1.0));
  }

  // ----- what reaches the ledger

  /** The paise an amount is written as, if it is written at all. */
  function PaiseOfPayable(amount: Option<real>): Option<int> {
    if ValidAmount(amount) && amount.value != 0.0 then Some(MoneyToPaise(amount.value)) else None
  }

  /** The batch loaded no rates the trip leans on, or they come to the stored petrol in paise. */
  predicate PaiseAgree(data: SourceData, office: Id, start: DateKey, end: DateKey, t: TripSource) {
    LeansOnOffice(t) && RatesLoaded(data, office, start, end) ==>
      var petrol := AtOfficeRates(t, data.officeCost, data.officeMileage);
      petrol.None? || PaiseOfPayable(petrol) == PaiseOfPayable(t.snapshot.value.petrol)
  }

  lemma LeaningPayables(t: TripSource, cost: real, mileage: real)
    requires LeansOnOffice(t) && t.officeCost == 0.0 && t.officeMileage == 0.0
    ensures var u, petrol := t.(officeCost := cost, officeMileage := mileage), AtOfficeRates(t, cost, mileage);
            && EffectivePayables(u).0 == EffectivePayables(t).0 && EffectivePayables(t).1 == t.snapshot.value.petrol
            && EffectivePayables(u).1 == if petrol.None? then t.snapshot.value.petrol else petrol
  {
    var u := t.(officeCost := cost, officeMileage := mileage);
    assert Distance(u) == Distance(t) && Commission(u, Positive(t.snapshot.value.rate, 1.0)) == Commission(t, Positive(t.snapshot.value.rate, 1.0));
  }

  lemma PaiseAgreeIff(data: SourceData, office: Id, start: DateKey, end: DateKey, t: TripSource)
    requires t in data.trips && TripMatches(t, office, start, end)
    requires FindTrip(data.trips, t.id) == Some(t) && t.officeCost == 0.0 && t.officeMileage == 0.0
    ensures var u, r := LoadTrip(data, t.id).value, BatchRow(data, office, start, end, t);
            && EffectivePayables(u).0 == EffectivePayables(r).0
            && (PaiseOfPayable(EffectivePayables(u).1) == PaiseOfPayable(EffectivePayables(r).1) <==> PaiseAgree(data, office, start, end, t))
  {
    if LeansOnOffice(t) && RatesLoaded(data, office, start, end) {
      LeaningPayables(t, data.officeCost, data.officeMileage);
    } else {
      TripPricesAgreeIff(data, office, start, end, t);
    }
  }

  /** The entry a trip has in the ledger when its component is worth `paise`. */
  function PaidEntry(t: TripSource, c: Component, paise: int): Entry {
    var (worker, workerType) := TripWorker(t).GetOr((NIL_ID, Rider));
    SourceEntry(t.office, t.id, worker, workerType, t.date, c, if c == Petrol then PetrolBucket else CommissionBucket, paise,
                c == Petrol && t.snapshot.Some? && t.snapshot.value.isPaid)
  }

  function PayableOf(t: TripSource, c: Component): Option<real> {
    if c == Petrol then EffectivePayables(t).1 else EffectivePayables(t).0
  }

  function TripKeyOf(t: TripSource, c: Component): EntryKey {
    EntryKey(t.office, SourceKey(Trips, t.id, c))
  }

  predicate TripComponent(c: Component) {
    c == TripCommission || c == Petrol
  }

  /** Among these puts, the trip's component is exactly the entry its payable is written as. */
  ghost predicate WritesComponent(es: seq<Entry>, t: TripSource, c: Component) {
    forall e: Entry :: e.id == TripKeyOf(t, c) ==>
      (e in es <==> PaiseOfPayable(PayableOf(t, c)).Some? && e == PaidEntry(t, c, PaiseOfPayable(PayableOf(t, c)).value))
  }

  lemma BothComponents(job: Job, t: TripSource, c: Component)
    requires TripComponent(c) && job.id.office == t.office
    ensures WritesComponent(TripWrite(job, t, TripCommission, CommissionBucket, EffectivePayables(t).0)
                            + TripWrite(job, t, Petrol, PetrolBucket, EffectivePayables(t).1), t, c)
  {
    hide EffectivePayables, TripWorker, MoneyToPaise;
  }

  /** A trip event that describes the stored trip. */
  predicate AnnouncesTrip(ev: SourceEvent, t: TripSource) {
    && ev.wellFormed && !ev.isOrder && ev.source == t.id && ev.office == t.office && ev.date == t.date
    && t.snapshot.Some? && t.snapshot.value.capturedAt == Some(ev.version)
  }

  /** The plan of an accepted trip event, for the trip as the event's loader returns it. */
  lemma AcceptedTrip(data: SourceData, periods: set<Period>, ev: SourceEvent, t: TripSource)
    requires AnnouncesTrip(ev, t) && FindTrip(data.trips, t.id) == Some(t) && !t.deleted && t.finished
    requires TripWorker(t).Some? && ValidDate(t.date) && !ClosedPeriodOverlap(periods, t.office, t.date, t.date)
    ensures var u := LoadTrip(data, t.id).value;
            var (commission, petrol) := EffectivePayables(u);
            EventPlanOf(data, periods, ev)
            == Then(Then(Plan([], 1, 0, None),
                 ComponentPlan(TripEntry(t.office, u, TripCommission, CommissionBucket, commission), commission, true)),
                 ComponentPlan(TripEntry(t.office, u, Petrol, PetrolBucket, petrol), petrol, true))
  {
    hide EffectivePayables, TripEntry, ComponentPlan, ClosedPeriodOverlap, Then, OrderEventPlan, FindTrip;
  }

  lemma TwoWrites(p: Plan, q: Plan)
    requires p.error.None?
    ensures Then(Then(Plan([], 1, 0, None), p), q).puts == p.puts + q.puts
  {
  }

  lemma EventWritesTrip(job: Job, data: SourceData, periods: set<Period>, ev: SourceEvent, t: TripSource, c: Component)
    requires TripComponent(c) && job.id.office == t.office && AnnouncesTrip(ev, t)
    requires FindTrip(data.trips, t.id) == Some(t) && !t.deleted && t.finished && TripWorker(t).Some? && ValidDate(t.date)
    requires !ClosedPeriodOverlap(periods, t.office, t.date, t.date)
    ensures WritesComponent(EventPlanOf(data, periods, ev).puts, LoadTrip(data, t.id).value, c)
    ensures DistinctKeys(EventPlanOf(data, periods, ev).puts)
  {
    hide EffectivePayables, TripEntry, ComponentPlan, WritesComponent, ClosedPeriodOverlap, EventPlanOf, Then, FindTrip;
    var u := LoadTrip(data, t.id).value;
    var (commission, petrol) := EffectivePayables(u);
    AcceptedTrip(data, periods, ev, t);
    BothComponents(job, u, c);
    var ride, fuel := TripEntry(t.office, u, TripCommission, CommissionBucket, commission), TripEntry(t.office, u, Petrol, PetrolBucket, petrol);
    ComponentPlanShape(ride, commission, true);
    TwoWrites(ComponentPlan(ride, commission, true), ComponentPlan(fuel, petrol, true));
    TripWriteShape(job, u, TripCommission, CommissionBucket, commission);
    TripWriteShape(job, u, Petrol, PetrolBucket, petrol);
  }

  lemma {:induction false} TripPlansHold(job: Job, trips: seq<TripSource>, t: TripSource, e: Entry)
    requires DistinctTrips(trips) && t in trips && e.id.key.SourceKey? && e.id.key.source == t.id
    ensures e in TripPlans(job, trips).puts <==> e in TripPlan(job, t).puts
  {
    hide TripPlan;
    var n := |trips| - 1;
    var init, last := trips[..n], trips[n];
    assert forall i :: 0 <= i < n ==> init[i] == trips[i];
    ThenPuts(TripPlans(job, init), TripPlan(job, last));
    if t in init {
      TripPlansHold(job, init, t, e);
      if e in TripPlan(job, last).puts {
        TripPlanKeys(job, last, e);
      }
    } else if e in TripPlans(job, init).puts {
      TripPlansKeys(job, init, e);
    }
  }

  lemma RowWritesTrip(job: Job, t: TripSource, c: Component)
    requires TripComponent(c) && job.id.office == t.office && job.scope != PetrolOnly
    requires TripWorker(t).Some? && ValidDate(t.date) && t.snapshot.Some?
    ensures WritesComponent(TripPlan(job, t).puts, t, c)
  {
    hide EffectivePayables, TripEntry, ComponentPlan, WritesComponent;
    var (commission, petrol) := EffectivePayables(t);
    BothComponents(job, t, c);
    var ride, fuel := TripEntry(t.office, t, TripCommission, CommissionBucket, commission), TripEntry(t.office, t, Petrol, PetrolBucket, petrol);
    ComponentPlanShape(ride, commission, true);
    ComponentPlanShape(fuel, petrol, true);
    assert TripPlan(job, t).puts
        == TripWrite(job, t, TripCommission, CommissionBucket, commission) + TripWrite(job, t, Petrol, PetrolBucket, petrol);
  }

  lemma LoadedTripsDistinct(data: SourceData, office: Id, start: DateKey, end: DateKey)
    requires DistinctTrips(data.trips)
    ensures DistinctTrips(LoadTrips(data, office, start, end))
  {
    SelectedDistinct(data.trips, office, start, end);
  }

  /** A rebuild that gets to its trips writes the batch row's payables. */
  lemma RebuildWritesTrip(job: Job, data: SourceData, workers: seq<Id>, t: TripSource, c: Component)
    requires TripComponent(c) && (job.scope == AllEarnings || job.scope == Commissions) && OrdersPart(job, data, workers).error.None?
    requires DistinctTrips(data.trips) && t in data.trips && TripMatches(t, job.id.office, job.start, job.end)
    requires TripWorker(t).Some? && ValidDate(t.date) && t.snapshot.Some?
    ensures WritesComponent(RebuildOf(job, data, workers).puts, BatchRow(data, job.id.office, job.start, job.end, t), c)
  {
    hide OrdersPart, BoardsPart, TripPlans, TripPlan, EffectivePayables, TripWorker, MoneyToPaise;
    var r, rows := BatchRow(data, job.id.office, job.start, job.end, t), LoadTrips(data, job.id.office, job.start, job.end);
    BatchRowIsLoaded(data, job.id.office, job.start, job.end, t);
    LoadedTripsDistinct(data, job.id.office, job.start, job.end);
    ThreeParts(OrdersPart(job, data, workers), TripsPart(job, data), BoardsPart(job, data));
    PartsKeys(job, data, workers);
    SameRow(data, job.id.office, job.start, job.end, t);
    RowWritesTrip(job, r, c);
    forall e: Entry | e.id == TripKeyOf(r, c) ensures e in RebuildOf(job, data, workers).puts <==> e in TripPlan(job, r).puts {
      TripPlansHold(job, rows, r, e);
    }
  }

  lemma SameRow(data: SourceData, office: Id, start: DateKey, end: DateKey, t: TripSource)
    ensures var r := BatchRow(data, office, start, end, t);
            r.id == t.id && r.office == t.office && r.date == t.date && r.snapshot == t.snapshot && TripWorker(r) == TripWorker(t)
  {
  }

  /** The same entry under this key in both ledgers, or none in either. */
  ghost predicate SameAt(a: Entries, b: Entries, k: EntryKey) {
    (k in a <==> k in b) && (k in a ==> Content(a[k]) == Content(b[k]))
  }

  lemma PutsMeet(m: Entries, es: seq<Entry>, fs: seq<Entry>, k: EntryKey)
    requires DistinctKeys(es) && DistinctKeys(fs) && forall e: Entry :: e.id == k ==> (e in es <==> e in fs)
    ensures SameAt(PutAll(m, es), PutAll(m, fs), k)
  {
    if e :| e in es && e.id == k {
      var i :| 0 <= i < |es| && es[i] == e;
      var j :| 0 <= j < |fs| && fs[j] == e;
      PutsActAlone(m, es, i);
      PutsActAlone(m, fs, j);
    } else {
      forall j | 0 <= j < |fs| ensures fs[j].id != k {
        assert fs[j] in fs;
      }
      PutsElsewhere(m, es, k);
      PutsElsewhere(m, fs, k);
    }
  }

  /** Into an empty ledger a put goes as it is. */
  lemma PutsShow(es: seq<Entry>, k: EntryKey)
    requires DistinctKeys(es)
    ensures k in PutAll(map[], es) <==> exists e :: e in es && e.id == k
    ensures forall e :: e in es && e.id == k ==> Content(PutAll(map[], es)[k]) == Content(e)
  {
    forall e | e in es && e.id == k ensures k in PutAll(map[], es) && Content(PutAll(map[], es)[k]) == Content(e) {
      var i :| 0 <= i < |es| && es[i] == e;
      PutsActAlone(map[], es, i);
    }
    if forall e :: e in es ==> e.id != k {
      PutsElsewhere(map[], es, k);
    }
  }

  /** Two runs that write a component of one trip leave the same entry in every ledger exactly when
      its payables come to the same paise. */
  lemma WritesAgreeIff(es: seq<Entry>, fs: seq<Entry>, t: TripSource, r: TripSource, c: Component)
    requires TripComponent(c) && DistinctKeys(es) && DistinctKeys(fs) && WritesComponent(es, t, c) && WritesComponent(fs, r, c)
    requires r.id == t.id && r.office == t.office && r.date == t.date && r.snapshot == t.snapshot && TripWorker(r) == TripWorker(t)
    ensures (forall m: Entries :: SameAt(PutAll(m, es), PutAll(m, fs), TripKeyOf(t, c)))
            <==> PaiseOfPayable(PayableOf(t, c)) == PaiseOfPayable(PayableOf(r, c))
  {
    hide EffectivePayables, TripWorker, MoneyToPaise, PutAll, DistinctKeys;
    var k, x, y := TripKeyOf(t, c), PaiseOfPayable(PayableOf(t, c)), PaiseOfPayable(PayableOf(r, c));
    if x == y {
      forall m: Entries ensures SameAt(PutAll(m, es), PutAll(m, fs), k) {
        PutsMeet(m, es, fs, k);
      }
    } else {
      PutsShow(es, k);
      PutsShow(fs, k);
      if x.Some? { assert PaidEntry(t, c, x.value).id == k && PaidEntry(t, c, x.value) in es; }
      if y.Some? { assert PaidEntry(r, c, y.value).id == k && PaidEntry(r, c, y.value) in fs; }
      assert !SameAt(PutAll(map[], es), PutAll(map[], fs), k);
    }
  }

  /** A trip's event and a rebuild leave the same two entries of the trip in the ledger, whatever
      it held before, if and only if the batch loaded no rates the trip leans on or those rates
      come to the stored petrol in paise. */
  lemma TripLedgersAgreeIff(job: Job, data: SourceData, workers: seq<Id>, periods: set<Period>, ev: SourceEvent, t: TripSource)
    requires (job.scope == AllEarnings || job.scope == Commissions) && OrdersPart(job, data, workers).error.None?
    requires DistinctOrders(data.orders) && DistinctTrips(data.trips) && IsIteration(workers, TargetMap(data.targets))
    requires t in data.trips && TripMatches(t, job.id.office, job.start, job.end) && t.officeCost == 0.0 && t.officeMileage == 0.0
    requires AnnouncesTrip(ev, t) && TripWorker(t).Some? && ValidDate(t.date) && !ClosedPeriodOverlap(periods, t.office, t.date, t.date)
    ensures (forall m: Entries ::
              SameAt(PutAll(m, EventPlanOf(data, periods, ev).puts), PutAll(m, RebuildOf(job, data, workers).puts), TripKeyOf(t, TripCommission))
              && SameAt(PutAll(m, EventPlanOf(data, periods, ev).puts), PutAll(m, RebuildOf(job, data, workers).puts), TripKeyOf(t, Petrol)))
            <==> PaiseAgree(data, job.id.office, job.start, job.end, t)
  {
    hide RebuildOf, EventPlanOf, EffectivePayables, PutAll, SameAt, BatchRow, DistinctKeys, PaiseAgree, WritesComponent, DistinctOrders, IsIteration;
    FoundTrip(data.trips, t);
    var u, r := LoadTrip(data, t.id).value, BatchRow(data, job.id.office, job.start, job.end, t);
    var es, fs := EventPlanOf(data, periods, ev).puts, RebuildOf(job, data, workers).puts;
    IterationDistinct(job, data, workers);
    SameRow(data, job.id.office, job.start, job.end, t);
    PaiseAgreeIff(data, job.id.office, job.start, job.end, t);
    EventWritesTrip(job, data, periods, ev, t, TripCommission);
    EventWritesTrip(job, data, periods, ev, t, Petrol);
    RebuildWritesTrip(job, data, workers, t, TripCommission);
    RebuildWritesTrip(job, data, workers, t, Petrol);
    WritesAgreeIff(es, fs, u, r, TripCommission);
    WritesAgreeIff(es, fs, u, r, Petrol);
    assert TripKeyOf(u, TripCommission) == TripKeyOf(t, TripCommission) && TripKeyOf(u, Petrol) == TripKeyOf(t, Petrol);
  }

  lemma {:induction false} FoundTrip(trips: seq<TripSource>, t: TripSource)
    requires DistinctTrips(trips) && t in trips
    ensures FindTrip(trips, t.id) == Some(t)
  {
    var n := |trips| - 1;
    var i :| 0 <= i <= n && trips[i] == t;
    if i < n {
      assert forall j :: 0 <= j < n ==> trips[..n][j] == trips[j];
      FoundTrip(trips[..n], t);
    }
  }

  const MONTH_JOB := Job(JobKey(1, ""), DateKey(24000, 1), DateKey(24000, 31), Commissions, Running, 0, NO_STATS)
  const LEANING_SNAPSHOT := PayableSnapshot(Some(10.0), Some(10.0), Some(5.0), None, None, None, false, Some(9))

  /** Ten kilometres, petrol stored as 5.00; the office's rates make it 20.00. */
  const LEANING_TRIP :=
    TripSource(2, 1, Some(7), None, None, false, DateKey(24000, 5), true, false, false, true, 0.0, true, 0.0, 0.0, 10.0, 0.0, 0.0,
               Some(LEANING_SNAPSHOT), 0.0, 0.0)

  /** A trip whose petrol was never stored, so that a batch holding it loads the office's rates. */
  const NEEDY_TRIP := LEANING_TRIP.(id := 3, snapshot := Some(LEANING_SNAPSHOT.(petrol := None)))

  const NO_SETTINGS := GenderSettings(GenderSetting(None, []), GenderSetting(None, []), GenderSetting(None, []))
  const TWO_TRIPS :=
    SourceData([], [NEEDY_TRIP, LEANING_TRIP], [], 0.0, 100.0, 50.0, [], [], PrizeSchedule([], [], NO_SETTINGS, NO_SETTINGS))

  lemma TwoTripsDisagree()
    ensures !PaiseAgree(TWO_TRIPS, 1, MONTH_JOB.start, MONTH_JOB.end, LEANING_TRIP)
  {
    var rows := SelectTrips(TWO_TRIPS.trips, 1, MONTH_JOB.start, MONTH_JOB.end);
    assert SelectTrips([NEEDY_TRIP], 1, MONTH_JOB.start, MONTH_JOB.end) == [NEEDY_TRIP] by {
      assert [NEEDY_TRIP][..0] == [];
    }
    assert TWO_TRIPS.trips[..1] == [NEEDY_TRIP];
    assert rows == [NEEDY_TRIP, LEANING_TRIP] && NeedsOfficeRates(rows[0]);
    assert LeansOnOffice(LEANING_TRIP) && Distance(LEANING_TRIP) == 10.0;
    assert 10.0 / 50.0 * 100.0 == 20.0;
    assert AtOfficeRates(LEANING_TRIP, 100.0, 50.0) == Some(20.0);
    assert PaiseOfPayable(Some(20.0)) == Some(2000) && PaiseOfPayable(Some(5.0)) == Some(500);
  }

  /** Such a trip exists: its accepted event and a rebuild of the month leave different entries of
      it in some ledger. */
  lemma TripPricesCanDiffer() returns (job: Job, data: SourceData, ev: SourceEvent, t: TripSource)
    ensures job.scope == Commissions && OrdersPart(job, data, []).error.None?
    ensures DistinctOrders(data.orders) && DistinctTrips(data.trips) && IsIteration([], TargetMap(data.targets))
    ensures t in data.trips && TripMatches(t, job.id.office, job.start, job.end) && t.officeCost == 0.0 && t.officeMileage == 0.0
    ensures AnnouncesTrip(ev, t) && TripWorker(t).Some? && ValidDate(t.date) && EventPlanOf(data, {}, ev).error.None?
    ensures exists m: Entries ::
              var byEvent, byRebuild := PutAll(m, EventPlanOf(data, {}, ev).puts), PutAll(m, RebuildOf(job, data, []).puts);
              !(SameAt(byEvent, byRebuild, TripKeyOf(t, TripCommission)) && SameAt(byEvent, byRebuild, TripKeyOf(t, Petrol)))
  {
    job, data, t := MONTH_JOB, TWO_TRIPS, LEANING_TRIP;
    ev := SourceEvent(true, false, 2, 1, t.date, 9);
    hide RebuildOf, PutAll, SameAt, PaiseAgree, EffectivePayables;
    TwoTripsDisagree();
    FoundTrip(data.trips, t);
    AcceptedTrip(data, {}, ev, t);
    TripLedgersAgreeIff(job, data, [], {}, ev, t);
  }
}
