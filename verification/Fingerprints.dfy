/** The prize configuration's version (`snapshotLeaderboardConfiguration`). It is meant to identify
    the configuration's content, but prints each optional switch as the address it was decoded
    at, so loading the same document again may give another version. */
module Fingerprints {
  import opened Wrappers
  import opened Dates
  import opened Money
  import opened Ranking
  import opened Ledger
  import opened SourcePuts
  import opened Sources
  import opened Plans
  import opened ControlPlane
  import opened RebuildPlan
  import opened RebuildFacts

  predicate SameSetting(a: GenderSetting, b: GenderSetting) {
    a.prizes == b.prizes && (a.bonusEnabled.Some? <==> b.bonusEnabled.Some?)
    && (a.bonusEnabled.Some? ==> a.bonusEnabled.value.on == b.bonusEnabled.value.on)
  }

  predicate SameSettings(a: GenderSettings, b: GenderSettings) {
    SameSetting(a.female, b.female) && SameSetting(a.male, b.male) && SameSetting(a.other, b.other)
  }

  /** Two loads of one schedule: equal but for where the switches were decoded. */
  predicate SameSchedule(p: PrizeSchedule, q: PrizeSchedule) {
    p.beautician == q.beautician && p.rider == q.rider
    && SameSettings(p.beauticianByGender, q.beauticianByGender) && SameSettings(p.riderByGender, q.riderByGender)
  }

  predicate NoSwitches(s: GenderSettings) {
    s.female.bonusEnabled.None? && s.male.bonusEnabled.None? && s.other.bonusEnabled.None?
  }

  /** The document sets no gender's switch on either board. */
  predicate Switchless(p: PrizeSchedule) {
    NoSwitches(p.beauticianByGender) && NoSwitches(p.riderByGender)
  }

  // ----- versions

  function MovedSetting(s: GenderSetting): GenderSetting {
    if s.bonusEnabled.None? then s
    else s.(bonusEnabled := Some(s.bonusEnabled.value.(address := s.bonusEnabled.value.address + 1)))
  }

  function MovedSettings(s: GenderSettings): GenderSettings {
    GenderSettings(MovedSetting(s.female), MovedSetting(s.male), MovedSetting(s.other))
  }

  /** The same document with every switch decoded elsewhere. */
  function Moved(p: PrizeSchedule): PrizeSchedule {
    p.(beauticianByGender := MovedSettings(p.beauticianByGender), riderByGender := MovedSettings(p.riderByGender))
  }

  lemma MovedSettingsPrint(s: GenderSettings)
    ensures SameSettings(s, MovedSettings(s))
    ensures PrintedSettings(MovedSettings(s)) == PrintedSettings(s) <==> NoSwitches(s)
  {
    var t := MovedSettings(s);
    if PrintedSettings(t) == PrintedSettings(s) {
      assert PrintedSettings(t)[0] == PrintedSettings(s)[0] && PrintedSettings(t)[1] == PrintedSettings(s)[1] && PrintedSettings(t)[2] == PrintedSettings(s)[2];
    }
  }

  lemma MovedVersion(p: PrizeSchedule)
    ensures SameSchedule(p, Moved(p)) && (VersionOf(Moved(p)) == VersionOf(p) <==> Switchless(p))
  {
    MovedSettingsPrint(p.beauticianByGender);
    MovedSettingsPrint(p.riderByGender);
  }

  lemma SwitchlessLoadsEqual(p: PrizeSchedule, q: PrizeSchedule)
    requires SameSchedule(p, q) && Switchless(p)
    ensures q == p
  {
  }

  /** The version identifies the content exactly when the document sets no switch. */
  lemma VersionAgreesIff(p: PrizeSchedule)
    ensures (forall q | SameSchedule(p, q) :: VersionOf(q) == VersionOf(p)) <==> Switchless(p)
  {
    MovedVersion(p);
    if Switchless(p) {
      forall q | SameSchedule(p, q) ensures VersionOf(q) == VersionOf(p) {
        SwitchlessLoadsEqual(p, q);
      }
    }
  }

  predicate PaiseEqual(a: seq<real>, b: seq<real>) {
    |a| == |b| && forall i :: 0 <= i < |a| ==> MoneyToPaise(a[i]) == MoneyToPaise(b[i])
  }

  /** Same own prizes, and a switch decoded at the same place or none in either. */
  predicate SamePrint(a: GenderSetting, b: GenderSetting) {
    a.prizes == b.prizes
    && (a.bonusEnabled.Some? <==> b.bonusEnabled.Some?)
    && (a.bonusEnabled.Some? ==> a.bonusEnabled.value.address == b.bonusEnabled.value.address)
  }

  predicate SamePrints(a: GenderSettings, b: GenderSettings) {
    SamePrint(a.female, b.female) && SamePrint(a.male, b.male) && SamePrint(a.other, b.other)
  }

  lemma PrintsAre(a: GenderSettings, b: GenderSettings)
    ensures PrintedSettings(a) == PrintedSettings(b) <==> SamePrints(a, b)
  {
    if PrintedSettings(a) == PrintedSettings(b) {
      assert PrintedSettings(a)[0] == PrintedSettings(b)[0] && PrintedSettings(a)[1] == PrintedSettings(b)[1]
          && PrintedSettings(a)[2] == PrintedSettings(b)[2];
    }
  }

  lemma PricesAre(a: seq<real>, b: seq<real>)
    ensures Prices(a) == Prices(b) <==> PaiseEqual(a, b)
  {
    if Prices(a) == Prices(b) {
      assert |a| == |b|;
      forall i | 0 <= i < |a| ensures MoneyToPaise(a[i]) == MoneyToPaise(b[i]) {
        assert Prices(a)[i] == Prices(b)[i];
      }
    }
  }

  /** What the version tells apart: common prizes by their paise, own prizes, and the places of the
      switches; not whether a switch is on. */
  lemma VersionTells(p: PrizeSchedule, q: PrizeSchedule)
    ensures VersionOf(p) == VersionOf(q) <==>
            && PaiseEqual(p.beautician, q.beautician) && PaiseEqual(p.rider, q.rider)
            && SamePrints(p.beauticianByGender, q.beauticianByGender) && SamePrints(p.riderByGender, q.riderByGender)
  {
    hide MoneyToPaise, PrintedSettings, Prices, PaiseEqual;
    PricesAre(p.beautician, q.beautician);
    PricesAre(p.rider, q.rider);
    PrintsAre(p.beauticianByGender, q.beauticianByGender);
    PrintsAre(p.riderByGender, q.riderByGender);
  }

  const SWITCHED_ON := GenderSetting(Some(Flag(true, 1)), [100.0])
  const UNSET := GenderSetting(None, [])

  /** Women's prizes on the beautician board are switched on by their own setting. */
  const SWITCHED := PrizeSchedule([], [], GenderSettings(SWITCHED_ON, UNSET, UNSET), GenderSettings(UNSET, UNSET, UNSET))

  /** Two loads of one document with different versions. */
  lemma LoadsCanDiffer() returns (p: PrizeSchedule, q: PrizeSchedule)
    ensures SameSchedule(p, q) && VersionOf(p) != VersionOf(q)
  {
    p, q := SWITCHED, Moved(SWITCHED);
    MovedVersion(p);
  }

  // ----- one award

  /** An award is paid alike from every load, but for the version it records. */
  lemma AwardEntriesAgree(job: Job, award: Award, workerType: WorkerType, board: Board, p: PrizeSchedule, q: PrizeSchedule)
    requires SameSchedule(p, q)
    ensures AwardEntry(job, award, workerType, board, q).id == AwardEntry(job, award, workerType, board, p).id
    ensures AwardEntry(job, award, workerType, board, q) == AwardEntry(job, award, workerType, board, p)
            <==> VersionOf(q) == VersionOf(p)
  {
  }

  /** Loading the prizes again leaves a stored, unpaid award alone exactly when the document sets no switch. */
  lemma ReloadRewritesAward(m: Entries, job: Job, award: Award, workerType: WorkerType, board: Board, p: PrizeSchedule)
    requires var e := AwardEntry(job, award, workerType, board, p); e.id in m && Content(m[e.id]) == e
    ensures (forall q | SameSchedule(p, q) :: PutSource(m, AwardEntry(job, award, workerType, board, q)) == m) <==> Switchless(p)
  {
    MovedVersion(p);
    if Switchless(p) {
      forall q | SameSchedule(p, q) ensures PutSource(m, AwardEntry(job, award, workerType, board, q)) == m {
        SwitchlessLoadsEqual(p, q);
      }
    } else {
      AwardEntriesAgree(job, award, workerType, board, p, Moved(p));
    }
  }

  // ----- all awards of a board

  lemma {:induction false} AwardPlansWrite(job: Job, awards: seq<Award>, types: map<Id, WorkerType>, board: Board, p: PrizeSchedule, e: Entry)
    ensures e in AwardPlans(job, awards, types, board, p).puts <==>
            exists a :: a in awards && a.bonus != 0.0 && e == AwardEntry(job, a, TypeOf(types, board, a.worker), board, p)
  {
    if awards != [] {
      hide AwardEntry;
      var init, last := awards[..|awards| - 1], awards[|awards| - 1];
      AwardPlansWrite(job, init, types, board, p, e);
      assert forall a :: a in awards <==> a in init || a == last;
    }
  }

  /** The award writes over equal aggregates are the same for every load of the prizes exactly when
      the document sets no switch or no award pays anything. */
  lemma AwardWritesAgreeIff(job: Job, awards: seq<Award>, types: map<Id, WorkerType>, board: Board, p: PrizeSchedule)
    ensures (forall q | SameSchedule(p, q) :: AwardPlans(job, awards, types, board, q).puts == AwardPlans(job, awards, types, board, p).puts)
            <==> Switchless(p) || forall a :: a in awards ==> a.bonus == 0.0
  {
    MovedVersion(p);
    if Switchless(p) {
      forall q | SameSchedule(p, q) ensures AwardPlans(job, awards, types, board, q).puts == AwardPlans(job, awards, types, board, p).puts {
        SwitchlessLoadsEqual(p, q);
      }
    } else if forall a :: a in awards ==> a.bonus == 0.0 {
      forall q | SameSchedule(p, q) ensures AwardPlans(job, awards, types, board, q).puts == AwardPlans(job, awards, types, board, p).puts {
        NoAwardNoWrite(job, awards, types, board, p);
        NoAwardNoWrite(job, awards, types, board, q);
      }
    } else {
      var a :| a in awards && a.bonus != 0.0;
      var e := AwardEntry(job, a, TypeOf(types, board, a.worker), board, p);
      AwardPlansWrite(job, awards, types, board, p, e);
      AwardPlansWrite(job, awards, types, board, Moved(p), e);
    }
  }

  lemma {:induction false} NoAwardNoWrite(job: Job, awards: seq<Award>, types: map<Id, WorkerType>, board: Board, p: PrizeSchedule)
    requires forall a :: a in awards ==> a.bonus == 0.0
    ensures AwardPlans(job, awards, types, board, p).puts == []
  {
    if awards != [] {
      NoAwardNoWrite(job, awards[..|awards| - 1], types, board, p);
    }
  }

  // ----- whole rebuilds

  /** The boards do not depend on where the switches were decoded. */
  lemma BoardsAgree(rows: seq<Row>, board: Board, p: PrizeSchedule, q: PrizeSchedule)
    requires SameSchedule(p, q)
    ensures BoardAwards(rows, p, board) == BoardAwards(rows, q, board)
  {
    forall gender: Gender ensures BoardPrizes(p, board, gender) == BoardPrizes(q, board, gender) {
    }
  }

  /** Every award a rebuild writes has its counterpart, under the same key, in a rebuild over
      another load of the prizes; the counterpart is the same entry if the versions agree and
      records another configuration if they do not. */
  lemma AwardCounterpart(job: Job, data: SourceData, q: PrizeSchedule, e: Entry) returns (e': Entry)
    requires SameSchedule(data.prizes, q) && e in BoardsPart(job, data).puts
    ensures e' in BoardsPart(job, data.(prizes := q)).puts && e'.id == e.id
    ensures e'.configuration == e.configuration <==> VersionOf(q) == VersionOf(data.prizes)
  {
    var data' := data.(prizes := q);
    LeaderboardShape(job, data);
    LeaderboardShape(job, data');
    var riders, types := RiderRows(data.riders), RiderTypes(data.riders);
    if e in BeauticianAwardPlans(job, data).puts {
      e' := BoardCounterpart(job, data.beauticians, map[], BeauticianBoard, data.prizes, q, e);
    } else {
      e' := BoardCounterpart(job, riders, types, RiderBoard, data.prizes, q, e);
    }
  }

  lemma BoardCounterpart(job: Job, rows: seq<Row>, types: map<Id, WorkerType>, board: Board, p: PrizeSchedule, q: PrizeSchedule, e: Entry)
    returns (e': Entry)
    requires SameSchedule(p, q) && e in AwardPlans(job, BoardAwards(rows, p, board), types, board, p).puts
    ensures e' in AwardPlans(job, BoardAwards(rows, q, board), types, board, q).puts && e'.id == e.id
    ensures e'.configuration == e.configuration <==> VersionOf(q) == VersionOf(p)
  {
    hide VersionOf, BoardAwards, SameSchedule;
    var awards := BoardAwards(rows, p, board);
    BoardsAgree(rows, board, p, q);
    AwardPlansWrite(job, awards, types, board, p, e);
    var a :| a in awards && a.bonus != 0.0 && e == AwardEntry(job, a, TypeOf(types, board, a.worker), board, p);
    e' := AwardEntry(job, a, TypeOf(types, board, a.worker), board, q);
    AwardPlansWrite(job, awards, types, board, q, e');
    SchedulesPrice(p, q);
  }

  lemma SchedulesPrice(p: PrizeSchedule, q: PrizeSchedule)
    requires SameSchedule(p, q)
    ensures p.beautician == q.beautician && p.rider == q.rider
  {
  }

  /** Reloading the prizes changes only award entries. */
  lemma ReloadedPlan(job: Job, data: SourceData, workers: seq<Id>, workers': seq<Id>, q: PrizeSchedule, e: Entry)
    requires SameSchedule(data.prizes, q)
    requires IsIteration(workers, TargetMap(data.targets)) && IsIteration(workers', TargetMap(data.targets))
    ensures !e.id.key.AwardKey? ==>
              (e in RebuildOf(job, data.(prizes := q), workers').puts <==> e in RebuildOf(job, data, workers).puts)
    ensures e.id.key.AwardKey? ==>
              (e in RebuildOf(job, data.(prizes := q), workers').puts
               <==> OrdersPart(job, data, workers).error.None? && e in BoardsPart(job, data.(prizes := q)).puts)
  {
    hide OrdersPart, TripsPart, BoardsPart;
    var data' := data.(prizes := q);
    OrdersPartsAlike(job, data, workers, workers');
    SamePrizelessParts(job, data, workers', q);
    ThreeParts(OrdersPart(job, data, workers), TripsPart(job, data), BoardsPart(job, data));
    ThreeParts(OrdersPart(job, data', workers'), TripsPart(job, data'), BoardsPart(job, data'));
    PartsKeys(job, data, workers);
    PartsKeys(job, data', workers');
    OrdersPartFails(job, data, workers);
    OrdersPartFails(job, data', workers');
  }

  lemma OrdersPartFails(job: Job, data: SourceData, workers: seq<Id>)
    ensures OrdersPart(job, data, workers).error.Some? ==> OrdersPart(job, data, workers).puts == []
  {
    OrdersSectionShape(job, data, workers);
  }

  lemma SamePrizelessParts(job: Job, data: SourceData, workers: seq<Id>, q: PrizeSchedule)
    ensures OrdersPart(job, data.(prizes := q), workers) == OrdersPart(job, data, workers)
    ensures TripsPart(job, data.(prizes := q)) == TripsPart(job, data)
  {
  }

  /** Everything the ledger holds of these awards has been paid out. */
  predicate AwardsFrozen(m: Entries, es: seq<Entry>) {
    forall e :: e in es && e.id.key.AwardKey? ==> e.id in m && Frozen(m[e.id])
  }

  /** An entry a run of puts leaves unpaid holds what its put says. */
  lemma UnfrozenHolds(m: Entries, es: seq<Entry>, e: Entry)
    requires DistinctKeys(es) && e in es
    ensures e.id in PutAll(m, es)
    ensures !Frozen(PutAll(m, es)[e.id]) ==> PutAll(m, es)[e.id].configuration == e.configuration
  {
    var j :| 0 <= j < |es| && es[j] == e;
    PutsActAlone(m, es, j);
  }

  /** A put of another configuration changes an unpaid entry. */
  lemma OtherConfigurationRewrites(m: Entries, es: seq<Entry>, e: Entry)
    requires DistinctKeys(es) && e in es && e.id in m && !Frozen(m[e.id]) && m[e.id].configuration != e.configuration
    ensures PutAll(m, es) != m
  {
    var j :| 0 <= j < |es| && es[j] == e;
    PutsActAlone(m, es, j);
  }

  lemma UnpaidAwardRewritten(job: Job, data: SourceData, workers: seq<Id>, m: Entries, e: Entry)
    requires DistinctOrders(data.orders) && DistinctTrips(data.trips) && IsIteration(workers, TargetMap(data.targets))
    requires e in RebuildOf(job, data, workers).puts && e.id.key.AwardKey? && !Switchless(data.prizes)
    requires var m' := PutAll(m, RebuildOf(job, data, workers).puts); e.id in m' ==> !Frozen(m'[e.id])
    ensures var m' := PutAll(m, RebuildOf(job, data, workers).puts);
            PutAll(m', RebuildOf(job, data.(prizes := Moved(data.prizes)), workers).puts) != m'
  {
    hide RebuildOf, PutAll, BoardsPart, Moved, SameSchedule, VersionOf, DistinctKeys;
    var q := Moved(data.prizes);
    var es := RebuildOf(job, data, workers).puts;
    MovedVersion(data.prizes);
    RebuildDistinct(job, data, workers);
    RebuildDistinct(job, data.(prizes := q), workers);
    UnfrozenHolds(m, es, e);
    SameLoad(data.prizes);
    ReloadedPlan(job, data, workers, workers, data.prizes, e);
    var e' := AwardCounterpart(job, data, q, e);
    ReloadedPlan(job, data, workers, workers, q, e');
    OtherConfigurationRewrites(PutAll(m, es), RebuildOf(job, data.(prizes := q), workers).puts, e');
  }

  lemma SameLoad(p: PrizeSchedule)
    ensures SameSchedule(p, p)
  {
  }

  lemma LoadsSwap(p: PrizeSchedule, q: PrizeSchedule)
    requires SameSchedule(p, q)
    ensures SameSchedule(q, p)
  {
  }

  /** With every award paid out, a rebuild over any load of the prizes leaves the ledger alone. */
  lemma PaidAwardsStay(job: Job, data: SourceData, workers: seq<Id>, workers': seq<Id>, q: PrizeSchedule, m: Entries)
    requires DistinctOrders(data.orders) && DistinctTrips(data.trips) && SameSchedule(data.prizes, q)
    requires IsIteration(workers, TargetMap(data.targets)) && IsIteration(workers', TargetMap(data.targets))
    requires AwardsFrozen(PutAll(m, RebuildOf(job, data, workers).puts), RebuildOf(job, data, workers).puts)
    ensures var m' := PutAll(m, RebuildOf(job, data, workers).puts);
            PutAll(m', RebuildOf(job, data.(prizes := q), workers').puts) == m'
  {
    hide RebuildOf, PutAll, BoardsPart, SameSchedule, VersionOf, DistinctKeys, IsIteration;
    var es, data' := RebuildOf(job, data, workers).puts, data.(prizes := q);
    var m' := PutAll(m, es);
    IterationDistinct(job, data, workers);
    PutsStaySettled(m, es);
    forall e | e in RebuildOf(job, data', workers').puts ensures PutSource(m', e) == m' {
      ReloadedPlan(job, data, workers, workers', q, e);
      if e.id.key.AwardKey? {
        LoadsSwap(data.prizes, q);
        assert data'.(prizes := data.prizes) == data;
        var e0 := AwardCounterpart(job, data', data.prizes, e);
        SameLoad(data.prizes);
        ReloadedPlan(job, data, workers, workers, data.prizes, e0);
      }
    }
    SettledPutsStay(m', RebuildOf(job, data', workers').puts, NO_STATS);
  }

  /** Running a rebuild again over reloaded prizes, with any iteration over the targets, is sure to
      leave the ledger alone exactly when the prize document sets no switch or every award of the
      rebuild has been paid out. */
  lemma ReloadedRebuildIsQuietIff(job: Job, data: SourceData, workers: seq<Id>, m: Entries)
    requires DistinctOrders(data.orders) && DistinctTrips(data.trips) && IsIteration(workers, TargetMap(data.targets))
    ensures var p := RebuildOf(job, data, workers);
            var m' := PutAll(m, p.puts);
            (forall q, ws | SameSchedule(data.prizes, q) && IsIteration(ws, TargetMap(data.targets)) ::
              PutAll(m', RebuildOf(job, data.(prizes := q), ws).puts) == m')
            <==> Switchless(data.prizes) || AwardsFrozen(m', p.puts)
  {
    hide RebuildOf, PutAll, SameSchedule, IsIteration, DistinctOrders, DistinctTrips, Switchless, Moved, TargetMap, Frozen;
    var es := RebuildOf(job, data, workers).puts;
    var m' := PutAll(m, es);
    if Switchless(data.prizes) {
      forall q, ws | SameSchedule(data.prizes, q) && IsIteration(ws, TargetMap(data.targets))
        ensures PutAll(m', RebuildOf(job, data.(prizes := q), ws).puts) == m'
      {
        SwitchlessLoadsEqual(data.prizes, q);
        assert data.(prizes := q) == data;
        RebuildReplayIsQuiet(job, data, workers, ws, m);
      }
    } else if AwardsFrozen(m', es) {
      forall q, ws | SameSchedule(data.prizes, q) && IsIteration(ws, TargetMap(data.targets))
        ensures PutAll(m', RebuildOf(job, data.(prizes := q), ws).puts) == m'
      {
        PaidAwardsStay(job, data, workers, ws, q, m);
      }
    } else {
      var e :| e in es && e.id.key.AwardKey? && !(e.id in m' && Frozen(m'[e.id]));
      MovedVersion(data.prizes);
      UnpaidAwardRewritten(job, data, workers, m, e);
    }
  }

  const ONE_ROW := [Row(Score(7, 1.0, 1.0), Female)]
  const ONE_AWARD := Award(7, 1, 100.0)
  const ONE_JOB := Job(JobKey(1, "leaderboards"), DateKey(24000, 1), DateKey(24000, 31), LeaderboardsOnly, Queued, 0, NO_STATS)
  const ONE_SOURCE := SourceData([], [], [], 0.0, 0.0, 0.0, ONE_ROW, [], SWITCHED)

  lemma OneScoreWins(s: Score, prize: real)
    ensures RankAwards([s], [prize]) == [Award(s.worker, 1, prize)]
  {
    assert [s][..0] == [] && SortScores([s]) == [s];
  }

  lemma OneRowScores(r: Row)
    ensures RowScores([r], r.gender) == [r.score]
  {
    assert [r][..0] == [] && RowScores([], r.gender) == [];
  }

  lemma OneAwardIsWon()
    ensures ONE_AWARD in BoardAwards(ONE_ROW, SWITCHED, BeauticianBoard)
  {
    hide RankAwards, RowScores;
    OneRowScores(ONE_ROW[0]);
    OneScoreWins(ONE_ROW[0].score, 100.0);
    assert RankAwards(RowScores(ONE_ROW, Female), BoardPrizes(SWITCHED, BeauticianBoard, Female))[0] == ONE_AWARD;
  }

  lemma OneRowIsUsable()
    ensures BoardsUsable(ONE_SOURCE)
  {
    assert ONE_ROW[..0] == [] && RowPlans([]).error.None?;
    assert RowPlans(ONE_ROW).error.None?;
    assert RiderRows(ONE_SOURCE.riders) == [];
  }

  lemma OneAwardIsWritten() returns (e: Entry)
    ensures e == AwardEntry(ONE_JOB, ONE_AWARD, Beautician, BeauticianBoard, SWITCHED)
    ensures e in BoardsPart(ONE_JOB, ONE_SOURCE).puts
  {
    hide BoardAwards, BoardsUsable, AwardEntry, LeaderboardSection;
    e := AwardEntry(ONE_JOB, ONE_AWARD, Beautician, BeauticianBoard, SWITCHED);
    OneAwardIsWon();
    AwardPlansWrite(ONE_JOB, BoardAwards(ONE_ROW, SWITCHED, BeauticianBoard), map[], BeauticianBoard, SWITCHED, e);
    OneRowIsUsable();
    LeaderboardShape(ONE_JOB, ONE_SOURCE);
  }

  lemma OneEntryOpens() returns (e: Entry)
    ensures e in RebuildOf(ONE_JOB, ONE_SOURCE, []).puts && e.id.key.AwardKey?
    ensures e.status == Open && e.settled == 0
  {
    e := OneAwardIsWritten();
    assert e.id.key.AwardKey? && e.status == Open && e.settled == 0;
    hide BoardsPart, AwardEntry, RebuildOf;
    SameLoad(SWITCHED);
    ReloadedPlan(ONE_JOB, ONE_SOURCE, [], [], SWITCHED, e);
    assert ONE_SOURCE.(prizes := SWITCHED) == ONE_SOURCE;
  }

  lemma PutsIntoNothing(es: seq<Entry>, e: Entry)
    requires DistinctKeys(es) && e in es && e.status == Open && e.settled == 0
    ensures e.id in PutAll(map[], es) && !Frozen(PutAll(map[], es)[e.id])
  {
    var j :| 0 <= j < |es| && es[j] == e;
    PutsActAlone(map[], es, j);
    assert Content(PutAll(map[], es)[e.id]) == Content(e);
  }

  /** A rebuild of an empty ledger whose second run, over the same prize document loaded again,
      rewrites an award nobody touched. */
  lemma ReloadedRebuildCanRewrite() returns (job: Job, data: SourceData, q: PrizeSchedule)
    ensures SameSchedule(data.prizes, q) && DistinctOrders(data.orders) && DistinctTrips(data.trips) && IsIteration([], TargetMap(data.targets))
    ensures var m' := PutAll(map[], RebuildOf(job, data, []).puts);
            PutAll(m', RebuildOf(job, data.(prizes := q), []).puts) != m'
  {
    hide RebuildOf, PutAll, Moved, Frozen, DistinctKeys, SameSchedule;
    job, data, q := ONE_JOB, ONE_SOURCE, Moved(SWITCHED);
    MovedVersion(SWITCHED);
    var e := OneEntryOpens();
    RebuildDistinct(job, data, []);
    PutsIntoNothing(RebuildOf(job, data, []).puts, e);
    UnpaidAwardRewritten(job, data, [], map[], e);
  }
}
