/** What one source write does to the ledger, which writes a rebuild's scope lets through, and which
    entries an audit counts, on the entries' own fields. */
module LedgerLaws {
  import opened Wrappers
  import opened Dates
  import opened Money
  import opened Ranking
  import opened Sums
  import opened Ledger
  import opened SourcePuts
  import opened Sources
  import opened Plans
  import opened ControlPlane
  import opened RebuildPlan
  import opened RebuildFacts
  import opened AuditPlan
  import opened Audit
  import opened PayoutLaws
  import opened TripConvergence

  // ----- one put

  /** The stored entry already says what the write says. */
  predicate SaysTheSame(a: Entry, b: Entry) {
    && a.worker == b.worker && a.workerType == b.workerType && a.date == b.date && a.component == b.component
    && a.bucket == b.bucket && a.amount == b.amount && a.settled == b.settled && a.status == b.status
    && a.sourceType == b.sourceType && a.version == b.version && a.configuration == b.configuration
  }

  /** A write enters a new entry at the end, repairs an open entry nothing of which is settled, and
      leaves every other one alone; it conflicts with one left alone that says something else. */
  lemma PutDecides(m: Entries, e: Entry)
    ensures var m' := PutSource(m, e);
            && (e.id !in m ==> m' == m[e.id := e.(stamp := |m|)] && PutOutcome(m, e) == Inserted)
            && (e.id in m && m[e.id].id == e.id ==>
                  var was := m[e.id];
                  var repairs := was.status == Open && was.settled == 0 && !SaysTheSame(was, e);
                  && m' == (if repairs then m[e.id := e.(stamp := was.stamp)] else m)
                  && (PutOutcome(m, e) == Conflict <==> (was.status != Open || was.settled != 0) && !SaysTheSame(was, e))
                  && PutOutcome(m, e) != Inserted)
  {
  }

  // ----- a rebuild's scope

  /** Orders and bonuses need the scope of all or of commissions; awards that of all or of
      leaderboards; trips any but leaderboards, and a petrol rebuild writes no commission. */
  lemma ScopeAllows(job: Job, data: SourceData, workers: seq<Id>, e: Entry)
    requires e in RebuildOf(job, data, workers).puts
    ensures (e.id.key.SourceKey? && e.id.key.collection == Orders) || e.id.key.TargetKey? ==>
              job.scope == AllEarnings || job.scope == Commissions
    ensures e.id.key.AwardKey? ==> job.scope == AllEarnings || job.scope == LeaderboardsOnly
    ensures e.id.key.SourceKey? && e.id.key.collection == Trips ==> job.scope != LeaderboardsOnly
    ensures e.id.key.SourceKey? && e.id.key.collection == Trips && job.scope == PetrolOnly ==> e.id.key.component == Petrol
    ensures !e.id.key.ClientKey?
  {
    hide OrdersSection, LeaderboardSection, TripPlans;
    PartsKeys(job, data, workers);
    ThreeParts(OrdersPart(job, data, workers), TripsPart(job, data), BoardsPart(job, data));
    OrdersFail(job, data, workers);
    if job.scope == PetrolOnly && e in TripsPart(job, data).puts {
      PetrolOnlyTrips(job, LoadTrips(data, job.id.office, job.start, job.end), e);
    }
  }

  lemma OrdersFail(job: Job, data: SourceData, workers: seq<Id>)
    ensures OrdersPart(job, data, workers).error.Some? ==> OrdersPart(job, data, workers).puts == []
  {
    OrdersSectionShape(job, data, workers);
  }

  lemma {:induction false} PetrolOnlyTrips(job: Job, trips: seq<TripSource>, e: Entry)
    requires job.scope == PetrolOnly && e in TripPlans(job, trips).puts
    ensures e.id.key.SourceKey? && e.id.key.component == Petrol
  {
    hide TripPlan;
    var init, last := trips[..|trips| - 1], trips[|trips| - 1];
    ThenPuts(TripPlans(job, init), TripPlan(job, last));
    if e in TripPlans(job, init).puts {
      PetrolOnlyTrips(job, init, e);
    } else {
      TripPlanParts(job, last);
      TripWriteShape(job, last, Petrol, PetrolBucket, EffectivePayables(last).1);
    }
  }

  /** Every row names a worker and has non-negative scores, and no worker has two. */
  ghost predicate RowsOk(rows: seq<Row>) {
    && (forall r :: r in rows ==> r.score.worker != 0 && r.score.first >= 0.0 && r.score.second >= 0.0)
    && (forall i, j :: 0 <= i < j < |rows| ==> rows[i].score.worker != rows[j].score.worker)
  }

  lemma {:induction false} RowsOkIs(rows: seq<Row>)
    ensures RowPlans(rows).error.None? <==> RowsOk(rows)
  {
    if rows != [] {
      var n := |rows| - 1;
      var init, last := rows[..n], rows[n];
      RowsOkIs(init);
      assert rows == init + [last];
      RowsOkSnoc(init, last);
    }
  }

  lemma RowsOkSnoc(rows: seq<Row>, r: Row)
    ensures RowsOk(rows + [r]) <==> RowsOk(rows) && RowPlan(rows, r).error.None?
  {
    var all := rows + [r];
    assert forall i :: 0 <= i < |rows| ==> all[i] == rows[i];
    assert all[|rows|] == r;
    assert forall q :: q in all <==> q in rows || q == r;
  }

  /** The boards of a rebuild can be used exactly when the prizes are non-negative and the aggregate
      rows are in order. */
  lemma BoardsUsableIff(data: SourceData)
    ensures BoardsUsable(data) <==>
            && (forall p :: p in data.prizes.beautician || p in data.prizes.rider ==> p >= 0.0)
            && RowsOk(data.beauticians) && RowsOk(RiderRows(data.riders))
  {
    hide RowsOk, RowPlans, RiderRows, ValidPrizes;
    RowsOkIs(data.beauticians);
    RowsOkIs(RiderRows(data.riders));
    PrizesOk(data.prizes.beautician);
    PrizesOk(data.prizes.rider);
  }

  lemma PrizesOk(prizes: seq<real>)
    ensures ValidPrizes(prizes) <==> forall p :: p in prizes ==> p >= 0.0
  {
    if ValidPrizes(prizes) {
      forall p | p in prizes ensures p >= 0.0 {
        var i :| 0 <= i < |prizes| && prizes[i] == p;
      }
    } else {
      var i :| 0 <= i < |prizes| && !ValidMoney(prizes[i]);
      assert prizes[i] in prizes;
    }
  }

  // ----- what an audit counts

  /** The last day of a month: real, and the day after it is not. */
  predicate EndsMonth(d: DateKey, month: int) {
    d.month == month && ValidDate(d) && !ValidDate(d.(day := d.day + 1))
  }

  /** The entry belongs to the scope of an audit over the range. */
  predicate InScope(e: Entry, scope: AuditScope, start: DateKey, end: DateKey) {
    match scope
    case OrderScope =>
      (e.component == SpecialCommission || e.component == GeneralCommission || e.component == UpgradeCommission)
      && e.sourceType == Orders && e.sourceId.Some? && DateUpTo(start, e.date) && DateUpTo(e.date, end)
    case TripScope =>
      (e.component == TripCommission || e.component == Petrol)
      && e.sourceType == Trips && e.sourceId.Some? && DateUpTo(start, e.date) && DateUpTo(e.date, end)
    case TargetScope =>
      e.component == TargetBonus && e.sourceType == Targets && EndsMonth(e.date, end.month)
      && e.configuration.TargetConfiguration? && e.configuration.targetMonth == end.month
    case BoardScope(board) =>
      e.component == LeaderboardBonus && e.sourceType == Leaderboards && e.configuration.AwardConfiguration?
      && e.configuration.periodStart == start && e.configuration.periodEnd == end && e.configuration.board == board
  }

  /** The audit adds the entry up under this key. */
  predicate CountsUnder(e: Entry, office: Id, start: DateKey, end: DateKey, k: AuditKey) {
    && e.id.office == office && e.status != Void && e.worker != 0
    && e.worker == k.worker && e.workerType == k.workerType && e.component == k.component && e.bucket == k.bucket
    && DateUpTo(start, e.date) && (e.date.month < end.month || (e.date.month == end.month && e.date.day <= LastDay(end.month)))
    && InScope(e, k.scope, start, end)
  }

  function CountedAmount(office: Id, start: DateKey, end: DateKey, k: AuditKey): Entry -> int {
    (e: Entry) => if CountsUnder(e, office, start, end, k) then e.amount else 0
  }

  lemma WeightIs(e: Entry, office: Id, start: DateKey, end: DateKey, k: AuditKey)
    ensures (if AuditReads(e, office, start, end) then Weight(start, end, k)(e) else 0) == CountedAmount(office, start, end, k)(e)
  {
    if EntryScope(e, start, end).Some? {
      SumAtOne(AuditKey(e.worker, e.workerType, EntryScope(e, start, end).value, e.component, e.bucket), e.amount, k);
    }
  }

  lemma {:induction false} SumOfPart<K, V>(part: map<K, V>, all: map<K, V>, f: V -> int, g: V -> int)
    requires part.Keys <= all.Keys && forall k :: k in part ==> part[k] == all[k]
    requires forall k :: k in all ==> g(all[k]) == if k in part then f(all[k]) else 0
    ensures MapSum(part, f) == MapSum(all, g)
    decreases |all|
  {
    if all == map[] {
      assert part == map[];
    } else {
      var k :| k in all;
      MapSumRemove(all, g, k);
      if k in part {
        MapSumRemove(part, f, k);
      } else {
        assert part - {k} == part;
      }
      SumOfPart(part - {k}, all - {k}, f, g);
    }
  }

  /** What an audit finds in the ledger under a key is the sum of the entries that count under it. */
  lemma AuditCountsEntries(m: Entries, read: seq<Entry>, office: Id, start: DateKey, end: DateKey, k: AuditKey)
    requires IsLedgerRead(read, m, office, start, end)
    ensures SumAt(LedgerAmounts(read, start, end), k) == MapSum(m, CountedAmount(office, start, end, k))
  {
    hide CountsUnder, AuditReads, EntryScope, InScope;
    var seen := map j | j in m && AuditReads(m[j], office, start, end) :: m[j];
    LedgerSum(read, start, end, k);
    ListWeighsMap(read, seen, Weight(start, end, k));
    forall j | j in m ensures CountedAmount(office, start, end, k)(m[j]) == if j in seen then Weight(start, end, k)(m[j]) else 0 {
      WeightIs(m[j], office, start, end, k);
    }
    SumOfPart(seen, m, Weight(start, end, k), CountedAmount(office, start, end, k));
  }
}
