/** Trip issues as staff meet them: scans of a range, rechecks, accepted variances and snapshot
    repairs (`internal/earnings/trip_issues_repository.go`). */
module TripDesk {
  import opened Wrappers
  import opened Dates
  import opened Ranking
  import opened Ledger
  import opened Sources
  import opened IssueBoard
  import opened TripIssues

  type TripMap = map<Id, TripSource>

  /** An office's petrol price and mileage; no office document reads as zero. */
  type Rates = map<Id, (real, real)>

  datatype Action = Recheck | Accept | Rebuild(now: int)

  datatype ActionError = NotFound | AlreadyClosed | Unsupported | SourceGone | PaidSnapshot

  function RatesOf(rates: Rates, office: Id): (real, real) {
    if office in rates then rates[office] else (0.0, 0.0)
  }

  /** Issue workflows always look at a trip with its office's rates filled in. */
  function Hydrated(t: TripSource, rates: Rates): TripSource {
    t.(officeCost := RatesOf(rates, t.office).0, officeMileage := RatesOf(rates, t.office).1)
  }

  function Shown(trips: TripMap, profiles: Profiles, rates: Rates): Id -> seq<Finding> {
    (id: Id) => if id in trips then DetectTrip(Hydrated(trips[id], rates), profiles) else []
  }

  function MatchingTrips(trips: TripMap, office: Id, start: DateKey, end: DateKey): set<Id> {
    set id | id in trips && TripMatches(trips[id], office, start, end)
  }

  lemma WorkerFindingsDiffer(t: TripSource, profiles: Profiles)
    ensures |WorkerFindings(t, profiles)| <= 1
    ensures forall i :: 0 <= i < |WorkerFindings(t, profiles)| ==>
              var k := WorkerFindings(t, profiles)[i].key.issueType; k == MissingWorker || k == DeletedWorker
  {
  }

  lemma SnapshotFindingsDiffer(t: TripSource, c: Calculation, workerValid: bool)
    requires t.snapshot.Some?
    ensures DistinctFindings(SnapshotFindings(t, c, workerValid))
    ensures forall i :: 0 <= i < |SnapshotFindings(t, c, workerValid)| ==>
              var k := SnapshotFindings(t, c, workerValid)[i].key.issueType;
              k == DistanceMismatch || k == PetrolMismatch || k == CommissionMismatch
  {
  }

  /** A trip shows at most one finding of a type, all of its own office and date. */
  lemma TripFindingsDiffer(t: TripSource, profiles: Profiles)
    ensures OwnFindings(DetectTrip(t, profiles), t.id)
    ensures forall i :: 0 <= i < |DetectTrip(t, profiles)| ==>
              DetectTrip(t, profiles)[i].key.office == t.office && DetectTrip(t, profiles)[i].date == t.date
  {
    hide Canonical, WorkerValid;
    WorkerFindingsDiffer(t, profiles);
    if t.snapshot.Some? {
      SnapshotFindingsDiffer(t, Canonical(t), WorkerValid(t, profiles));
    }
  }

  /** `fs` holds what the trips of the range show, each trip once. */
  ghost predicate IsScanOf(fs: seq<Finding>, trips: TripMap, profiles: Profiles, rates: Rates, office: Id, start: DateKey, end: DateKey) {
    && Scannable(fs, office, start, end)
    && forall f :: f in fs <==> exists id :: id in MatchingTrips(trips, office, start, end) && f in Shown(trips, profiles, rates)(id)
  }

  lemma CoveredMatches(fs: seq<Finding>, trips: TripMap, profiles: Profiles, rates: Rates, office: Id, start: DateKey, end: DateKey)
    requires Covers(fs, MatchingTrips(trips, office, start, end), Shown(trips, profiles, rates))
    ensures IsScanOf(fs, trips, profiles, rates, office, start, end)
  {
    forall i | 0 <= i < |fs| ensures fs[i].key.office == office && Within(fs[i].date, start, end) {
      assert fs[i] in fs;
      var d :| d in MatchingTrips(trips, office, start, end) && fs[i] in Shown(trips, profiles, rates)(d);
      TripFindingsDiffer(Hydrated(trips[d], rates), profiles);
    }
  }

  // ----- one issue at a time

  predicate SourceFound(trips: TripMap, k: IssueKey) {
    k.source in trips && trips[k.source].office == k.office
  }

  /** The issues, the trips, and the error of one action. */
  datatype Outcome = Outcome(board: Issues, trips: TripMap, error: Option<ActionError>)

  function RebuildOutcome(board: Issues, trips: TripMap, profiles: Profiles, rates: Rates, k: IssueKey, now: int): Outcome
    requires k in board
  {
    if !board[k].finding.autoFixable then Outcome(board, trips, Some(Unsupported))
    else if !SourceFound(trips, k) then Outcome(board, trips, Some(SourceGone))
    else
      match Repaired(Hydrated(trips[k.source], rates), profiles, now)
      case Err(AlreadyPaid) => Outcome(board, trips, Some(PaidSnapshot))
      case Err(_) => Outcome(board, trips, Some(Unsupported))
      case Ok(repaired) =>
        var trips' := trips[k.source := trips[k.source].(snapshot := repaired.snapshot)];
        Outcome(Rechecked(board, Shown(trips', profiles, rates)(k.source), k, Resolution("rebuild_payable_snapshot", 0)), trips', None)
  }

  function ActOutcome(board: Issues, trips: TripMap, profiles: Profiles, rates: Rates, office: Id, k: IssueKey, action: Action): Outcome {
    if k !in board || k.office != office then Outcome(board, trips, Some(NotFound))
    else if board[k].status != IssueStatus.Open && action != Recheck then Outcome(board, trips, Some(AlreadyClosed))
    else
      match action
      case Recheck =>
        if !SourceFound(trips, k) then Outcome(board, trips, Some(SourceGone))
        else Outcome(Rechecked(board, Shown(trips, profiles, rates)(k.source), k, Resolution("recheck", 0)), trips, None)
      case Accept => Outcome(board[k := Closed(board[k], Accepted, Resolution("accept_variance", 0))], trips, None)
      case Rebuild(now) => RebuildOutcome(board, trips, profiles, rates, k, now)
  }

  lemma RepairedShowsNothing(trips: TripMap, profiles: Profiles, rates: Rates, id: Id, now: int)
    requires id in trips && Repaired(Hydrated(trips[id], rates), profiles, now).Ok?
    ensures var snapshot := Repaired(Hydrated(trips[id], rates), profiles, now).value.snapshot;
            Shown(trips[id := trips[id].(snapshot := snapshot)], profiles, rates)(id) == []
  {
    var t := Hydrated(trips[id], rates);
    RepairIsFixpoint(t, profiles, now, t.officeCost, t.officeMileage);
    var t' := Repaired(t, profiles, now).value;
    assert t'.(officeCost := t.officeCost, officeMileage := t.officeMileage) == Hydrated(trips[id].(snapshot := t'.snapshot), rates);
  }

  /** A successful rebuild resolves its issue on the spot: the recheck after the write finds the
      trip clean, whatever the issue was about. Paid snapshots are never rewritten. */
  lemma RebuildResolves(board: Issues, trips: TripMap, profiles: Profiles, rates: Rates, k: IssueKey, now: int)
    requires k in board
    ensures var done := RebuildOutcome(board, trips, profiles, rates, k, now);
            if done.error.None?
            then done.board == board[k := Closed(board[k], Resolved, Resolution("rebuild_payable_snapshot", 0))]
            else done.board == board && done.trips == trips
    ensures var done := RebuildOutcome(board, trips, profiles, rates, k, now);
            forall id :: id in trips && trips[id].snapshot.Some? && trips[id].snapshot.value.isPaid ==> id in done.trips && done.trips[id] == trips[id]
  {
    if RebuildOutcome(board, trips, profiles, rates, k, now).error.None? {
      RepairedShowsNothing(trips, profiles, rates, k.source, now);
    }
  }

  /** After the rebuild no scan of any range finds anything on the trip. */
  lemma RebuiltTripNotDetected(board: Issues, trips: TripMap, profiles: Profiles, rates: Rates, k: IssueKey, now: int,
                               office: Id, start: DateKey, end: DateKey, fs: seq<Finding>)
    requires k in board && RebuildOutcome(board, trips, profiles, rates, k, now).error.None?
    requires forall id :: id in trips ==> trips[id].id == id
    requires IsScanOf(fs, RebuildOutcome(board, trips, profiles, rates, k, now).trips, profiles, rates, office, start, end)
    ensures forall i :: 0 <= i < |fs| ==> fs[i].key.source != k.source
  {
    var trips' := RebuildOutcome(board, trips, profiles, rates, k, now).trips;
    RepairedShowsNothing(trips, profiles, rates, k.source, now);
    forall i | 0 <= i < |fs| ensures fs[i].key.source != k.source {
      assert fs[i] in fs;
      var id :| id in MatchingTrips(trips', office, start, end) && fs[i] in Shown(trips', profiles, rates)(id);
      TripFindingsDiffer(Hydrated(trips'[id], rates), profiles);
    }
  }

  class TripIssueDesk {
    var trips: TripMap
    var profiles: Profiles
    var rates: Rates
    const store: IssueStore

    constructor (trips: TripMap, profiles: Profiles, rates: Rates, store: IssueStore)
      ensures this.trips == trips && this.profiles == profiles && this.rates == rates && this.store == store
    {
      this.trips, this.profiles, this.rates, this.store := trips, profiles, rates, store;
    }

    method Detect(id: Id) returns (fs: seq<Finding>)
      requires id in trips
      ensures fs == Shown(trips, profiles, rates)(id)
      ensures trips[id].id == id ==> OwnFindings(fs, id)
    {
      TripFindingsDiffer(Hydrated(trips[id], rates), profiles);
      fs := DetectTripIssues(Hydrated(trips[id], rates), profiles);
    }

    method StoreTrip(id: Id, r: ScanResult, found: seq<Finding>, ghost before: Issues, ghost done: set<Id>, ghost shown: Id -> seq<Finding>)
      returns (r': ScanResult, found': seq<Finding>)
      requires id in trips && trips[id].id == id && id !in done && shown == Shown(trips, profiles, rates)
      requires Stored(store.issues, before, found, done, shown, r)
      modifies store
      ensures Stored(store.issues, before, found', done + {id}, shown, r')
    {
      var detected := Detect(id);
      r' := store.ScanDocument(detected, r, before, found, |done|);
      MoreFindings(found, done, id, shown);
      found' := found + detected;
    }

    method StoreFindings(matching: set<Id>, ghost shown: Id -> seq<Finding>) returns (r: ScanResult, found: seq<Finding>)
      requires forall id :: id in matching ==> id in trips && trips[id].id == id
      requires shown == Shown(trips, profiles, rates)
      modifies store
      ensures Stored(store.issues, old(store.issues), found, matching, shown, r)
    {
      hide Stored, Shown;
      ghost var before := store.issues;
      var rest := matching;
      ghost var done: set<Id> := {};
      r, found := NO_RESULT, [];
      NothingStored(before, shown);
      while rest != {}
        invariant done !! rest && done + rest == matching
        invariant Stored(store.issues, before, found, done, shown, r)
        decreases rest
      {
        var id :| id in rest;
        r, found := StoreTrip(id, r, found, before, done, shown);
        rest, done := rest - {id}, done + {id};
      }
      assert done == matching;
    }

    method ScanTripIssues(office: Id, start: DateKey, end: DateKey) returns (r: ScanResult, ghost fs: seq<Finding>)
      requires forall id :: id in trips ==> trips[id].id == id
      modifies store
      ensures IsScanOf(fs, trips, profiles, rates, office, start, end)
      ensures store.issues == Scan(old(store.issues), office, start, end, fs)
      ensures r == Counts(NO_RESULT, old(store.issues), fs).(
                     scanned := |MatchingTrips(trips, office, start, end)|,
                     autoResolved := |StaleKeys(Upserts(old(store.issues), fs), office, start, end, fs)|)
    {
      var found;
      r, found := StoreFindings(MatchingTrips(trips, office, start, end), Shown(trips, profiles, rates));
      CoveredMatches(found, trips, profiles, rates, office, start, end);
      fs := found;
      var resolved := store.ResolveUndetected(office, start, end, found);
      r := r.(autoResolved := resolved);
    }

    method RebuildTripSnapshot(k: IssueKey, now: int) returns (error: Option<ActionError>)
      requires k in store.issues && store.issues[k].finding.autoFixable
      modifies store, this`trips
      ensures Outcome(store.issues, trips, error) == RebuildOutcome(old(store.issues), old(trips), profiles, rates, k, now)
    {
      if !(k.source in trips && trips[k.source].office == k.office) {
        return Some(SourceGone);
      }
      var t := Hydrated(trips[k.source], rates);
      if t.snapshot.Some? && t.snapshot.value.isPaid {
        return Some(PaidSnapshot);
      }
      if !WorkerValid(t, profiles) {
        return Some(Unsupported);
      }
      var c := CanonicalTripCalculation(t);
      if !c.valid {
        return Some(Unsupported);
      }
      var rate := 1.0;
      if t.snapshot.Some? && t.snapshot.value.rate.Some? && t.snapshot.value.rate.value > 0.0 {
        rate := t.snapshot.value.rate.value;
      }
      var snapshot := PayableSnapshot(Some(c.distance), Some(c.commission), Some(c.petrol), Some(c.cost), Some(c.mileage), Some(rate), false, Some(now));
      trips := trips[k.source := trips[k.source].(snapshot := Some(snapshot))];
      var detected := Detect(k.source);
      store.Recheck(detected, k, Resolution("rebuild_payable_snapshot", 0));
      error := None;
    }

    method ActOnTripIssue(office: Id, k: IssueKey, action: Action) returns (error: Option<ActionError>)
      modifies store, this`trips
      ensures Outcome(store.issues, trips, error) == ActOutcome(old(store.issues), old(trips), profiles, rates, office, k, action)
    {
      if k !in store.issues || k.office != office {
        return Some(NotFound);
      }
      if store.issues[k].status != IssueStatus.Open && action != Recheck {
        return Some(AlreadyClosed);
      }
      match action
      case Recheck =>
        if !(k.source in trips && trips[k.source].office == k.office) {
          return Some(SourceGone);
        }
        var detected := Detect(k.source);
        store.Recheck(detected, k, Resolution("recheck", 0));
        error := None;
      case Accept =>
        store.CloseIssue(k, Accepted, Resolution("accept_variance", 0));
        error := None;
      case Rebuild(now) =>
        if !store.issues[k].finding.autoFixable {
          return Some(Unsupported);
        }
        error := RebuildTripSnapshot(k, now);
    }
  }
}
