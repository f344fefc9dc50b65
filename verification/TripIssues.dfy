/** Completed trips against their payable snapshots (`internal/earnings/trip_issues.go`), and the
    snapshot repair staff can ask for. */
module TripIssues {
  import opened Wrappers
  import opened Dates
  import opened Money
  import opened Ranking
  import opened Ledger
  import opened Sources
  import opened IssueBoard

  /** The canonical payables of a trip; without a distance or rates they are not `valid`. */
  datatype Calculation = Calculation(distance: real, commission: real, petrol: real, cost: real, mileage: real, valid: bool)

  datatype Profiles = Profiles(riders: map<Id, Profile>, beauticians: map<Id, Profile>)

  function AllowanceWorker(t: TripSource): (Option<Id>, WorkerType) {
    if t.driver.Some? then (t.driver, Beautician)
    else if t.selfDrive && t.beautician.Some? then (t.beautician, Beautician)
    else (t.rider, Rider)
  }

  function SnapshotRate(t: TripSource): real {
    if t.snapshot.Some? then Positive(t.snapshot.value.rate, 1.0) else 1.0
  }

  function CanonicalCost(t: TripSource): real {
    PetrolCost(t, if t.snapshot.Some? then t.snapshot.value.cost else None)
  }

  function CanonicalMileage(t: TripSource): real {
    Mileage(t, if t.snapshot.Some? then t.snapshot.value.mileage else None)
  }

  function Canonical(t: TripSource): Calculation {
    var distance := Distance(t);
    if distance <= 0.0 then Calculation(0.0, 0.0, 0.0, 0.0, 0.0, false)
    else
      var commission, cost, mileage := Commission(t, SnapshotRate(t)), CanonicalCost(t), CanonicalMileage(t);
      if cost <= 0.0 || mileage <= 0.0 then Calculation(distance, commission, 0.0, cost, mileage, false)
      else Calculation(distance, commission, PetrolFor(distance, mileage, cost), cost, mileage, true)
  }

  method CanonicalTripCalculation(t: TripSource) returns (c: Calculation)
    ensures c == Canonical(t)
  {
    var distance := t.tripKm;
    if !t.manualDistance && t.autoKm > 0.0 {
      distance := t.autoKm + t.extraKm;
      if t.twoWay {
        distance := t.autoKm * 2.0 + t.extraKm;
      }
    }
    if distance <= 0.0 {
      return Calculation(0.0, 0.0, 0.0, 0.0, 0.0, false);
    }
    var rate := 1.0;
    if t.snapshot.Some? && t.snapshot.value.rate.Some? && t.snapshot.value.rate.value > 0.0 {
      rate := t.snapshot.value.rate.value;
    }
    var commission := 0.0;
    if t.commissionable {
      commission := PerKilometre(distance, rate);
      if t.commissionAmount > 0.0 {
        commission := RoundSourceMoney(t.commissionAmount);
      }
    }
    var cost, mileage := t.fareCost, t.fareMileage;
    if t.snapshot.Some? {
      if t.snapshot.value.cost.Some? && t.snapshot.value.cost.value > 0.0 {
        cost := t.snapshot.value.cost.value;
      }
      if t.snapshot.value.mileage.Some? && t.snapshot.value.mileage.value > 0.0 {
        mileage := t.snapshot.value.mileage.value;
      }
    }
    if cost <= 0.0 {
      cost := t.officeCost;
    }
    if mileage <= 0.0 {
      mileage := t.officeMileage;
    }
    if cost <= 0.0 || mileage <= 0.0 {
      return Calculation(distance, commission, 0.0, cost, mileage, false);
    }
    c := Calculation(distance, commission, PetrolFor(distance, mileage, cost), cost, mileage, true);
  }

  // ----- detection

  /** The allowance worker's profile in the trip's office. */
  function WorkerProfile(t: TripSource, profiles: Profiles): Option<Profile> {
    var (id, workerType) := AllowanceWorker(t);
    var collection := if workerType == Beautician then profiles.beauticians else profiles.riders;
    if id.Some? && id.value != NIL_ID && id.value in collection && collection[id.value].office == t.office
    then Some(collection[id.value]) else None
  }

  predicate WorkerValid(t: TripSource, profiles: Profiles) {
    WorkerProfile(t, profiles).Some? && !WorkerProfile(t, profiles).value.deleted
  }

  function TripFinding(t: TripSource, kind: IssueType, expected: int, actual: int, autoFixable: bool): Finding {
    Finding(IssueKey(t.office, t.id, kind), t.date, expected, actual, autoFixable)
  }

  function WorkerFindings(t: TripSource, profiles: Profiles): seq<Finding> {
    if WorkerProfile(t, profiles).None? then [TripFinding(t, MissingWorker, 0, 0, false)]
    else if WorkerProfile(t, profiles).value.deleted then [TripFinding(t, DeletedWorker, 0, 0, false)]
    else []
  }

  predicate DistanceOff(stored: Option<real>, canonical: real) {
    stored.None? || stored.value - canonical > 0.001 || canonical - stored.value > 0.001
  }

  /** A missing or negative stored amount reads as 0 paise. */
  function StoredPaise(stored: Option<real>): int {
    if stored.Some? && stored.value >= 0.0 then MoneyToPaise(stored.value) else 0
  }

  predicate PayableOff(stored: Option<real>, expected: int) {
    stored.None? || StoredPaise(stored) != expected
  }

  function SnapshotFindings(t: TripSource, c: Calculation, workerValid: bool): seq<Finding>
    requires t.snapshot.Some?
  {
    var s := t.snapshot.value;
    var fixable := !s.isPaid && workerValid;
    var petrol, commission := MoneyToPaise(c.petrol), MoneyToPaise(c.commission);
    (if DistanceOff(s.distance, c.distance) then [TripFinding(t, DistanceMismatch, 0, 0, fixable)] else [])
    + (if PayableOff(s.petrol, petrol) then [TripFinding(t, PetrolMismatch, petrol, StoredPaise(s.petrol), fixable)] else [])
    + (if PayableOff(s.commission, commission) then [TripFinding(t, CommissionMismatch, commission, StoredPaise(s.commission), fixable)] else [])
  }

  function DetectTrip(t: TripSource, profiles: Profiles): seq<Finding> {
    var c := Canonical(t);
    WorkerFindings(t, profiles)
    + (if !c.valid then [TripFinding(t, InvalidConfig, 0, 0, false)]
       else if t.snapshot.None? then [TripFinding(t, MissingSnapshot, MoneyToPaise(c.commission) + MoneyToPaise(c.petrol), 0, WorkerValid(t, profiles))]
       else SnapshotFindings(t, c, WorkerValid(t, profiles)))
  }

  method CheckWorker(t: TripSource, profiles: Profiles) returns (fs: seq<Finding>, workerValid: bool)
    ensures fs == WorkerFindings(t, profiles) && workerValid == WorkerValid(t, profiles)
  {
    var (id, workerType) := AllowanceWorker(t);
    fs, workerValid := [], false;
    if id.None? || id.value == NIL_ID {
      return [TripFinding(t, MissingWorker, 0, 0, false)], false;
    }
    var collection := profiles.riders;
    if workerType == Beautician {
      collection := profiles.beauticians;
    }
    if !(id.value in collection && collection[id.value].office == t.office) {
      fs := [TripFinding(t, MissingWorker, 0, 0, false)];
    } else if collection[id.value].deleted {
      fs := [TripFinding(t, DeletedWorker, 0, 0, false)];
    } else {
      workerValid := true;
    }
  }

  method DetectTripIssues(t: TripSource, profiles: Profiles) returns (fs: seq<Finding>)
    ensures fs == DetectTrip(t, profiles)
  {
    var workerValid;
    fs, workerValid := CheckWorker(t, profiles);
    var c := CanonicalTripCalculation(t);
    if !c.valid {
      return fs + [TripFinding(t, InvalidConfig, 0, 0, false)];
    }
    var commission, petrol := MoneyToPaise(c.commission), MoneyToPaise(c.petrol);
    if t.snapshot.None? {
      return fs + [TripFinding(t, MissingSnapshot, commission + petrol, 0, workerValid)];
    }
    var s := t.snapshot.value;
    var autoFixable := !s.isPaid && workerValid;
    ghost var worker := fs;
    if DistanceOff(s.distance, c.distance) {
      fs := fs + [TripFinding(t, DistanceMismatch, 0, 0, autoFixable)];
    }
    var actualPetrol := StoredPaise(s.petrol);
    if s.petrol.None? || actualPetrol != petrol {
      fs := fs + [TripFinding(t, PetrolMismatch, petrol, actualPetrol, autoFixable)];
    }
    var actualCommission := StoredPaise(s.commission);
    if s.commission.None? || actualCommission != commission {
      fs := fs + [TripFinding(t, CommissionMismatch, commission, actualCommission, autoFixable)];
    }
    assert fs == worker + SnapshotFindings(t, c, workerValid);
  }

  // ----- repair

  datatype RepairError = AlreadyPaid | NoActiveWorker | NotCalculable

  /** The unpaid snapshot a rebuild stores, captured at `now`. */
  function CanonicalSnapshot(t: TripSource, now: int): PayableSnapshot {
    var c := Canonical(t);
    PayableSnapshot(Some(c.distance), Some(c.commission), Some(c.petrol), Some(c.cost), Some(c.mileage), Some(SnapshotRate(t)), false, Some(now))
  }

  function Repaired(t: TripSource, profiles: Profiles, now: int): Result<TripSource, RepairError> {
    if t.snapshot.Some? && t.snapshot.value.isPaid then Err(AlreadyPaid)
    else if !WorkerValid(t, profiles) then Err(NoActiveWorker)
    else if !Canonical(t).valid then Err(NotCalculable)
    else Ok(t.(snapshot := Some(CanonicalSnapshot(t, now))))
  }

  lemma CanonicalIsMoney(t: TripSource)
    requires Canonical(t).valid
    ensures Canonical(t).petrol >= 0.0 && Canonical(t).commission >= 0.0
    ensures Canonical(t).cost > 0.0 && Canonical(t).mileage > 0.0 && Canonical(t).distance > 0.0
  {
    var c := Canonical(t);
    PetrolIsMoney(c.distance, c.mileage, c.cost);
    CommissionIsMoney(t, SnapshotRate(t));
  }

  lemma RoundedIsMoney(value: real)
    requires value >= 0.0
    ensures RoundSourceMoney(value) >= 0.0
  {
    assert value * 100.0 >= 0.0;
  }

  lemma PetrolIsMoney(distance: real, mileage: real, cost: real)
    requires distance > 0.0 && mileage > 0.0 && cost > 0.0
    ensures PetrolFor(distance, mileage, cost) >= 0.0
  {
    assert distance / mileage * cost >= 0.0;
    RoundedIsMoney(distance / mileage * cost);
  }

  lemma CommissionIsMoney(t: TripSource, rate: real)
    requires Distance(t) > 0.0 && rate > 0.0
    ensures Commission(t, rate) >= 0.0
  {
    if t.commissionable {
      if t.commissionAmount > 0.0 {
        RoundedIsMoney(t.commissionAmount);
      } else {
        assert Distance(t) * rate >= 0.0;
        RoundedIsMoney(Distance(t) * rate);
      }
    }
  }

  /** The stored inputs are the ones the calculation used, so it comes out the same; the office's
      rates no longer matter to it. */
  lemma RepairKeepsCalculation(t: TripSource, now: int, cost: real, mileage: real)
    requires Canonical(t).valid
    ensures Canonical(t.(snapshot := Some(CanonicalSnapshot(t, now)), officeCost := cost, officeMileage := mileage)) == Canonical(t)
  {
    CanonicalIsMoney(t);
  }

  /** A repaired trip shows no issue, whatever rates the office has by then. */
  lemma RepairIsFixpoint(t: TripSource, profiles: Profiles, now: int, cost: real, mileage: real)
    requires Repaired(t, profiles, now).Ok?
    ensures DetectTrip(Repaired(t, profiles, now).value.(officeCost := cost, officeMileage := mileage), profiles) == []
  {
    var t' := Repaired(t, profiles, now).value.(officeCost := cost, officeMileage := mileage);
    RepairKeepsCalculation(t, now, cost, mileage);
    CanonicalIsMoney(t);
    assert WorkerProfile(t', profiles) == WorkerProfile(t, profiles);
    assert SnapshotFindings(t', Canonical(t), WorkerValid(t', profiles)) == [];
  }

  /** Repairing a repaired trip stores the same payables again. */
  lemma RepairTwice(t: TripSource, profiles: Profiles, now: int, later: int)
    requires Repaired(t, profiles, now).Ok?
    ensures Repaired(Repaired(t, profiles, now).value, profiles, later)
         == Ok(Repaired(t, profiles, now).value.(snapshot := Some(CanonicalSnapshot(t, now).(capturedAt := Some(later)))))
  {
    var t' := Repaired(t, profiles, now).value;
    RepairKeepsCalculation(t, now, t.officeCost, t.officeMileage);
    CanonicalIsMoney(t);
    assert t' == t.(snapshot := Some(CanonicalSnapshot(t, now)), officeCost := t.officeCost, officeMileage := t.officeMileage);
    assert WorkerProfile(t', profiles) == WorkerProfile(t, profiles);
  }

  /** For an unpaid snapshot the ledger's calculation and the issue scan's agree. */
  lemma UnpaidPayablesAreCanonical(t: TripSource)
    requires t.snapshot.Some? && !t.snapshot.value.isPaid && Canonical(t).valid
    ensures EffectivePayables(t) == (Some(Canonical(t).commission), Some(Canonical(t).petrol))
  {
  }

  /** Every calculator pays a repaired trip exactly what its snapshot stores, whichever office
      rates its loader filled in. */
  lemma RepairedTripPaysItsSnapshot(t: TripSource, profiles: Profiles, now: int, cost: real, mileage: real)
    requires Repaired(t, profiles, now).Ok?
    ensures var t' := Repaired(t, profiles, now).value;
            EffectivePayables(t'.(officeCost := cost, officeMileage := mileage)) == (t'.snapshot.value.commission, t'.snapshot.value.petrol)
  {
    var t' := Repaired(t, profiles, now).value.(officeCost := cost, officeMileage := mileage);
    RepairKeepsCalculation(t, now, cost, mileage);
    UnpaidPayablesAreCanonical(t');
  }
}
