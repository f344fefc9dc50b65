/** What a trip pays, stores and is flagged for, on the document's own fields: its distances, its
    rates in the order they are tried, and the amounts they come to. */
module TripLaws {
  import opened Wrappers
  import opened Dates
  import opened Money
  import opened Ranking
  import opened Ledger
  import opened Sources
  import opened SourcePuts
  import opened Plans
  import opened ControlPlane
  import opened RebuildPlan
  import opened RebuildFacts
  import opened EventPlan
  import opened TripConvergence
  import opened IssueBoard
  import opened TripIssues

  // ----- the rule

  /** The distance that is paid: as entered by hand or without an automatic one, else the automatic
      one, doubled for a two-way trip, and the extra kilometres. */
  predicate DistanceIs(t: TripSource, d: real) {
    && (t.manualDistance || t.autoKm <= 0.0 ==> d == t.tripKm)
    && (!t.manualDistance && t.autoKm > 0.0 && !t.twoWay ==> d == t.autoKm + t.extraKm)
    && (!t.manualDistance && t.autoKm > 0.0 && t.twoWay ==> d == t.autoKm + t.autoKm + t.extraKm)
  }

  /** A positive stored value wins over a positive fare value, and that over the office's. */
  predicate FallsBack(value: real, stored: Option<real>, fare: real, office: real) {
    && (stored.Some? && stored.value > 0.0 ==> value == stored.value)
    && ((stored.None? || stored.value <= 0.0) && fare > 0.0 ==> value == fare)
    && ((stored.None? || stored.value <= 0.0) && fare <= 0.0 ==> value == office)
  }

  predicate RateIs(rate: real, stored: Option<real>) {
    if stored.Some? && stored.value > 0.0 then rate == stored.value else rate == 1.0
  }

  /** Rounded to whole paise, halves upwards. */
  predicate NearestMoney(money: real, exact: real) {
    && (money * 100.0).Floor as real == money * 100.0
    && money - 0.005 <= exact < money + 0.005
  }

  /** Nothing when not commissionable; the agreed amount if there is one; else by the kilometre. */
  predicate CommissionIs(t: TripSource, d: real, rate: real, commission: real) {
    && (!t.commissionable ==> commission == 0.0)
    && (t.commissionable && t.commissionAmount > 0.0 ==> NearestMoney(commission, t.commissionAmount))
    && (t.commissionable && t.commissionAmount <= 0.0 ==> NearestMoney(commission, d * rate))
  }

  /** The fuel for the distance at the mileage, at its price per litre. */
  predicate PetrolIs(d: real, mileage: real, cost: real, petrol: real)
    requires mileage > 0.0
  {
    NearestMoney(petrol, d / mileage * cost)
  }

  /** The figures a trip is priced with. */
  predicate Figures(t: TripSource, d: real, rate: real, cost: real, mileage: real) {
    && DistanceIs(t, d)
    && RateIs(rate, if t.snapshot.Some? then t.snapshot.value.rate else None)
    && FallsBack(cost, if t.snapshot.Some? then t.snapshot.value.cost else None, t.fareCost, t.officeCost)
    && FallsBack(mileage, if t.snapshot.Some? then t.snapshot.value.mileage else None, t.fareMileage, t.officeMileage)
  }

  lemma FiguresExist(t: TripSource) returns (d: real, rate: real, cost: real, mileage: real)
    ensures Figures(t, d, rate, cost, mileage)
  {
    d, rate, cost, mileage := Distance(t), SnapshotRate(t), CanonicalCost(t), CanonicalMileage(t);
  }

  // ----- the calculation

  lemma RoundingIsNearest(exact: real)
    requires exact >= 0.0
    ensures NearestMoney(RoundSourceMoney(exact), exact) && NearestPaise(MoneyToPaise(exact), exact)
  {
    PaiseAreNearest(exact);
    var p := MoneyToPaise(exact);
    assert RoundSourceMoney(exact) * 100.0 == p as real;
  }

  lemma FiguresAre(t: TripSource, d: real, rate: real, cost: real, mileage: real)
    requires Figures(t, d, rate, cost, mileage)
    ensures Distance(t) == d && SnapshotRate(t) == rate && CanonicalCost(t) == cost && CanonicalMileage(t) == mileage
    ensures t.snapshot.Some? ==> PetrolCost(t, t.snapshot.value.cost) == cost && Mileage(t, t.snapshot.value.mileage) == mileage
                                 && Positive(t.snapshot.value.rate, 1.0) == rate
  {
  }

  lemma CommissionHolds(t: TripSource, rate: real)
    requires Distance(t) > 0.0 && rate > 0.0
    ensures CommissionIs(t, Distance(t), rate, Commission(t, rate))
  {
    if t.commissionable {
      if t.commissionAmount > 0.0 {
        RoundingIsNearest(t.commissionAmount);
      } else {
        assert Distance(t) * rate >= 0.0;
        RoundingIsNearest(Distance(t) * rate);
      }
    }
  }

  lemma PetrolHolds(d: real, mileage: real, cost: real)
    requires d > 0.0 && mileage > 0.0 && cost > 0.0
    ensures PetrolIs(d, mileage, cost, PetrolFor(d, mileage, cost))
  {
    assert d / mileage * cost >= 0.0;
    RoundingIsNearest(d / mileage * cost);
  }

  /** What a trip pays: an unpaid snapshot by the rule, falling back on what is stored where a
      figure is missing; of a paid one, what is stored. */
  lemma PayablesFollow(t: TripSource, d: real, rate: real, cost: real, mileage: real)
    requires t.snapshot.Some? && Figures(t, d, rate, cost, mileage)
    ensures var (commission, petrol) := EffectivePayables(t);
            var s := t.snapshot.value;
            && (d <= 0.0 ==> commission == s.commission && petrol == s.petrol)
            && (d > 0.0 && !s.isPaid ==> commission.Some? && CommissionIs(t, d, rate, commission.value))
            && (d > 0.0 && !s.isPaid && cost > 0.0 && mileage > 0.0 ==> petrol.Some? && PetrolIs(d, mileage, cost, petrol.value))
            && (cost <= 0.0 || mileage <= 0.0 ==> petrol == s.petrol)
            && (s.isPaid && s.petrol.Some? ==> petrol == s.petrol)
            && (s.isPaid && s.commission.Some? && (s.petrol.Some? || (cost > 0.0 && mileage > 0.0)) ==> commission == s.commission)
            && (s.isPaid && s.petrol.None? && d > 0.0 && cost > 0.0 && mileage > 0.0 ==> petrol.Some? && PetrolIs(d, mileage, cost, petrol.value))
            && (s.isPaid && s.commission.None? && d > 0.0 ==> commission.Some? && CommissionIs(t, d, rate, commission.value))
  {
    FiguresAre(t, d, rate, cost, mileage);
    if d > 0.0 {
      CommissionHolds(t, rate);
      if cost > 0.0 && mileage > 0.0 {
        PetrolHolds(d, mileage, cost);
      }
    }
    hide Commission, PetrolFor, CommissionIs, PetrolIs, Distance, PetrolCost, Mileage, Positive;
  }

  /** The canonical calculation is valid exactly when distance, price and mileage are positive, and
      then it is the rule's. */
  lemma CanonicalFollows(t: TripSource, d: real, rate: real, cost: real, mileage: real)
    requires Figures(t, d, rate, cost, mileage)
    ensures var c := Canonical(t);
            && (c.valid <==> d > 0.0 && cost > 0.0 && mileage > 0.0)
            && (c.valid ==> c.distance == d && c.cost == cost && c.mileage == mileage
                            && CommissionIs(t, d, rate, c.commission) && PetrolIs(d, mileage, cost, c.petrol))
  {
    FiguresAre(t, d, rate, cost, mileage);
    if d > 0.0 {
      CommissionHolds(t, rate);
      if cost > 0.0 && mileage > 0.0 {
        PetrolHolds(d, mileage, cost);
      }
    }
  }

  // ----- the workers

  /** Who is paid: the driving beautician, else the beautician driving herself, else the rider. */
  predicate PaidWorker(t: TripSource, w: Option<Id>, workerType: WorkerType) {
    && (t.driver.Some? ==> w == t.driver && workerType == Beautician)
    && (t.driver.None? && t.selfDrive && t.beautician.Some? ==> w == t.beautician && workerType == Beautician)
    && (t.driver.None? && !(t.selfDrive && t.beautician.Some?) ==> w == t.rider && workerType == Rider)
  }

  /** The worker's profile in the trip's office. */
  ghost predicate ProfileIs(t: TripSource, profiles: Profiles, p: Option<Profile>) {
    forall w: Option<Id>, workerType: WorkerType :: PaidWorker(t, w, workerType) ==>
      var staff := if workerType == Beautician then profiles.beauticians else profiles.riders;
      if w.Some? && w.value != 0 && w.value in staff && staff[w.value].office == t.office
      then p == Some(staff[w.value]) else p == None
  }

  lemma WorkersAre(t: TripSource, profiles: Profiles, p: Option<Profile>)
    requires ProfileIs(t, profiles, p)
    ensures WorkerProfile(t, profiles) == p && (WorkerValid(t, profiles) <==> p.Some? && !p.value.deleted)
    ensures PaidWorker(t, AllowanceWorker(t).0, AllowanceWorker(t).1)
    ensures TripWorker(t) == if AllowanceWorker(t).0.Some? then Some((AllowanceWorker(t).0.value, AllowanceWorker(t).1)) else None
  {
    assert PaidWorker(t, AllowanceWorker(t).0, AllowanceWorker(t).1);
  }

  // ----- what is flagged

  ghost predicate Flags(fs: seq<Finding>, kind: IssueType) {
    exists f :: f in fs && f.key.issueType == kind
  }

  predicate FarFrom(stored: Option<real>, d: real) {
    stored.None? || stored.value > d + 0.001 || stored.value < d - 0.001
  }

  /** The stored payable is not the exact amount in whole paise; a negative one counts as nothing. */
  ghost predicate PayableDiffers(stored: Option<real>, exact: real) {
    stored.None? || (if stored.value < 0.0 then !NearestPaise(0, exact) else forall p: int :: NearestPaise(p, stored.value) ==> !NearestPaise(p, exact))
  }

  /** A detected trip commission is compared exactly like the amount the rule rounds. */
  function CommissionBase(t: TripSource, d: real, rate: real): real {
    if !t.commissionable then 0.0 else if t.commissionAmount > 0.0 then t.commissionAmount else d * rate
  }

  lemma NearestIsUnique(p: int, q: int, rupees: real)
    requires NearestPaise(p, rupees) && NearestPaise(q, rupees)
    ensures p == q
  {
  }

  lemma DiffersIs(stored: Option<real>, exact: real)
    requires exact >= 0.0
    ensures PayableOff(stored, MoneyToPaise(exact)) <==> PayableDiffers(stored, exact)
  {
    hide MoneyToPaise, NearestPaise;
    PaiseAreNearest(exact);
    var e := MoneyToPaise(exact);
    if stored.Some? && stored.value >= 0.0 {
      PaiseAreNearest(stored.value);
      forall p: int | NearestPaise(p, stored.value) ensures p == MoneyToPaise(stored.value) {
        NearestIsUnique(p, MoneyToPaise(stored.value), stored.value);
      }
      if NearestPaise(MoneyToPaise(stored.value), exact) {
        NearestIsUnique(MoneyToPaise(stored.value), e, exact);
      }
    } else if NearestPaise(0, exact) {
      NearestIsUnique(0, e, exact);
    }
  }

  lemma CommissionPaise(t: TripSource, rate: real)
    requires Distance(t) > 0.0 && rate > 0.0
    ensures CommissionBase(t, Distance(t), rate) >= 0.0
    ensures MoneyToPaise(Commission(t, rate)) == MoneyToPaise(CommissionBase(t, Distance(t), rate))
  {
    assert Distance(t) * rate >= 0.0;
    RoundedMoneyKeepsPaise(t.commissionAmount);
    RoundedMoneyKeepsPaise(Distance(t) * rate);
    assert MoneyToPaise(0.0) == 0;
  }

  /** What a scan finds on a trip, kind by kind, and that staff may repair it automatically exactly
      while it is unpaid and its worker active. */
  lemma TripFlagsIff(t: TripSource, profiles: Profiles, p: Option<Profile>, d: real, rate: real, cost: real, mileage: real)
    requires Figures(t, d, rate, cost, mileage) && ProfileIs(t, profiles, p)
    ensures var fs, priced := DetectTrip(t, profiles), d > 0.0 && cost > 0.0 && mileage > 0.0;
            && (Flags(fs, MissingWorker) <==> p.None?)
            && (Flags(fs, DeletedWorker) <==> p.Some? && p.value.deleted)
            && (Flags(fs, InvalidConfig) <==> !priced)
            && (Flags(fs, MissingSnapshot) <==> priced && t.snapshot.None?)
            && (Flags(fs, DistanceMismatch) <==> priced && t.snapshot.Some? && FarFrom(t.snapshot.value.distance, d))
            && (Flags(fs, PetrolMismatch) <==> priced && t.snapshot.Some? && PayableDiffers(t.snapshot.value.petrol, d / mileage * cost))
            && (Flags(fs, CommissionMismatch) <==> priced && t.snapshot.Some? && PayableDiffers(t.snapshot.value.commission, CommissionBase(t, d, rate)))
            && (forall f :: f in fs ==> f.key.office == t.office && f.key.source == t.id && f.date == t.date)
  {
    hide Distance, Commission, PetrolFor, PayableDiffers, PayableOff, WorkerProfile, MoneyToPaise;
    FiguresAre(t, d, rate, cost, mileage);
    WorkersAre(t, profiles, p);
    FlagsOfParts(t, profiles);
    if d > 0.0 && cost > 0.0 && mileage > 0.0 && t.snapshot.Some? {
      PayablesDiffer(t, d, rate, cost, mileage);
    }
  }

  lemma PayablesDiffer(t: TripSource, d: real, rate: real, cost: real, mileage: real)
    requires Figures(t, d, rate, cost, mileage) && d > 0.0 && cost > 0.0 && mileage > 0.0 && t.snapshot.Some?
    ensures PayableOff(t.snapshot.value.petrol, MoneyToPaise(PetrolFor(d, mileage, cost))) <==> PayableDiffers(t.snapshot.value.petrol, d / mileage * cost)
    ensures PayableOff(t.snapshot.value.commission, MoneyToPaise(Commission(t, rate))) <==> PayableDiffers(t.snapshot.value.commission, CommissionBase(t, d, rate))
  {
    FiguresAre(t, d, rate, cost, mileage);
    assert d / mileage * cost >= 0.0;
    RoundedMoneyKeepsPaise(d / mileage * cost);
    DiffersIs(t.snapshot.value.petrol, d / mileage * cost);
    CommissionPaise(t, rate);
    DiffersIs(t.snapshot.value.commission, CommissionBase(t, d, rate));
  }

  /** The findings by kind, in terms of the calculation. */
  lemma FlagsOfParts(t: TripSource, profiles: Profiles)
    ensures var fs, c, priced := DetectTrip(t, profiles), Canonical(t), Canonical(t).valid;
            && (Flags(fs, MissingWorker) <==> WorkerProfile(t, profiles).None?)
            && (Flags(fs, DeletedWorker) <==> WorkerProfile(t, profiles).Some? && WorkerProfile(t, profiles).value.deleted)
            && (Flags(fs, InvalidConfig) <==> !priced)
            && (Flags(fs, MissingSnapshot) <==> priced && t.snapshot.None?)
            && (Flags(fs, DistanceMismatch) <==> priced && t.snapshot.Some? && DistanceOff(t.snapshot.value.distance, c.distance))
            && (Flags(fs, PetrolMismatch) <==> priced && t.snapshot.Some? && PayableOff(t.snapshot.value.petrol, MoneyToPaise(c.petrol)))
            && (Flags(fs, CommissionMismatch) <==> priced && t.snapshot.Some? && PayableOff(t.snapshot.value.commission, MoneyToPaise(c.commission)))
            && (forall f :: f in fs ==> f.key.office == t.office && f.key.source == t.id && f.date == t.date)
  {
    hide Canonical, WorkerProfile, MoneyToPaise, PayableOff, DistanceOff, StoredPaise, Flags, WorkerFindings, SnapshotFindings, WorkerValid;
    var c, ws := Canonical(t), WorkerFindings(t, profiles);
    WorkerFlags(t, profiles);
    forall kind: IssueType, x: int, y: int, z: bool ensures forall k: IssueType :: Flags([TripFinding(t, kind, x, y, z)], k) <==> k == kind {
      OneFlag([TripFinding(t, kind, x, y, z)]);
    }
    if !c.valid {
      FlagsConcat(ws, [TripFinding(t, InvalidConfig, 0, 0, false)]);
    } else if t.snapshot.None? {
      FlagsConcat(ws, [TripFinding(t, MissingSnapshot, MoneyToPaise(c.commission) + MoneyToPaise(c.petrol), 0, WorkerValid(t, profiles))]);
    } else {
      FlagsConcat(ws, SnapshotFindings(t, c, WorkerValid(t, profiles)));
      SnapshotFlags(t, c, WorkerValid(t, profiles));
    }
  }

  lemma WorkerFlags(t: TripSource, profiles: Profiles)
    ensures var ws, p := WorkerFindings(t, profiles), WorkerProfile(t, profiles);
            && (forall k: IssueType :: Flags(ws, k) <==> (k == MissingWorker && p.None?) || (k == DeletedWorker && p.Some? && p.value.deleted))
            && (forall f :: f in ws ==> f.key.office == t.office && f.key.source == t.id && f.date == t.date)
  {
    hide WorkerProfile;
    OneFlag(WorkerFindings(t, profiles));
  }

  lemma FlagsConcat(a: seq<Finding>, b: seq<Finding>)
    ensures forall k: IssueType :: Flags(a + b, k) <==> Flags(a, k) || Flags(b, k)
  {
    forall k: IssueType ensures Flags(a + b, k) <==> Flags(a, k) || Flags(b, k) {
      if f :| f in a && f.key.issueType == k { assert f in a + b; }
      if f :| f in b && f.key.issueType == k { assert f in a + b; }
    }
  }

  lemma SnapshotFlags(t: TripSource, c: Calculation, workerValid: bool)
    requires t.snapshot.Some?
    ensures var fs, s := SnapshotFindings(t, c, workerValid), t.snapshot.value;
            && (Flags(fs, DistanceMismatch) <==> DistanceOff(s.distance, c.distance))
            && (Flags(fs, PetrolMismatch) <==> PayableOff(s.petrol, MoneyToPaise(c.petrol)))
            && (Flags(fs, CommissionMismatch) <==> PayableOff(s.commission, MoneyToPaise(c.commission)))
            && (forall k: IssueType :: Flags(fs, k) ==> k == DistanceMismatch || k == PetrolMismatch || k == CommissionMismatch)
            && (forall f :: f in fs ==> f.key.office == t.office && f.key.source == t.id && f.date == t.date)
  {
    hide MoneyToPaise, PayableOff, DistanceOff, StoredPaise;
    var s, fixable := t.snapshot.value, !t.snapshot.value.isPaid && workerValid;
    var petrol, commission := MoneyToPaise(c.petrol), MoneyToPaise(c.commission);
    var x := if DistanceOff(s.distance, c.distance) then [TripFinding(t, DistanceMismatch, 0, 0, fixable)] else [];
    var y := if PayableOff(s.petrol, petrol) then [TripFinding(t, PetrolMismatch, petrol, StoredPaise(s.petrol), fixable)] else [];
    var z := if PayableOff(s.commission, commission) then [TripFinding(t, CommissionMismatch, commission, StoredPaise(s.commission), fixable)] else [];
    assert SnapshotFindings(t, c, workerValid) == x + y + z;
    FlagsConcat(x, y);
    FlagsConcat(x + y, z);
    OneFlag(x);
    OneFlag(y);
    OneFlag(z);
  }

  lemma OneFlag(fs: seq<Finding>)
    requires |fs| <= 1
    ensures forall k: IssueType :: Flags(fs, k) <==> |fs| == 1 && fs[0].key.issueType == k
  {
    forall k: IssueType ensures Flags(fs, k) <==> |fs| == 1 && fs[0].key.issueType == k {
      if |fs| == 1 { assert fs[0] in fs; }
    }
  }

  /** The amount a snapshot stores, as the scan reads it. */
  predicate ReadsAs(paise: int, stored: Option<real>) {
    if stored.Some? && stored.value >= 0.0 then NearestPaise(paise, stored.value) else paise == 0
  }

  /** What the findings say: the expected and the stored amount, and whether staff may repair it
      automatically, which they may exactly while it is unpaid and its worker active. */
  lemma TripFindingsSay(t: TripSource, profiles: Profiles, p: Option<Profile>, d: real, rate: real, cost: real, mileage: real, f: Finding)
    requires Figures(t, d, rate, cost, mileage) && ProfileIs(t, profiles, p) && f in DetectTrip(t, profiles)
    ensures f.key.issueType == PetrolMismatch ==>
              mileage > 0.0 && t.snapshot.Some? && NearestPaise(f.expected, d / mileage * cost) && ReadsAs(f.actual, t.snapshot.value.petrol)
    ensures f.key.issueType == CommissionMismatch ==>
              t.snapshot.Some? && NearestPaise(f.expected, CommissionBase(t, d, rate)) && ReadsAs(f.actual, t.snapshot.value.commission)
    ensures f.key.issueType == MissingSnapshot ==>
              mileage > 0.0 && f.actual == 0
              && exists a :: NearestPaise(a, CommissionBase(t, d, rate)) && NearestPaise(f.expected - a, d / mileage * cost)
    ensures f.autoFixable <==> (t.snapshot.Some? ==> !t.snapshot.value.isPaid) && p.Some? && !p.value.deleted
                               && (f.key.issueType == DistanceMismatch || f.key.issueType == PetrolMismatch
                                   || f.key.issueType == CommissionMismatch || f.key.issueType == MissingSnapshot)
  {
    hide Distance, Commission, PetrolFor, WorkerProfile, MoneyToPaise, DistanceOff, PayableOff;
    FiguresAre(t, d, rate, cost, mileage);
    WorkersAre(t, profiles, p);
    if d > 0.0 && cost > 0.0 && mileage > 0.0 {
      ExactPaise(t, d, rate, cost, mileage);
      if t.snapshot.Some? {
        StoredReads(t.snapshot.value.petrol);
        StoredReads(t.snapshot.value.commission);
      }
    }
  }

  lemma StoredReads(stored: Option<real>)
    ensures ReadsAs(StoredPaise(stored), stored)
  {
    if stored.Some? { PaiseAreNearest(stored.value); }
  }

  lemma ExactPaise(t: TripSource, d: real, rate: real, cost: real, mileage: real)
    requires Figures(t, d, rate, cost, mileage) && d > 0.0 && cost > 0.0 && mileage > 0.0
    ensures NearestPaise(MoneyToPaise(PetrolFor(d, mileage, cost)), d / mileage * cost)
    ensures NearestPaise(MoneyToPaise(Commission(t, rate)), CommissionBase(t, d, rate))
  {
    FiguresAre(t, d, rate, cost, mileage);
    assert d / mileage * cost >= 0.0;
    RoundedMoneyKeepsPaise(d / mileage * cost);
    PaiseAreNearest(d / mileage * cost);
    CommissionPaise(t, rate);
    PaiseAreNearest(CommissionBase(t, d, rate));
  }

  // ----- the repair

  /** A repair succeeds exactly for an unpaid trip with an active worker and positive figures, and
      stores those figures and what the rule makes of them; nothing else of the trip changes. */
  lemma RepairStores(t: TripSource, profiles: Profiles, p: Option<Profile>, now: int, d: real, rate: real, cost: real, mileage: real)
    requires Figures(t, d, rate, cost, mileage) && ProfileIs(t, profiles, p)
    ensures Repaired(t, profiles, now).Ok? <==>
              (t.snapshot.Some? ==> !t.snapshot.value.isPaid) && p.Some? && !p.value.deleted && d > 0.0 && cost > 0.0 && mileage > 0.0
    ensures Repaired(t, profiles, now).Ok? ==>
              var t' := Repaired(t, profiles, now).value;
              && mileage > 0.0 && t'.snapshot.Some? && t'.(snapshot := t.snapshot) == t
              && var s := t'.snapshot.value;
                 && s.distance == Some(d) && s.cost == Some(cost) && s.mileage == Some(mileage) && s.rate == Some(rate)
                 && s.commission.Some? && CommissionIs(t, d, rate, s.commission.value)
                 && s.petrol.Some? && PetrolIs(d, mileage, cost, s.petrol.value)
                 && !s.isPaid && s.capturedAt == Some(now)
  {
    hide CommissionIs, PetrolIs, Canonical, WorkerProfile, Figures;
    CanonicalFollows(t, d, rate, cost, mileage);
    RateOf(t, d, rate, cost, mileage);
    WorkersAre(t, profiles, p);
  }

  lemma RateOf(t: TripSource, d: real, rate: real, cost: real, mileage: real)
    requires Figures(t, d, rate, cost, mileage)
    ensures SnapshotRate(t) == rate
  {
  }

  // ----- the ledger

  /** The ledger entry of a trip's component: petrol of a paid snapshot is settled, nothing else is. */
  ghost predicate ShowsTrip(e: Entry, t: TripSource, c: Component, rupees: real) {
    && (exists w: Option<Id>, kind: WorkerType :: PaidWorker(t, w, kind) && w == Some(e.worker) && e.workerType == kind)
    && e.date == t.date && e.component == c && e.bucket == (if c == Petrol then PetrolBucket else CommissionBucket)
    && NearestPaise(e.amount, rupees) && e.sourceType == Trips && e.sourceId == Some(t.id)
    && e.version == 1 && e.configuration == NoConfiguration
    && (c == Petrol && t.snapshot.Some? && t.snapshot.value.isPaid ==> e.settled == e.amount && e.status == Status.Settled)
    && (c == TripCommission || (t.snapshot.Some? && !t.snapshot.value.isPaid) ==> e.settled == 0 && e.status == Status.Open)
  }

  /** What the ledger is to hold of a trip's component: the payable, if it is positive. */
  ghost predicate HoldsTrip(es: seq<Entry>, t: TripSource, c: Component, payable: Option<real>) {
    && ((exists e :: e in es && e.id == EntryKey(t.office, SourceKey(Trips, t.id, c))) <==> payable.Some? && payable.value > 0.0)
    && (forall e :: e in es && e.id == EntryKey(t.office, SourceKey(Trips, t.id, c)) ==> payable.Some? && ShowsTrip(e, t, c, payable.value))
  }

  lemma WritesHold(es: seq<Entry>, t: TripSource, c: Component)
    requires TripComponent(c) && WritesComponent(es, t, c) && TripWorker(t).Some?
    ensures HoldsTrip(es, t, c, if c == Petrol then EffectivePayables(t).1 else EffectivePayables(t).0)
  {
    hide EffectivePayables, MoneyToPaise;
    var payable := PayableOf(t, c);
    assert PaidWorker(t, AllowanceWorker(t).0, AllowanceWorker(t).1);
    if payable.Some? && payable.value > 0.0 {
      PaiseAreNearest(payable.value);
      var e := PaidEntry(t, c, MoneyToPaise(payable.value));
      assert e.id == TripKeyOf(t, c) && e in es;
    }
  }

  /** A finished trip of the office in range. */
  predicate Taken(t: TripSource, office: Id, start: DateKey, end: DateKey) {
    t.office == office && !t.deleted && t.finished && NotEarlier(t.date, start) && NotEarlier(end, t.date)
  }

  /** It stores no petrol and lacks a fare price or mileage. */
  predicate Lacks(t: TripSource) {
    t.snapshot.Some? && t.snapshot.value.petrol.None? && (t.fareCost <= 0.0 || t.fareMileage <= 0.0)
  }

  /** The rows a rebuild prices: the trips taken, all with the office's rates filled in as soon as
      one of them lacks something. */
  lemma LoadedRowsAre(data: SourceData, office: Id, start: DateKey, end: DateKey, r: TripSource)
    ensures r in LoadTrips(data, office, start, end) <==>
              exists t :: t in data.trips && Taken(t, office, start, end)
                          && r == if exists u :: u in data.trips && Taken(u, office, start, end) && Lacks(u)
                                  then t.(officeCost := data.officeCost, officeMileage := data.officeMileage) else t
  {
    hide Taken;
    var rows := SelectTrips(data.trips, office, start, end);
    SelectedAre(data.trips, office, start, end);
    if u :| u in data.trips && Taken(u, office, start, end) && Lacks(u) {
      var i :| 0 <= i < |rows| && rows[i] == u;
      RatedRows(rows, data.officeCost, data.officeMileage, r);
    } else {
      forall i | 0 <= i < |rows| ensures !NeedsOfficeRates(rows[i]) {
        assert rows[i] in rows;
      }
    }
  }

  lemma RatedRows(rows: seq<TripSource>, cost: real, mileage: real, r: TripSource)
    ensures r in WithRates(rows, cost, mileage) <==> exists t :: t in rows && r == t.(officeCost := cost, officeMileage := mileage)
  {
    var loaded := WithRates(rows, cost, mileage);
    if r in loaded {
      var j :| 0 <= j < |loaded| && loaded[j] == r;
      assert rows[j] in rows;
    }
    if t :| t in rows && r == t.(officeCost := cost, officeMileage := mileage) {
      var j :| 0 <= j < |rows| && rows[j] == t;
      assert loaded[j] == r;
    }
  }

  predicate NotEarlier(a: DateKey, b: DateKey) {
    a.month > b.month || (a.month == b.month && a.day >= b.day)
  }

  lemma {:induction false} SelectedAre(trips: seq<TripSource>, office: Id, start: DateKey, end: DateKey)
    ensures forall t :: t in SelectTrips(trips, office, start, end) <==>
              t in trips && Taken(t, office, start, end)
  {
    if trips != [] {
      SelectedAre(trips[..|trips| - 1], office, start, end);
      assert trips == trips[..|trips| - 1] + [trips[|trips| - 1]];
    }
  }

  /** A rebuild that gets to its trips holds each priced row's commission and petrol. */
  lemma RebuildHoldsTrip(job: Job, data: SourceData, workers: seq<Id>, t: TripSource, c: Component)
    requires TripComponent(c) && (job.scope == AllEarnings || job.scope == Commissions) && OrdersPart(job, data, workers).error.None?
    requires DistinctTrips(data.trips) && t in data.trips && TripMatches(t, job.id.office, job.start, job.end)
    requires TripWorker(t).Some? && ValidDate(t.date) && t.snapshot.Some?
    ensures var r := BatchRow(data, job.id.office, job.start, job.end, t);
            HoldsTrip(RebuildOf(job, data, workers).puts, r, c, if c == Petrol then EffectivePayables(r).1 else EffectivePayables(r).0)
    ensures BatchRow(data, job.id.office, job.start, job.end, t) in LoadTrips(data, job.id.office, job.start, job.end)
  {
    hide RebuildOf, HoldsTrip, WritesComponent, EffectivePayables, BatchRow, LoadTrips;
    SameRow(data, job.id.office, job.start, job.end, t);
    RebuildWritesTrip(job, data, workers, t, c);
    WritesHold(RebuildOf(job, data, workers).puts, BatchRow(data, job.id.office, job.start, job.end, t), c);
    BatchRowIsLoaded(data, job.id.office, job.start, job.end, t);
  }

  /** So does an accepted trip event, for the trip with the office's rates filled in if it needs them. */
  lemma EventHoldsTrip(data: SourceData, periods: set<Period>, ev: SourceEvent, t: TripSource, c: Component)
    requires TripComponent(c) && AnnouncesTrip(ev, t) && DistinctTrips(data.trips) && t in data.trips && !t.deleted && t.finished
    requires TripWorker(t).Some? && ValidDate(t.date) && !ClosedPeriodOverlap(periods, t.office, t.date, t.date)
    ensures var u := if t.snapshot.value.petrol.None? && (t.fareCost <= 0.0 || t.fareMileage <= 0.0)
                     then t.(officeCost := data.officeCost, officeMileage := data.officeMileage) else t;
            HoldsTrip(EventPlanOf(data, periods, ev).puts, u, c, if c == Petrol then EffectivePayables(u).1 else EffectivePayables(u).0)
  {
    hide EventPlanOf, HoldsTrip, WritesComponent, EffectivePayables;
    FoundTrip(data.trips, t);
    var job := Job(JobKey(t.office, ""), t.date, t.date, AllEarnings, Running, 0, NO_STATS);
    EventWritesTrip(job, data, periods, ev, t, c);
    WritesHold(EventPlanOf(data, periods, ev).puts, LoadTrip(data, t.id).value, c);
  }
}
