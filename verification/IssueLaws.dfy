/** What scans and staff actions do to stored issues, on the fields of the documents and the issue. */
module IssueLaws {
  import opened Wrappers
  import opened Dates
  import opened Ranking
  import opened IssueBoard
  import OI = OrderIssues
  import OD = OrderDesk
  import TI = TripIssues
  import TD = TripDesk
  import opened Sources
  import opened HandlerLaws
  import opened PayoutLaws

  // ----- scans

  /** The issue as a finding leaves it: new ones open; resolved ones, and accepted ones whose
      difference moved, open again without a resolution; all others with the new figures only. */
  predicate LeftBy(old_: Option<Issue>, f: Finding, issue: Issue) {
    match old_
    case None => issue == Issue(f, Open, None, [])
    case Some(was) =>
      if was.status == Resolved
         || (was.status == Accepted && f.actual - f.expected != was.finding.actual - was.finding.expected)
      then issue == Issue(f, Open, None, was.history)
      else issue == Issue(f, was.status, was.resolution, was.history)
  }

  predicate ClosedBy(was: Issue, status: IssueStatus, resolution: Resolution, issue: Issue) {
    issue == Issue(was.finding, status, Some(resolution), was.history + [resolution])
  }

  lemma UpsertLeaves(board: Issues, f: Finding)
    ensures f.key in Upsert(board, f)
    ensures LeftBy(if f.key in board then Some(board[f.key]) else None, f, Upsert(board, f)[f.key])
  {
  }

  /** After a scan a detected issue is as its finding leaves it; an undetected one is resolved if it
      was open in the office and range; nothing else changes and no other issue appears. */
  lemma ScanLeaves(board: Issues, office: Id, start: DateKey, end: DateKey, fs: seq<Finding>, k: IssueKey)
    requires Scannable(fs, office, start, end)
    ensures var b := Scan(board, office, start, end, fs);
            && (forall f :: f in fs && f.key == k ==> k in b && LeftBy(if k in board then Some(board[k]) else None, f, b[k]))
            && ((forall f :: f in fs ==> f.key != k) ==>
                  && (k in b <==> k in board)
                  && (k in board ==>
                        if k.office == office && DateUpTo(start, board[k].finding.date) && DateUpTo(board[k].finding.date, end)
                           && board[k].status == Open
                        then ClosedBy(board[k], Resolved, Resolution("auto_recheck", 0), b[k])
                        else b[k] == board[k]))
  {
    if f :| f in fs && f.key == k {
      var i :| 0 <= i < |fs| && fs[i] == f;
      UpsertsAt(board, fs, i);
      UpsertLeaves(board, f);
      assert Detected(fs, k);
      forall g | g in fs && g.key == k ensures g == f {
        var j :| 0 <= j < |fs| && fs[j] == g;
      }
    } else {
      forall i | 0 <= i < |fs| ensures fs[i].key != k {
        assert fs[i] in fs;
      }
      UndetectedAfterScan(board, office, start, end, fs, k);
    }
  }

  /** A completed order whose documents a scan takes seriously. */
  predicate ScannedOrder(o: OI.Order, office: Id, start: DateKey, end: DateKey) {
    && o.office == office && o.completed && !o.deleted && DateUpTo(start, o.date) && DateUpTo(o.date, end)
    && o.id != 0 && o.office != 0 && RealDay(o.date)
    && o.subtotal >= 0.0 && o.convenience >= 0.0 && o.hygiene >= 0.0 && o.surge >= 0.0 && o.membership >= 0.0 && o.discount >= 0.0
    && (if o.payment.tip > 0.0 then o.payment.tip else o.tip) >= 0.0
  }

  /** The profile of the order's beautician in the order's office. */
  function BeauticianOf(o: OI.Order, profiles: OD.Profiles): Option<Profile> {
    if o.beautician.Some? && o.beautician.value != 0 && o.beautician.value in profiles && profiles[o.beautician.value].office == o.office
    then Some(profiles[o.beautician.value]) else None
  }

  /** A scan of a range finds exactly the payment and commission findings of its serious orders. */
  lemma OrderScanFinds(fs: seq<Finding>, orders: OD.OrderMap, profiles: OD.Profiles, office: Id, start: DateKey, end: DateKey, f: Finding)
    requires OD.IsScanOf(fs, orders, profiles, office, start, end)
    ensures f in fs <==>
            exists id :: id in orders && ScannedOrder(orders[id], office, start, end)
                         && (f in OI.DetectPayment(orders[id]) || f in OI.DetectCommission(orders[id], BeauticianOf(orders[id], profiles)))
  {
    hide OI.DetectPayment, OI.DetectCommission;
    forall id | id in orders
      ensures OD.OrderMatch(orders[id], office, start, end) && f in OD.ScanFindings(orders[id], profiles)
              <==> ScannedOrder(orders[id], office, start, end)
                   && (f in OI.DetectPayment(orders[id]) || f in OI.DetectCommission(orders[id], BeauticianOf(orders[id], profiles)))
    {
      RealDayIs(orders[id].date);
    }
  }

  /** And of trips exactly what is found on its finished ones, priced with their office's rates. */
  lemma TripScanFinds(fs: seq<Finding>, trips: TD.TripMap, profiles: TI.Profiles, rates: TD.Rates, office: Id, start: DateKey, end: DateKey, f: Finding)
    requires TD.IsScanOf(fs, trips, profiles, rates, office, start, end)
    ensures f in fs <==>
            exists id :: id in trips && trips[id].office == office && trips[id].finished && !trips[id].deleted
                         && DateUpTo(start, trips[id].date) && DateUpTo(trips[id].date, end)
                         && f in TI.DetectTrip(trips[id].(officeCost := if office in rates then rates[office].0 else 0.0,
                                                          officeMileage := if office in rates then rates[office].1 else 0.0), profiles)
  {
    hide TI.DetectTrip;
    forall id ensures id in TD.MatchingTrips(trips, office, start, end) && f in TD.Shown(trips, profiles, rates)(id)
                      <==> id in trips && TripTaken(trips[id], office, start, end) && f in TI.DetectTrip(TD.Hydrated(trips[id], rates), profiles) {
    }
  }

  predicate TripTaken(t: TripSource, office: Id, start: DateKey, end: DateKey) {
    t.office == office && t.finished && !t.deleted && DateUpTo(start, t.date) && DateUpTo(t.date, end)
  }

  // ----- rechecks and acceptance

  /** A recheck keeps an issue whose kind the document still shows, with the figures of the first
      such finding, and resolves it otherwise. */
  ghost predicate RecheckedTo(board: Issues, fs: seq<Finding>, k: IssueKey, resolution: Resolution, board': Issues)
    requires k in board
  {
    if exists f :: f in fs && f.key.issueType == k.issueType
    then exists i :: 0 <= i < |fs| && fs[i].key.issueType == k.issueType
                     && (forall j :: 0 <= j < i ==> fs[j].key.issueType != k.issueType)
                     && board' == board[fs[i].key := Upsert(board, fs[i])[fs[i].key]]
    else k in board' && ClosedBy(board[k], Resolved, resolution, board'[k]) && board' == board[k := board'[k]]
  }

  lemma {:induction false} FirstIs(fs: seq<Finding>, kind: IssueType)
    ensures FirstOfType(fs, kind).None? <==> forall f :: f in fs ==> f.key.issueType != kind
    ensures FirstOfType(fs, kind).Some? ==>
              exists i :: 0 <= i < |fs| && fs[i] == FirstOfType(fs, kind).value && fs[i].key.issueType == kind
                          && forall j :: 0 <= j < i ==> fs[j].key.issueType != kind
  {
    if fs != [] {
      var n := |fs| - 1;
      FirstIs(fs[..n], kind);
      assert fs == fs[..n] + [fs[n]];
      if FirstOfType(fs[..n], kind).Some? {
        var i :| 0 <= i < n && fs[..n][i] == FirstOfType(fs[..n], kind).value && fs[..n][i].key.issueType == kind
                 && forall j :: 0 <= j < i ==> fs[..n][j].key.issueType != kind;
        assert forall j :: 0 <= j < n ==> fs[..n][j] == fs[j];
        assert fs[i] == FirstOfType(fs, kind).value && fs[i] in fs;
      } else {
        forall j | 0 <= j < n ensures fs[j].key.issueType != kind {
          assert fs[..n][j] in fs[..n];
        }
        if fs[n].key.issueType == kind {
          assert fs[n] in fs && FirstOfType(fs, kind) == Some(fs[n]);
        }
      }
    }
  }

  lemma RecheckIs(board: Issues, fs: seq<Finding>, k: IssueKey, resolution: Resolution)
    requires k in board
    ensures RecheckedTo(board, fs, k, resolution, Rechecked(board, fs, k, resolution))
  {
    hide FirstOfType;
    FirstIs(fs, k.issueType);
    if f :| f in fs && f.key.issueType == k.issueType {
      var i :| 0 <= i < |fs| && fs[i] == FirstOfType(fs, k.issueType).value && fs[i].key.issueType == k.issueType
               && forall j :: 0 <= j < i ==> fs[j].key.issueType != k.issueType;
      UpsertOnly(board, fs[i]);
    }
  }

  lemma UpsertOnly(board: Issues, f: Finding)
    ensures f.key in Upsert(board, f) && Upsert(board, f) == board[f.key := Upsert(board, f)[f.key]]
  {
  }

  /** What staff can do to an order's issue: recheck any, accept an open one, or align the payment
      of an open payment issue whose order has a history and still shows it. */
  lemma OrderActionDecides(board: Issues, orders: OD.OrderMap, profiles: OD.Profiles, office: Id, k: IssueKey, action: OD.Action)
    ensures var r := OD.ActOutcome(board, orders, profiles, office, k, action);
            var here := k in board && k.office == office;
            var found := k.source in orders && orders[k.source].office == k.office;
            && (r.error == Some(OD.NotFound) <==> !here)
            && (r.error == Some(OD.AlreadyClosed) <==> here && board[k].status != Open && action != OD.Recheck)
            && (r.error.Some? ==> r.board == board && r.orders == orders)
            && (action != OD.Align ==> r.orders == orders)
            && (here && action == OD.Recheck ==>
                  && (r.error == Some(OD.SourceGone) <==> !found)
                  && (found ==> r.error.None? && RecheckedTo(board,
                        OI.DetectPayment(orders[k.source]) + OI.DetectCommission(orders[k.source], BeauticianOf(orders[k.source], profiles)),
                        k, Resolution("recheck", 0), r.board)))
            && (here && action == OD.Accept && board[k].status == Open ==>
                  r.error.None? && k in r.board && ClosedBy(board[k], Accepted, Resolution("accept_variance", 0), r.board[k]) && r.board == board[k := r.board[k]])
            && (here && action == OD.Align && board[k].status == Open ==>
                  && (r.error == Some(OD.Unsupported) <==>
                        (k.issueType != PaymentMismatch && k.issueType != MissingPayment) || (found && orders[k.source].payment.history == []))
                  && (r.error == Some(OD.SourceGone) <==> (k.issueType == PaymentMismatch || k.issueType == MissingPayment) && !found)
                  && (r.error.None? ==> found && AlignedTo(board, orders, k, r)))
  {
    hide OI.DetectPayment, OI.DetectCommission;
    if k in board && k.office == office && k.source in orders {
      RecheckIs(board, OD.Recheckings(orders[k.source], profiles), k, Resolution("recheck", 0));
      AlignIs(board, orders, k);
    }
  }

  /** The payment is aligned with the first finding of the issue's kind and the issue resolved with
      the amount pushed; without such a finding the issue is resolved as rechecked. */
  ghost predicate AlignedTo(board: Issues, orders: OD.OrderMap, k: IssueKey, r: OD.Outcome)
    requires k in board && k.source in orders
  {
    var fs := OI.DetectPayment(orders[k.source]);
    && (forall f :: f in fs && f.key.issueType == k.issueType ==>
          && k in r.board && ClosedBy(board[k], Resolved, Resolution("align_payment_record", f.expected - f.actual), r.board[k])
          && r.board == board[k := r.board[k]] && r.orders == orders[k.source := OI.Aligned(orders[k.source], f)])
    && ((forall f :: f in fs ==> f.key.issueType != k.issueType) ==>
          && k in r.board && ClosedBy(board[k], Resolved, Resolution("recheck", 0), r.board[k])
          && r.board == board[k := r.board[k]] && r.orders == orders)
  }

  lemma AlignIs(board: Issues, orders: OD.OrderMap, k: IssueKey)
    requires k in board && k.source in orders
    ensures var r := OD.AlignOutcome(board, orders, k); r.error.None? ==> AlignedTo(board, orders, k, r)
  {
    hide OI.DetectPayment, FirstOfType;
    var fs := OI.DetectPayment(orders[k.source]);
    OD.PaymentFindingShape(orders[k.source]);
    FirstIs(fs, k.issueType);
    forall f, g | f in fs && g in fs ensures f == g {
    }
  }

  /** The trip with its office's rates filled in. */
  function Priced(t: TripSource, rates: TD.Rates): TripSource {
    t.(officeCost := if t.office in rates then rates[t.office].0 else 0.0, officeMileage := if t.office in rates then rates[t.office].1 else 0.0)
  }

  /** What staff can do to a trip's issue: recheck any, accept an open one, or rebuild the unpaid
      snapshot behind an open one that was found repairable. */
  lemma TripActionDecides(board: Issues, trips: TD.TripMap, profiles: TI.Profiles, rates: TD.Rates, office: Id, k: IssueKey, action: TD.Action)
    ensures var r := TD.ActOutcome(board, trips, profiles, rates, office, k, action);
            var here := k in board && k.office == office;
            var found := k.source in trips && trips[k.source].office == k.office;
            && (r.error == Some(TD.NotFound) <==> !here)
            && (r.error == Some(TD.AlreadyClosed) <==> here && board[k].status != Open && action != TD.Recheck)
            && (r.error.Some? ==> r.board == board && r.trips == trips)
            && (!action.Rebuild? ==> r.trips == trips)
            && (here && action == TD.Recheck ==>
                  && (r.error == Some(TD.SourceGone) <==> !found)
                  && (found ==> r.error.None?
                                && RecheckedTo(board, TI.DetectTrip(Priced(trips[k.source], rates), profiles), k, Resolution("recheck", 0), r.board)))
            && (here && action == TD.Accept && board[k].status == Open ==>
                  r.error.None? && k in r.board && ClosedBy(board[k], Accepted, Resolution("accept_variance", 0), r.board[k]) && r.board == board[k := r.board[k]])
            && (here && action.Rebuild? && board[k].status == Open ==>
                  && (r.error == Some(TD.SourceGone) <==> board[k].finding.autoFixable && !found)
                  && (r.error == Some(TD.PaidSnapshot) ==> found && trips[k.source].snapshot.Some? && trips[k.source].snapshot.value.isPaid)
                  && (!board[k].finding.autoFixable ==> r.error == Some(TD.Unsupported))
                  && (r.error.None? <==> board[k].finding.autoFixable && found && TI.Repaired(Priced(trips[k.source], rates), profiles, action.now).Ok?)
                  && (r.error.None? ==>
                        var t := trips[k.source].(snapshot := TI.Repaired(Priced(trips[k.source], rates), profiles, action.now).value.snapshot);
                        && r.trips == trips[k.source := t]
                        && RecheckedTo(board, TI.DetectTrip(Priced(t, rates), profiles), k, Resolution("rebuild_payable_snapshot", 0), r.board)))
  {
    hide TI.DetectTrip, TI.Canonical, TI.CanonicalSnapshot, TI.WorkerValid, FirstOfType;
    if k in board && k.source in trips {
      assert TD.Hydrated(trips[k.source], rates) == Priced(trips[k.source], rates);
      RecheckIs(board, TI.DetectTrip(Priced(trips[k.source], rates), profiles), k, Resolution("recheck", 0));
      if action.Rebuild? && TI.Repaired(Priced(trips[k.source], rates), profiles, action.now).Ok? {
        var t := trips[k.source].(snapshot := TI.Repaired(Priced(trips[k.source], rates), profiles, action.now).value.snapshot);
        assert TD.Hydrated(t, rates) == Priced(t, rates);
        RecheckIs(board, TI.DetectTrip(Priced(t, rates), profiles), k, Resolution("rebuild_payable_snapshot", 0));
      }
    }
  }
}
