/** Order issues as staff meet them: scans of a range, rechecks, accepted variances and payment
    alignments (`internal/earnings/order_issues_repository.go`). */
module OrderDesk {
  import opened Wrappers
  import opened Dates
  import opened Ranking
  import opened Ledger
  import opened IssueBoard
  import opened OrderIssues

  type OrderMap = map<Id, Order>
  type Profiles = map<Id, Profile>

  datatype Action = Recheck | Accept | Align

  datatype ActionError = NotFound | AlreadyClosed | Unsupported | SourceGone

  const RECHECKED := Resolution("recheck", 0)

  predicate OrderMatch(o: Order, office: Id, start: DateKey, end: DateKey) {
    o.office == office && o.completed && !o.deleted && Within(o.date, start, end)
  }

  /** The beautician profile of the order's own office. */
  function ProfileOf(o: Order, profiles: Profiles): Option<Profile> {
    if HasProfile(o) && o.beautician.value in profiles && profiles[o.beautician.value].office == o.office
    then Some(profiles[o.beautician.value]) else None
  }

  function Recheckings(o: Order, profiles: Profiles): seq<Finding> {
    DetectPayment(o) + DetectCommission(o, ProfileOf(o, profiles))
  }

  function ScanFindings(o: Order, profiles: Profiles): seq<Finding> {
    if ValidOrder(o) then Recheckings(o, profiles) else []
  }

  lemma PaymentFindingShape(o: Order)
    ensures |DetectPayment(o)| <= 1
    ensures forall f :: f in DetectPayment(o) ==>
              (f.key.issueType == InvalidTotal || f.key.issueType == PaymentMismatch || f.key.issueType == MissingPayment)
              && f.key.office == o.office && f.key.source == o.id && f.date == o.date
  {
    hide ReceivedFor, ExpectedDue, Base, EffectiveTip;
  }

  lemma CommissionFindingShape(o: Order, profile: Option<Profile>)
    ensures var cs := DetectCommission(o, profile);
            && |cs| <= 2 && (|cs| == 2 ==> cs[0].key.issueType != cs[1].key.issueType)
            && forall f :: f in cs ==>
                 (f.key.issueType == MissingBeautician || f.key.issueType == DeletedBeautician
                  || f.key.issueType == MissingCommission || f.key.issueType == InvalidCommission)
                 && f.key.office == o.office && f.key.source == o.id && f.date == o.date
  {
  }

  lemma FindingsDiffer(o: Order, profiles: Profiles)
    ensures DistinctFindings(Recheckings(o, profiles))
    ensures forall i :: 0 <= i < |Recheckings(o, profiles)| ==>
              var f := Recheckings(o, profiles)[i]; f.key.office == o.office && f.key.source == o.id && f.date == o.date
  {
    hide DetectPayment, DetectCommission;
    PaymentFindingShape(o);
    CommissionFindingShape(o, ProfileOf(o, profiles));
  }

  /** What the scan finds on each order. */
  function Shown(orders: OrderMap, profiles: Profiles): Id -> seq<Finding> {
    (id: Id) => if id in orders then ScanFindings(orders[id], profiles) else []
  }

  lemma OwnOrderFindings(o: Order, profiles: Profiles)
    ensures OwnFindings(ScanFindings(o, profiles), o.id)
  {
    FindingsDiffer(o, profiles);
  }

  function MatchingOrders(orders: OrderMap, office: Id, start: DateKey, end: DateKey): set<Id> {
    set id | id in orders && OrderMatch(orders[id], office, start, end)
  }

  /** `fs` holds what the orders of the range show, each order once. */
  ghost predicate IsScanOf(fs: seq<Finding>, orders: OrderMap, profiles: Profiles, office: Id, start: DateKey, end: DateKey) {
    && Scannable(fs, office, start, end)
    && forall f :: f in fs <==> exists id :: id in orders && OrderMatch(orders[id], office, start, end) && f in ScanFindings(orders[id], profiles)
  }

  // ----- one issue at a time

  predicate SourceFound(orders: OrderMap, k: IssueKey) {
    k.source in orders && orders[k.source].office == k.office
  }

  /** The issues, the orders, and the error of one action. */
  datatype Outcome = Outcome(board: Issues, orders: OrderMap, error: Option<ActionError>)

  function AlignOutcome(board: Issues, orders: OrderMap, k: IssueKey): Outcome
    requires k in board
  {
    if k.issueType != PaymentMismatch && k.issueType != MissingPayment then Outcome(board, orders, Some(Unsupported))
    else if !SourceFound(orders, k) then Outcome(board, orders, Some(SourceGone))
    else
      var o := orders[k.source];
      if o.payment.history == [] then Outcome(board, orders, Some(Unsupported))
      else
        match FirstOfType(DetectPayment(o), k.issueType)
        case None => Outcome(board[k := Closed(board[k], Resolved, RECHECKED)], orders, None)
        case Some(f) =>
          Outcome(board[k := Closed(board[k], Resolved, Resolution("align_payment_record", -Difference(f)))],
                  orders[k.source := Aligned(o, f)], None)
  }

  function ActOutcome(board: Issues, orders: OrderMap, profiles: Profiles, office: Id, k: IssueKey, action: Action): Outcome {
    if k !in board || k.office != office then Outcome(board, orders, Some(NotFound))
    else if board[k].status != IssueStatus.Open && action != Recheck then Outcome(board, orders, Some(AlreadyClosed))
    else
      match action
      case Recheck =>
        if !SourceFound(orders, k) then Outcome(board, orders, Some(SourceGone))
        else Outcome(Rechecked(board, Recheckings(orders[k.source], profiles), k, RECHECKED), orders, None)
      case Accept => Outcome(board[k := Closed(board[k], Accepted, Resolution("accept_variance", 0))], orders, None)
      case Align => AlignOutcome(board, orders, k)
  }

  /** Every order is stored under its id and its history holds one adjustment per issue. */
  ghost predicate OrdersSound(orders: OrderMap) {
    forall id :: id in orders ==> orders[id].id == id && OneAdjustmentPerIssue(orders[id].payment.history)
  }

  lemma AlignmentKeepsOrder(o: Order, f: Finding)
    requires OneAdjustmentPerIssue(o.payment.history)
    ensures var h := Aligned(o, f).payment.history;
            OneAdjustmentPerIssue(h) && o.payment.history <= h && Aligned(o, f) == o.(payment := o.payment.(history := h))
  {
  }

  /** No action breaks that, and none changes anything about an order but its payment history. */
  lemma ActionsKeepOrders(board: Issues, orders: OrderMap, profiles: Profiles, office: Id, k: IssueKey, action: Action)
    requires OrdersSound(orders)
    ensures var orders' := ActOutcome(board, orders, profiles, office, k, action).orders;
            && OrdersSound(orders') && orders'.Keys == orders.Keys
            && forall id :: id in orders ==>
                 && orders[id].payment.history <= orders'[id].payment.history
                 && orders'[id] == orders[id].(payment := orders[id].payment.(history := orders'[id].payment.history))
  {
    hide DetectPayment, Aligned, Rechecked, FirstOfType, OneAdjustmentPerIssue;
    if k.source in orders {
      var current := FirstOfType(DetectPayment(orders[k.source]), k.issueType);
      if current.Some? {
        AlignmentKeepsOrder(orders[k.source], current.value);
      }
    }
  }

  lemma SettledOrderNotDetected(orders: OrderMap, profiles: Profiles, k: IssueKey, office: Id, start: DateKey, end: DateKey, fs: seq<Finding>)
    requires forall id :: id in orders ==> orders[id].id == id
    requires k.source in orders && DetectPayment(orders[k.source]) == []
    requires k.issueType == PaymentMismatch || k.issueType == MissingPayment
    requires IsScanOf(fs, orders, profiles, office, start, end)
    ensures !Detected(fs, k)
  {
    forall i | 0 <= i < |fs| ensures fs[i].key != k {
      assert fs[i] in fs;
      var id :| id in orders && OrderMatch(orders[id], office, start, end) && fs[i] in ScanFindings(orders[id], profiles);
      FindingsDiffer(orders[id], profiles);
      if id == k.source {
        NoPaymentFinding(orders[id], profiles, fs[i]);
      }
    }
  }

  lemma AlignOutcomeOf(board: Issues, orders: OrderMap, k: IssueKey, f: Finding)
    requires k in board && SourceFound(orders, k) && f.key == k
    requires k.issueType == PaymentMismatch || k.issueType == MissingPayment
    requires orders[k.source].payment.history != [] && DetectPayment(orders[k.source]) == [f]
    ensures AlignOutcome(board, orders, k) ==
            Outcome(board[k := Closed(board[k], Resolved, Resolution("align_payment_record", -Difference(f)))],
                    orders[k.source := Aligned(orders[k.source], f)], None)
  {
    OneFinding(f);
  }

  lemma AlignedKeepsId(o: Order, f: Finding)
    ensures Aligned(o, f).id == o.id
  {
  }

  /** An aligned order that could be settled shows nothing at the next scan, and the issue stays
      resolved with the signed adjustment on record. */
  lemma AlignedIssueStaysResolved(board: Issues, orders: OrderMap, profiles: Profiles, k: IssueKey, f: Finding,
                                  office: Id, start: DateKey, end: DateKey, fs: seq<Finding>)
    requires k in board && board[k].status == IssueStatus.Open && SourceFound(orders, k) && f.key == k
    requires k.issueType == PaymentMismatch || k.issueType == MissingPayment
    requires orders[k.source].payment.history != [] && DetectPayment(orders[k.source]) == [f]
    requires !Adjusted(orders[k.source], k) && Alignable(orders[k.source], f)
    requires forall id :: id in orders ==> orders[id].id == id
    requires IsScanOf(fs, AlignOutcome(board, orders, k).orders, profiles, office, start, end)
    ensures var done := AlignOutcome(board, orders, k).board;
            && k in Scan(done, office, start, end, fs) && Scan(done, office, start, end, fs)[k] == done[k]
            && done[k].status == Resolved && done[k].resolution == Some(Resolution("align_payment_record", -Difference(f)))
  {
    var done := AlignOutcome(board, orders, k);
    AlignOutcomeOf(board, orders, k, f);
    AlignmentSettlesIff(orders[k.source], f);
    AlignedKeepsId(orders[k.source], f);
    SettledOrderNotDetected(done.orders, profiles, k, office, start, end, fs);
    UndetectedAfterScan(done.board, office, start, end, fs, k);
  }

  lemma OneFinding(f: Finding)
    ensures FirstOfType([f], f.key.issueType) == Some(f)
  {
    assert [f][..0] == [];
  }

  lemma NoPaymentFinding(o: Order, profiles: Profiles, f: Finding)
    requires DetectPayment(o) == [] && f in ScanFindings(o, profiles)
    ensures f.key.issueType != PaymentMismatch && f.key.issueType != MissingPayment
  {
  }

  class OrderIssueDesk {
    var orders: OrderMap
    var profiles: Profiles
    const store: IssueStore

    constructor (orders: OrderMap, profiles: Profiles, store: IssueStore)
      ensures this.orders == orders && this.profiles == profiles && this.store == store
    {
      this.orders, this.profiles, this.store := orders, profiles, store;
    }

    method Detect(o: Order) returns (fs: seq<Finding>)
      ensures fs == Recheckings(o, profiles)
    {
      fs := DetectOrderIssues(o);
      var profile: Option<Profile> := None;
      if o.beautician.Some? && o.beautician.value != NIL_ID {
        if o.beautician.value in profiles && profiles[o.beautician.value].office == o.office {
          profile := Some(profiles[o.beautician.value]);
        }
      }
      var more := DetectOrderCommissionIssues(o, profile);
      fs := fs + more;
    }

    method DetectValid(id: Id) returns (fs: seq<Finding>)
      requires id in orders && orders[id].id == id
      ensures fs == Shown(orders, profiles)(id) && OwnFindings(fs, id)
    {
      fs := [];
      if ValidOrder(orders[id]) {
        fs := Detect(orders[id]);
      }
      OwnOrderFindings(orders[id], profiles);
    }

    method StoreOrder(id: Id, r: ScanResult, found: seq<Finding>, ghost before: Issues, ghost done: set<Id>, ghost shown: Id -> seq<Finding>)
      returns (r': ScanResult, found': seq<Finding>)
      requires id in orders && orders[id].id == id && id !in done && shown == Shown(orders, profiles)
      requires Stored(store.issues, before, found, done, shown, r)
      modifies store
      ensures Stored(store.issues, before, found', done + {id}, shown, r')
    {
      var detected := DetectValid(id);
      r' := store.ScanDocument(detected, r, before, found, |done|);
      MoreFindings(found, done, id, shown);
      found' := found + detected;
    }

    /** Stores and counts what the matching orders show, in whatever order the cursor yields them. */
    method StoreFindings(matching: set<Id>, ghost shown: Id -> seq<Finding>) returns (r: ScanResult, found: seq<Finding>)
      requires forall id :: id in matching ==> id in orders && orders[id].id == id
      requires shown == Shown(orders, profiles)
      modifies store
      ensures Stored(store.issues, old(store.issues), found, matching, shown, r)
    {
      ghost var before := store.issues;
      var rest := matching;
      ghost var done: set<Id> := {};
      r, found := NO_RESULT, [];
      NothingStored(before, shown);
      while rest != {}
        invariant done !! rest && done + rest == matching
        invariant Stored(store.issues, before, found, done, shown, r)
        decreases rest
      {
        var id :| id in rest;
        r, found := StoreOrder(id, r, found, before, done, shown);
        rest, done := rest - {id}, done + {id};
      }
      assert done == matching;
    }

    method ScanOrderIssues(office: Id, start: DateKey, end: DateKey) returns (r: ScanResult, ghost fs: seq<Finding>)
      requires forall id :: id in orders ==> orders[id].id == id
      modifies store
      ensures IsScanOf(fs, orders, profiles, office, start, end)
      ensures store.issues == Scan(old(store.issues), office, start, end, fs)
      ensures r == Counts(NO_RESULT, old(store.issues), fs).(
                     scanned := |MatchingOrders(orders, office, start, end)|,
                     autoResolved := |StaleKeys(Upserts(old(store.issues), fs), office, start, end, fs)|)
    {
      var found;
      r, found := StoreFindings(MatchingOrders(orders, office, start, end), Shown(orders, profiles));
      CoveredMatches(found, orders, profiles, office, start, end);
      fs := found;
      var resolved := store.ResolveUndetected(office, start, end, found);
      r := r.(autoResolved := resolved);
    }

    method AlignOrderPayment(k: IssueKey) returns (error: Option<ActionError>)
      requires k in store.issues
      modifies store, this`orders
      ensures Outcome(store.issues, orders, error) == AlignOutcome(old(store.issues), old(orders), k)
    {
      if k.issueType != PaymentMismatch && k.issueType != MissingPayment {
        return Some(Unsupported);
      }
      if !(k.source in orders && orders[k.source].office == k.office) {
        return Some(SourceGone);
      }
      var o := orders[k.source];
      if |o.payment.history| == 0 {
        return Some(Unsupported);
      }
      var detected := DetectOrderIssues(o);
      var current := FindType(detected, k.issueType);
      if current.None? {
        store.CloseIssue(k, Resolved, RECHECKED);
        return None;
      }
      var f := current.value;
      if !Adjusted(o, f.key) {
        var entry := Adjustment(o, f);
        orders := orders[k.source := o.(payment := o.payment.(history := o.payment.history + [entry]))];
      } else {
        assert orders[k.source := o] == orders;
      }
      store.CloseIssue(k, Resolved, Resolution("align_payment_record", -Difference(f)));
      error := None;
    }

    method ActOnOrderIssue(office: Id, k: IssueKey, action: Action) returns (error: Option<ActionError>)
      modifies store, this`orders
      ensures Outcome(store.issues, orders, error) == ActOutcome(old(store.issues), old(orders), profiles, office, k, action)
    {
      if k !in store.issues || k.office != office {
        return Some(NotFound);
      }
      if store.issues[k].status != IssueStatus.Open && action != Recheck {
        return Some(AlreadyClosed);
      }
      match action
      case Recheck =>
        if !(k.source in orders && orders[k.source].office == k.office) {
          return Some(SourceGone);
        }
        var detected := Detect(orders[k.source]);
        store.Recheck(detected, k, RECHECKED);
        error := None;
      case Accept =>
        store.CloseIssue(k, Accepted, Resolution("accept_variance", 0));
        error := None;
      case Align =>
        error := AlignOrderPayment(k);
    }
  }

  lemma CoveredMatches(fs: seq<Finding>, orders: OrderMap, profiles: Profiles, office: Id, start: DateKey, end: DateKey)
    requires Covers(fs, MatchingOrders(orders, office, start, end), Shown(orders, profiles))
    ensures IsScanOf(fs, orders, profiles, office, start, end)
  {
    var matching := MatchingOrders(orders, office, start, end);
    forall i | 0 <= i < |fs| ensures fs[i].key.office == office && Within(fs[i].date, start, end) {
      assert fs[i] in fs;
      var d :| d in matching && fs[i] in Shown(orders, profiles)(d);
      FindingsDiffer(orders[d], profiles);
    }
    forall f
      ensures f in fs <==> exists id :: id in orders && OrderMatch(orders[id], office, start, end) && f in ScanFindings(orders[id], profiles)
    {
      if f in fs {
        var d :| d in matching && f in Shown(orders, profiles)(d);
        assert d in orders && OrderMatch(orders[d], office, start, end);
      }
      if id :| id in orders && OrderMatch(orders[id], office, start, end) && f in ScanFindings(orders[id], profiles) {
        assert id in matching && f in Shown(orders, profiles)(id);
      }
    }
  }
}
