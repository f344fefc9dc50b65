/** The issue collections behind the order and the trip scan: detected discrepancies are
    stored under their key, reopened when they come back, and resolved when a scan of their
    range no longer finds them. */
module IssueBoard {
  import opened Wrappers
  import opened Dates
  import opened Ranking

  datatype IssueType =
    | PaymentMismatch | MissingPayment | InvalidTotal
    | MissingBeautician | DeletedBeautician | MissingCommission | InvalidCommission
    | MissingWorker | DeletedWorker | MissingSnapshot | InvalidConfig
    | DistanceMismatch | PetrolMismatch | CommissionMismatch

  /** `<office>:<document>:<type>` */
  datatype IssueKey = IssueKey(office: Id, source: Id, issueType: IssueType)

  /** One detected discrepancy. */
  datatype Finding = Finding(key: IssueKey, date: DateKey, expected: int, actual: int, autoFixable: bool)

  datatype IssueStatus = Open | Resolved | Accepted

  datatype Resolution = Resolution(action: string, adjustment: int)

  /** A stored issue: the latest finding and how it was dealt with. */
  datatype Issue = Issue(finding: Finding, status: IssueStatus, resolution: Option<Resolution>, history: seq<Resolution>)

  type Issues = map<IssueKey, Issue>

  /** What a scan knows of a worker's profile document. */
  datatype Profile = Profile(office: Id, deleted: bool)

  const AUTO_RECHECK := Resolution("auto_recheck", 0)

  function Difference(f: Finding): int {
    f.actual - f.expected
  }

  /** A resolved issue that is found again, or an accepted one whose amount moved. */
  predicate Reopens(issue: Issue, f: Finding) {
    issue.status == Resolved || (issue.status == Accepted && Difference(issue.finding) != Difference(f))
  }

  function Upsert(board: Issues, f: Finding): Issues {
    if f.key !in board then board[f.key := Issue(f, Open, None, [])]
    else if Reopens(board[f.key], f) then board[f.key := board[f.key].(finding := f, status := Open, resolution := None)]
    else board[f.key := board[f.key].(finding := f)]
  }

  function Upserts(board: Issues, fs: seq<Finding>): Issues {
    if fs == [] then board else Upsert(Upserts(board, fs[..|fs| - 1]), fs[|fs| - 1])
  }

  predicate Detected(fs: seq<Finding>, k: IssueKey) {
    exists i :: 0 <= i < |fs| && fs[i].key == k
  }

  /** The filter of the closing `UpdateMany`. */
  predicate Stale(board: Issues, office: Id, start: DateKey, end: DateKey, fs: seq<Finding>, k: IssueKey) {
    k in board && k.office == office && Within(board[k].finding.date, start, end) && board[k].status == Open && !Detected(fs, k)
  }

  function StaleKeys(board: Issues, office: Id, start: DateKey, end: DateKey, fs: seq<Finding>): set<IssueKey> {
    set k | k in board && Stale(board, office, start, end, fs, k)
  }

  function Closed(issue: Issue, status: IssueStatus, resolution: Resolution): Issue {
    issue.(status := status, resolution := Some(resolution), history := issue.history + [resolution])
  }

  function ResolveStale(board: Issues, office: Id, start: DateKey, end: DateKey, fs: seq<Finding>): Issues {
    map k | k in board :: if Stale(board, office, start, end, fs, k) then Closed(board[k], Resolved, AUTO_RECHECK) else board[k]
  }

  function Scan(board: Issues, office: Id, start: DateKey, end: DateKey, fs: seq<Finding>): Issues {
    ResolveStale(Upserts(board, fs), office, start, end, fs)
  }

  datatype ScanResult = ScanResult(scanned: nat, open: nat, created: nat, updated: nat, autoResolved: nat, variance: int)

  const NO_RESULT := ScanResult(0, 0, 0, 0, 0, 0)

  function CountFinding(r: ScanResult, board: Issues, f: Finding): ScanResult {
    var r1 := if f.key !in board then r.(created := r.created + 1) else r.(updated := r.updated + 1);
    if Upsert(board, f)[f.key].status == Open then r1.(open := r1.open + 1, variance := r1.variance + Difference(f)) else r1
  }

  function Counts(r: ScanResult, board: Issues, fs: seq<Finding>): ScanResult {
    if fs == [] then r
    else CountFinding(Counts(r, board, fs[..|fs| - 1]), Upserts(board, fs[..|fs| - 1]), fs[|fs| - 1])
  }

  // ----- what a scan leaves behind

  ghost predicate DistinctFindings(fs: seq<Finding>) {
    forall i, j :: 0 <= i < j < |fs| ==> fs[i].key != fs[j].key
  }

  /** One finding per key, all of the scanned office and range. */
  ghost predicate Scannable(fs: seq<Finding>, office: Id, start: DateKey, end: DateKey) {
    && DistinctFindings(fs)
    && (forall i :: 0 <= i < |fs| ==> fs[i].key.office == office && Within(fs[i].date, start, end))
  }

  predicate AcceptedAsIs(board: Issues, f: Finding) {
    f.key in board && board[f.key].status == Accepted && Difference(board[f.key].finding) == Difference(f)
  }

  lemma DetectedSnoc(fs: seq<Finding>, k: IssueKey)
    requires fs != []
    ensures Detected(fs, k) <==> Detected(fs[..|fs| - 1], k) || fs[|fs| - 1].key == k
  {
    var n := |fs| - 1;
    if i :| 0 <= i < n && fs[i].key == k {
      assert fs[..n][i].key == k;
    }
  }

  lemma {:induction false} UpsertsElsewhere(board: Issues, fs: seq<Finding>, k: IssueKey)
    requires !Detected(fs, k)
    ensures k in Upserts(board, fs) <==> k in board
    ensures k in board ==> Upserts(board, fs)[k] == board[k]
  {
    if fs != [] {
      DetectedSnoc(fs, k);
      UpsertsElsewhere(board, fs[..|fs| - 1], k);
    }
  }

  lemma {:induction false} UpsertsAt(board: Issues, fs: seq<Finding>, i: nat)
    requires DistinctFindings(fs) && i < |fs|
    ensures fs[i].key in Upserts(board, fs) && Upserts(board, fs)[fs[i].key] == Upsert(board, fs[i])[fs[i].key]
  {
    var n := |fs| - 1;
    var init := fs[..n];
    assert forall p :: 0 <= p < n ==> init[p] == fs[p];
    if i == n {
      assert !Detected(init, fs[n].key);
      UpsertsElsewhere(board, init, fs[n].key);
    } else {
      UpsertsAt(board, init, i);
    }
  }

  /** After a scan, the office's open issues in the range are the ones found now, except those
      accepted at the amount found. */
  lemma OpenAfterScan(board: Issues, office: Id, start: DateKey, end: DateKey, fs: seq<Finding>, k: IssueKey)
    requires Scannable(fs, office, start, end)
    ensures var b := Scan(board, office, start, end, fs);
            (k in b && k.office == office && Within(b[k].finding.date, start, end) && b[k].status == Open)
            <==> exists i :: 0 <= i < |fs| && fs[i].key == k && !AcceptedAsIs(board, fs[i])
  {
    if i :| 0 <= i < |fs| && fs[i].key == k {
      UpsertsAt(board, fs, i);
      assert Detected(fs, k);
    } else {
      UpsertsElsewhere(board, fs, k);
    }
  }

  /** A detected issue carries the new figures; it is accepted still, or open. */
  lemma DetectedAfterScan(board: Issues, office: Id, start: DateKey, end: DateKey, fs: seq<Finding>, i: nat)
    requires Scannable(fs, office, start, end) && i < |fs|
    ensures var b, k := Scan(board, office, start, end, fs), fs[i].key;
            && k in b && b[k].finding == fs[i]
            && b[k].status == (if AcceptedAsIs(board, fs[i]) then Accepted else Open)
            && b[k].history == (if k in board then board[k].history else [])
  {
    UpsertsAt(board, fs, i);
    assert Detected(fs, fs[i].key);
  }

  /** An undetected issue outside the office or range, or not open, is untouched; an open one
      inside is resolved; and no other issue appears. */
  lemma UndetectedAfterScan(board: Issues, office: Id, start: DateKey, end: DateKey, fs: seq<Finding>, k: IssueKey)
    requires !Detected(fs, k)
    ensures var b := Scan(board, office, start, end, fs);
            && (k in b <==> k in board)
            && (k in board ==> b[k] == if Stale(board, office, start, end, fs, k) then Closed(board[k], Resolved, AUTO_RECHECK) else board[k])
  {
    UpsertsElsewhere(board, fs, k);
  }

  // ----- counting

  function NewFindings(board: Issues, fs: seq<Finding>): set<Finding> {
    set f | f in fs && f.key !in board
  }

  function OpenFindings(board: Issues, fs: seq<Finding>): set<Finding> {
    set f | f in fs && !AcceptedAsIs(board, f)
  }

  function Variance(board: Issues, fs: seq<Finding>): int {
    if fs == [] then 0
    else Variance(board, fs[..|fs| - 1]) + (if AcceptedAsIs(board, fs[|fs| - 1]) then 0 else Difference(fs[|fs| - 1]))
  }

  lemma FindingsSnoc(board: Issues, init: seq<Finding>, f: Finding)
    requires f !in init
    ensures |NewFindings(board, init + [f])| == |NewFindings(board, init)| + (if f.key in board then 0 else 1)
    ensures |OpenFindings(board, init + [f])| == |OpenFindings(board, init)| + (if AcceptedAsIs(board, f) then 0 else 1)
  {
    assert NewFindings(board, init + [f]) == if f.key in board then NewFindings(board, init) else NewFindings(board, init) + {f};
    assert OpenFindings(board, init + [f]) == if AcceptedAsIs(board, f) then OpenFindings(board, init) else OpenFindings(board, init) + {f};
  }

  lemma CountedStep(r: ScanResult, board: Issues, init: seq<Finding>, f: Finding)
    requires !Detected(init, f.key)
    ensures var r', isNew, stays := CountFinding(r, Upserts(board, init), f), f.key !in board, AcceptedAsIs(board, f);
            && r'.created == r.created + (if isNew then 1 else 0) && r'.updated == r.updated + (if isNew then 0 else 1)
            && r'.open == r.open + (if stays then 0 else 1) && r'.variance == r.variance + (if stays then 0 else Difference(f))
  {
    UpsertsElsewhere(board, init, f.key);
  }

  lemma DistinctSnoc(fs: seq<Finding>)
    requires DistinctFindings(fs) && fs != []
    ensures DistinctFindings(fs[..|fs| - 1]) && fs[|fs| - 1] !in fs[..|fs| - 1]
    ensures !Detected(fs[..|fs| - 1], fs[|fs| - 1].key)
  {
    assert forall p :: 0 <= p < |fs| - 1 ==> fs[..|fs| - 1][p] == fs[p];
  }

  /** Every finding is either created or updated, each counted by what the board held before. */
  lemma {:induction false} CountsAddUp(board: Issues, fs: seq<Finding>)
    requires DistinctFindings(fs)
    ensures var r := Counts(NO_RESULT, board, fs);
            && r.created + r.updated == |fs|
            && r.created == |NewFindings(board, fs)|
            && r.open == |OpenFindings(board, fs)|
            && r.variance == Variance(board, fs)
  {
    if fs != [] {
      var n := |fs| - 1;
      hide Upserts, NewFindings, OpenFindings, AcceptedAsIs, CountFinding, Detected, DistinctFindings;
      var init, f := fs[..n], fs[n];
      DistinctSnoc(fs);
      CountsAddUp(board, init);
      FindingsSnoc(board, init, f);
      CountedStep(Counts(NO_RESULT, board, init), board, init, f);
      assert fs == init + [f];
    }
  }

  /** Scanning again with nothing changed leaves the board as it is, creates nothing and
      finds nothing to resolve. */
  lemma RescanIsQuiet(board: Issues, office: Id, start: DateKey, end: DateKey, fs: seq<Finding>)
    requires Scannable(fs, office, start, end)
    ensures var b := Scan(board, office, start, end, fs);
            && Scan(b, office, start, end, fs) == b
            && NewFindings(b, fs) == {}
            && StaleKeys(Upserts(b, fs), office, start, end, fs) == {}
  {
    var b := Scan(board, office, start, end, fs);
    forall i | 0 <= i < |fs| ensures fs[i].key in b {
      DetectedAfterScan(board, office, start, end, fs, i);
    }
    forall k
      ensures k in Scan(b, office, start, end, fs) <==> k in b
      ensures k in b ==> Scan(b, office, start, end, fs)[k] == b[k]
      ensures !Stale(Upserts(b, fs), office, start, end, fs, k)
    {
      RescannedIssue(board, office, start, end, fs, k);
    }
    assert Scan(b, office, start, end, fs).Keys == b.Keys;
  }

  lemma RescannedIssue(board: Issues, office: Id, start: DateKey, end: DateKey, fs: seq<Finding>, k: IssueKey)
    requires Scannable(fs, office, start, end)
    ensures var b := Scan(board, office, start, end, fs);
            && (k in Scan(b, office, start, end, fs) <==> k in b)
            && (k in b ==> Scan(b, office, start, end, fs)[k] == b[k])
            && !Stale(Upserts(b, fs), office, start, end, fs, k)
  {
    var b := Scan(board, office, start, end, fs);
    if i :| 0 <= i < |fs| && fs[i].key == k {
      assert Detected(fs, k);
      UpsertsAt(board, fs, i);
      UpsertsAt(b, fs, i);
    } else {
      UpsertsElsewhere(board, fs, k);
      UpsertsElsewhere(b, fs, k);
    }
  }

  // ----- actions

  /** A variance accepted by staff stays accepted through later scans that find the same amount. */
  lemma AcceptedStaysAccepted(board: Issues, office: Id, start: DateKey, end: DateKey, fs: seq<Finding>, i: nat, resolution: Resolution)
    requires Scannable(fs, office, start, end) && i < |fs| && fs[i].key in board
    requires Difference(board[fs[i].key].finding) == Difference(fs[i])
    ensures var k := fs[i].key;
            var b := Scan(board[k := Closed(board[k], Accepted, resolution)], office, start, end, fs);
            k in b && b[k].status == Accepted && b[k].resolution == Some(resolution) && b[k].history == board[k].history + [resolution]
  {
    var k := fs[i].key;
    UpsertsAt(board[k := Closed(board[k], Accepted, resolution)], fs, i);
    assert Detected(fs, k);
  }

  // ----- scanning documents one by one

  /** `fs` holds what the documents `done` show, each once. */
  ghost predicate Covers(fs: seq<Finding>, done: set<Id>, shown: Id -> seq<Finding>) {
    && DistinctFindings(fs)
    && (forall i :: 0 <= i < |fs| ==> fs[i].key.source in done)
    && (forall f :: f in fs <==> exists d :: d in done && f in shown(d))
  }

  /** The findings of one document: its own, and one of a type. */
  ghost predicate OwnFindings(fs: seq<Finding>, source: Id) {
    DistinctFindings(fs) && forall i :: 0 <= i < |fs| ==> fs[i].key.source == source
  }

  /** The collection and the counters after storing the findings of the documents `done`. */
  ghost predicate Stored(issues: Issues, before: Issues, fs: seq<Finding>, done: set<Id>, shown: Id -> seq<Finding>, r: ScanResult) {
    issues == Upserts(before, fs) && Covers(fs, done, shown) && r == Counts(NO_RESULT, before, fs).(scanned := |done|)
  }

  lemma NothingStored(before: Issues, shown: Id -> seq<Finding>)
    ensures Stored(before, before, [], {}, shown, NO_RESULT)
  {
  }

  lemma MoreFindings(fs: seq<Finding>, done: set<Id>, id: Id, shown: Id -> seq<Finding>)
    requires Covers(fs, done, shown) && id !in done && OwnFindings(shown(id), id)
    ensures Covers(fs + shown(id), done + {id}, shown)
  {
    forall f ensures f in fs + shown(id) <==> exists d :: d in done + {id} && f in shown(d) {
      if f in fs {
        var d :| d in done && f in shown(d);
        assert d in done + {id};
      }
      if f in shown(id) {
        assert id in done + {id} && f in shown(id);
      }
    }
  }

  lemma {:induction false} UpsertsConcat(board: Issues, a: seq<Finding>, b: seq<Finding>, r: ScanResult)
    ensures Upserts(board, a + b) == Upserts(Upserts(board, a), b)
    ensures Counts(r, board, a + b) == Counts(Counts(r, board, a), Upserts(board, a), b)
  {
    if b == [] {
      assert a + b == a;
    } else {
      var n := |b| - 1;
      UpsertsConcat(board, a, b[..n], r);
      assert (a + b)[..|a + b| - 1] == a + b[..n];
    }
  }

  lemma {:induction false} CountsKeepScanned(r: ScanResult, n: nat, board: Issues, fs: seq<Finding>)
    ensures Counts(r.(scanned := n), board, fs) == Counts(r, board, fs).(scanned := n)
    ensures Counts(r, board, fs).scanned == r.scanned
  {
    if fs != [] {
      CountsKeepScanned(r, n, board, fs[..|fs| - 1]);
    }
  }

  // ----- rechecks

  function FirstOfType(fs: seq<Finding>, t: IssueType): Option<Finding> {
    if fs == [] then None
    else
      var before := FirstOfType(fs[..|fs| - 1], t);
      if before.Some? then before
      else if fs[|fs| - 1].key.issueType == t then Some(fs[|fs| - 1])
      else None
  }

  lemma {:induction false} FirstStays(fs: seq<Finding>, i: nat, t: IssueType)
    requires i <= |fs| && FirstOfType(fs[..i], t).Some?
    ensures FirstOfType(fs, t) == FirstOfType(fs[..i], t)
  {
    if i == |fs| {
      assert fs[..i] == fs;
    } else {
      assert fs[..|fs| - 1][..i] == fs[..i];
      FirstStays(fs[..|fs| - 1], i, t);
    }
  }

  method FindType(fs: seq<Finding>, t: IssueType) returns (found: Option<Finding>)
    ensures found == FirstOfType(fs, t)
  {
    for i := 0 to |fs|
      invariant FirstOfType(fs[..i], t).None?
    {
      assert fs[..i + 1][..i] == fs[..i];
      if fs[i].key.issueType == t {
        FirstStays(fs, i + 1, t);
        return Some(fs[i]);
      }
    }
    assert fs[..|fs|] == fs;
    found := None;
  }

  /** An issue after its document was looked at again: found again, or resolved. */
  function Rechecked(board: Issues, fs: seq<Finding>, k: IssueKey, resolution: Resolution): Issues
    requires k in board
  {
    match FirstOfType(fs, k.issueType)
    case Some(f) => Upsert(board, f)
    case None => board[k := Closed(board[k], Resolved, resolution)]
  }

  // ----- the collections, changed in place

  class IssueStore {
    var issues: Issues

    constructor ()
      ensures issues == map[]
    {
      issues := map[];
    }

    method UpsertIssue(f: Finding) returns (stored: Issue, created: bool)
      modifies this
      ensures issues == Upsert(old(issues), f)
      ensures stored == issues[f.key] && created == (f.key !in old(issues))
    {
      if f.key !in issues {
        stored, created := Issue(f, Open, None, []), true;
      } else {
        var existing := issues[f.key];
        stored, created := existing.(finding := f), false;
        if existing.status == Resolved || (existing.status == Accepted && Difference(existing.finding) != Difference(f)) {
          stored := stored.(status := Open, resolution := None);
        }
      }
      issues := issues[f.key := stored];
    }

    /** Stores one document's findings and counts them. */
    method UpsertEach(fs: seq<Finding>, r: ScanResult) returns (r': ScanResult)
      modifies this
      ensures issues == Upserts(old(issues), fs) && r' == Counts(r, old(issues), fs)
    {
      r' := r;
      for i := 0 to |fs|
        invariant issues == Upserts(old(issues), fs[..i]) && r' == Counts(r, old(issues), fs[..i])
      {
        assert fs[..i + 1][..i] == fs[..i];
        var stored, created := UpsertIssue(fs[i]);
        if created {
          r' := r'.(created := r'.created + 1);
        } else {
          r' := r'.(updated := r'.updated + 1);
        }
        if stored.status == Open {
          r' := r'.(open := r'.open + 1, variance := r'.variance + Difference(stored.finding));
        }
      }
      assert fs[..|fs|] == fs;
    }

    /** Resolves every open issue of the office and range that was not detected. */
    method ResolveUndetected(office: Id, start: DateKey, end: DateKey, fs: seq<Finding>) returns (resolved: nat)
      modifies this
      ensures issues == ResolveStale(old(issues), office, start, end, fs)
      ensures resolved == |StaleKeys(old(issues), office, start, end, fs)|
    {
      ghost var before := issues;
      var rest := StaleKeys(issues, office, start, end, fs);
      ghost var all := rest;
      resolved := 0;
      while rest != {}
        invariant rest <= all && issues.Keys == before.Keys
        invariant forall k :: k in before ==> issues[k] == if k in all - rest then Closed(before[k], Resolved, AUTO_RECHECK) else before[k]
        invariant resolved + |rest| == |all|
        decreases rest
      {
        var k :| k in rest;
        issues, resolved, rest := issues[k := Closed(issues[k], Resolved, AUTO_RECHECK)], resolved + 1, rest - {k};
      }
    }

    /** Stores the finding of the issue's type again, or resolves the issue. */
    method Recheck(fs: seq<Finding>, k: IssueKey, resolution: Resolution)
      requires k in issues
      modifies this
      ensures issues == Rechecked(old(issues), fs, k, resolution)
    {
      var found := FindType(fs, k.issueType);
      if found.Some? {
        var stored, created := UpsertIssue(found.value);
      } else {
        CloseIssue(k, Resolved, resolution);
      }
    }

    /** Stores what one document shows, after the documents before it. */
    method ScanDocument(detected: seq<Finding>, r: ScanResult, ghost before: Issues, ghost fs: seq<Finding>, ghost n: nat)
      returns (r': ScanResult)
      requires issues == Upserts(before, fs) && r == Counts(NO_RESULT, before, fs).(scanned := n)
      modifies this
      ensures issues == Upserts(before, fs + detected) && r' == Counts(NO_RESULT, before, fs + detected).(scanned := n + 1)
    {
      UpsertsConcat(before, fs, detected, NO_RESULT);
      CountsKeepScanned(Counts(NO_RESULT, before, fs), n + 1, Upserts(before, fs), detected);
      r' := UpsertEach(detected, r.(scanned := r.scanned + 1));
    }

    /** `closeOrderIssue` and `closeTripIssue` */
    method CloseIssue(k: IssueKey, status: IssueStatus, resolution: Resolution)
      requires k in issues
      modifies this
      ensures issues == old(issues)[k := Closed(old(issues)[k], status, resolution)]
    {
      issues := issues[k := Closed(issues[k], status, resolution)];
    }
  }
}
