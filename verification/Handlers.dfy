/** The guarded steps of the earnings API (`internal/earnings/http.go`) and of the rebuild
    workers, over everything they share; what holds in every run of them. */
module Handlers {
  import opened Wrappers
  import opened Dates
  import opened Ranking
  import opened Ledger
  import opened SourcePuts
  import opened Allocations
  import opened Settlements
  import opened LedgerInvariant
  import opened Sources
  import opened ControlPlane
  import opened RebuildPlan
  import opened AuditPlan
  import opened Audit

  /** `working` holds the jobs some rebuild worker has claimed and not yet finished. */
  datatype World = World(book: Book, jobs: Jobs, working: set<JobKey>, periods: set<Period>, modes: Modes, defaultMode: Mode)

  /** The body of an adjustment request; `complaint` is its optional component. */
  datatype Correction = Correction(id: EntryKey, worker: Id, workerType: WorkerType, bucket: Bucket,
                                   complaint: bool, amount: int, date: DateKey)

  datatype ModeRequest = ModeRequest(office: Id, mode: Mode, start: DateKey, end: DateKey)

  datatype Action =
    | QueueRebuild(job: Job)
    | ClosePeriod(period: Period)
    | CreateSettlement(req: Request)
    | UpdateSettlement(id: SettlementKey, amount: int, details: Details)
    | CreateAdjustment(correction: Correction)
    | ChangeMode(request: ModeRequest, data: SourceData)
    | ClaimRebuild(claimed: JobKey)
    | FinishRebuild(finished: JobKey, stats: Stats, failed: bool)
    | LoseWorker(lost: JobKey)
    | PutSourceEntry(entry: Entry)

  datatype Reply = BadRequest | NotFoundReply | ConflictReply | Failure | Kept | Changed

  // ----- guards

  /** `validateSettlementDetails` */
  predicate ValidDetails(amount: int, d: Details) {
    && amount > 0
    && (d.payment == "cash" || d.payment == "bank_transfer" || d.payment == "upi" || d.payment == "other")
    && |d.reference| <= 200 && |d.remarks| <= 500
  }

  predicate NoDuplicates(ks: seq<EntryKey>) {
    forall i, j :: 0 <= i < j < |ks| ==> ks[i] != ks[j]
  }

  predicate ValidRequest(req: Request) {
    ValidRange(req.window.start, req.window.end) && ValidDetails(req.amount, req.details)
    && |req.selected| <= 10000 && NoDuplicates(req.selected)
  }

  /** Complaint deductions are negative commission entries; other corrections follow the bucket. */
  function CorrectionComponent(c: Correction): Option<Component> {
    if c.complaint then (if c.bucket == CommissionBucket && c.amount < 0 then Some(ComplaintDeduction) else None)
    else if c.bucket == PetrolBucket then Some(PetrolAdjustment)
    else Some(CommissionAdjustment)
  }

  function CorrectionEntry(c: Correction, component: Component): Entry {
    Entry(c.id, c.worker, c.workerType, c.date, component, c.bucket, c.amount, 0, Open, Manual, None, 1, NoConfiguration, 0)
  }

  /** The audit of these sources and this ledger is ready. */
  ghost predicate AuditReady(m: Entries, data: SourceData, office: Id, start: DateKey, end: DateKey) {
    exists order: seq<Id>, read: seq<Entry> ::
      && IsIteration(order, TargetMap(data.targets)) && IsLedgerRead(read, m, office, start, end)
      && ExpectedOf(data, office, start, end, order).Some?
      && Agrees(ExpectedOf(data, office, start, end, order).value, LedgerAmounts(read, start, end))
  }

  // ----- the handlers

  function SettlementReply(e: SettlementError): Reply {
    match e
    case NotFound => NotFoundReply
    case MissingEntry => Failure
    case _ => ConflictReply
  }

  function HandleQueueRebuild(w: World, job: Job): (r: (World, Reply))
    ensures r.0 == w.(jobs := r.0.jobs)
  {
    if !ValidRange(job.start, job.end) then (w, BadRequest)
    else if ClosedPeriodOverlap(w.periods, job.id.office, job.start, job.end) then (w, ConflictReply)
    else (w.(jobs := Enqueue(w.jobs, job)), if job.id in w.jobs then Kept else Changed)
  }

  function HandleClosePeriod(w: World, p: Period): (r: (World, Reply))
    ensures r.0 == w.(periods := r.0.periods)
  {
    if !ValidRange(p.start, p.end) then (w, BadRequest)
    else if ActiveRebuildOverlap(w.jobs, p.office, p.start, p.end) then (w, ConflictReply)
    else (w.(periods := w.periods + {p}), if p in w.periods then Kept else Changed)
  }

  /** Payouts and their edits wait for open periods and finished rebuilds. */
  predicate RangeBusy(w: World, office: Id, start: DateKey, end: DateKey) {
    ClosedPeriodOverlap(w.periods, office, start, end) || ActiveRebuildOverlap(w.jobs, office, start, end)
  }

  ghost function HandleCreateSettlement(w: World, req: Request): (r: (World, Reply))
    requires StampsDiffer(w.book.entries)
    ensures r.0 == w.(book := r.0.book)
  {
    if !ValidRequest(req) then (w, BadRequest)
    else if req.id in w.book.settlements then (w, Kept)
    else if RangeBusy(w, req.id.office, req.window.start, req.window.end) then (w, ConflictReply)
    else
      match Allocate(w.book, req)
      case Err(e) => (w, SettlementReply(e))
      case Ok(book) => (w.(book := book), Changed)
  }

  ghost function HandleUpdateSettlement(w: World, id: SettlementKey, amount: int, details: Details): (r: (World, Reply))
    requires StampsDiffer(w.book.entries)
    ensures r.0 == w.(book := r.0.book)
  {
    if !ValidDetails(amount, details) then (w, BadRequest)
    else if id !in w.book.settlements then (w, NotFoundReply)
    else
      var window := w.book.settlements[id].window;
      if RangeBusy(w, id.office, window.start, window.end) then (w, ConflictReply)
      else
        match Update(w.book, id, amount, details)
        case Err(e) => (w, SettlementReply(e))
        case Ok(book) => (w.(book := book), Changed)
  }

  function HandleCreateAdjustment(w: World, c: Correction): (r: (World, Reply))
    ensures r.0 == w.(book := r.0.book)
  {
    if !ValidDate(c.date) || c.amount == 0 then (w, BadRequest)
    else if DateClosed(w.periods, c.id.office, c.date) then (w, ConflictReply)
    else
      match CorrectionComponent(c)
      case None => (w, BadRequest)
      case Some(component) =>
        (w.(book := Written(w.book, InsertOnce(w.book.entries, CorrectionEntry(c, component)), c.id)),
         if c.id in w.book.entries then Kept else Changed)
  }

  ghost function HandleChangeMode(w: World, q: ModeRequest, data: SourceData): (r: (World, Reply))
    ensures r.0 == w.(modes := r.0.modes)
  {
    if ModeOf(w.modes, w.defaultMode, q.office).mode == q.mode then (w, Kept)
    else if q.mode == Shadow then (w.(modes := WithMode(w.modes, w.defaultMode, q.office, Shadow, None)), Changed)
    else if !ValidRange(q.start, q.end) then (w, BadRequest)
    else if ActiveRebuildOverlap(w.jobs, q.office, q.start, q.end) then (w, ConflictReply)
    else if !AuditUsable(data, q.start, q.end) then (w, Failure)
    else if !AuditReady(w.book.entries, data, q.office, q.start, q.end) then (w, ConflictReply)
    else (w.(modes := WithMode(w.modes, w.defaultMode, q.office, Authoritative, Some((q.start, q.end)))), Changed)
  }

  // ----- the workers

  function Claim(w: World, k: JobKey): World {
    if NextQueued(w.jobs, k) then w.(jobs := Started(w.jobs, k), working := w.working + {k}) else w
  }

  /** A worker finishes the job it claimed, once. */
  function Finish(w: World, k: JobKey, stats: Stats, failed: bool): World {
    if k in w.working
    then w.(jobs := Finished(w.jobs, k, TerminalStatus(stats, failed), stats), working := w.working - {k})
    else w
  }

  ghost function Act(w: World, a: Action): World
    requires StampsDiffer(w.book.entries)
  {
    match a
    case QueueRebuild(job) => HandleQueueRebuild(w, job).0
    case ClosePeriod(p) => HandleClosePeriod(w, p).0
    case CreateSettlement(req) => HandleCreateSettlement(w, req).0
    case UpdateSettlement(id, amount, details) => HandleUpdateSettlement(w, id, amount, details).0
    case CreateAdjustment(c) => HandleCreateAdjustment(w, c).0
    case ChangeMode(q, data) => HandleChangeMode(w, q, data).0
    case ClaimRebuild(k) => Claim(w, k)
    case FinishRebuild(k, stats, failed) => Finish(w, k, stats, failed)
    case LoseWorker(k) => w.(working := w.working - {k})
    case PutSourceEntry(e) => w.(book := Next(w.book, SourcePut(e)))
  }

  // ----- what every action keeps

  ghost predicate RebuildsAvoidClosedPeriods(jobs: Jobs, periods: set<Period>) {
    forall k, p :: k in jobs && p in periods && Active(jobs[k].status) && p.office == k.office ==>
      !Overlaps(jobs[k].start, jobs[k].end, p.start, p.end)
  }

  ghost predicate JobsSound(w: World) {
    && (forall k :: k in w.jobs ==> w.jobs[k].id == k)
    && (forall k :: k in w.working ==> k in w.jobs && w.jobs[k].status == Running)
    && RebuildsAvoidClosedPeriods(w.jobs, w.periods)
  }

  ghost predicate Safe(w: World) {
    Sound(w.book) && JobsSound(w)
  }

  lemma QueueKeepsJobs(w: World, job: Job)
    requires JobsSound(w)
    ensures JobsSound(HandleQueueRebuild(w, job).0)
  {
    var w' := HandleQueueRebuild(w, job).0;
    forall k, p | k in w'.jobs && p in w.periods && Active(w'.jobs[k].status) && p.office == k.office
      ensures !Overlaps(w'.jobs[k].start, w'.jobs[k].end, p.start, p.end)
    {
      if k !in w.jobs || w'.jobs[k] != w.jobs[k] {
        assert !ClosedPeriodOverlap(w.periods, k.office, job.start, job.end);
      }
    }
  }

  lemma CloseKeepsJobs(w: World, p: Period)
    requires JobsSound(w)
    ensures JobsSound(HandleClosePeriod(w, p).0)
  {
    var w' := HandleClosePeriod(w, p).0;
    forall k, q | k in w.jobs && q in w'.periods && Active(w.jobs[k].status) && q.office == k.office
      ensures !Overlaps(w.jobs[k].start, w.jobs[k].end, q.start, q.end)
    {
      if q !in w.periods {
        assert !ActiveRebuildOverlap(w.jobs, p.office, p.start, p.end);
      }
    }
  }

  lemma SoundStamps(b: Book)
    requires Sound(b)
    ensures StampsDiffer(b.entries)
  {
  }

  lemma PaymentKeepsSound(w: World, req: Request)
    requires Sound(w.book)
    ensures Sound(HandleCreateSettlement(w, req).0.book)
  {
    hide Sound, Allocate;
    SoundStamps(w.book);
    if HandleCreateSettlement(w, req).1 == Changed {
      AllocateKeepsSound(w.book, req);
    }
  }

  lemma EditKeepsSound(w: World, id: SettlementKey, amount: int, details: Details)
    requires Sound(w.book)
    ensures Sound(HandleUpdateSettlement(w, id, amount, details).0.book)
  {
    hide Sound, Update;
    SoundStamps(w.book);
    if HandleUpdateSettlement(w, id, amount, details).1 == Changed {
      UpdateKeepsSound(w.book, id, amount, details);
    }
  }

  lemma AdjustmentKeepsSound(w: World, c: Correction)
    requires Sound(w.book)
    ensures Sound(HandleCreateAdjustment(w, c).0.book)
  {
    if CorrectionComponent(c).Some? && c.amount != 0 {
      NextKeepsSound(w.book, Adjust(CorrectionEntry(c, CorrectionComponent(c).value)));
    }
  }

  lemma WorkersKeepJobs(w: World, k: JobKey, stats: Stats, failed: bool)
    requires JobsSound(w)
    ensures JobsSound(Claim(w, k)) && JobsSound(Finish(w, k, stats, failed)) && JobsSound(w.(working := w.working - {k}))
  {
  }

  lemma JobsStaySound(w: World, w': World)
    requires JobsSound(w) && w'.jobs == w.jobs && w'.working == w.working && w'.periods == w.periods
    ensures JobsSound(w')
  {
  }

  /** Ledger soundness, job bookkeeping, and no active rebuild over a closed period of its office. */
  lemma ActKeepsSafe(w: World, a: Action)
    requires Safe(w)
    ensures Safe(Act(w, a))
  {
    hide Sound, JobsSound, HandleQueueRebuild, HandleClosePeriod, HandleCreateSettlement, HandleUpdateSettlement,
         HandleCreateAdjustment, HandleChangeMode, Claim, Finish, Next;
    SoundStamps(w.book);
    match a
    case QueueRebuild(job) => QueueKeepsJobs(w, job);
    case ClosePeriod(p) => CloseKeepsJobs(w, p);
    case CreateSettlement(req) =>
      PaymentKeepsSound(w, req);
      JobsStaySound(w, Act(w, a));
    case UpdateSettlement(id, amount, details) =>
      EditKeepsSound(w, id, amount, details);
      JobsStaySound(w, Act(w, a));
    case CreateAdjustment(c) =>
      AdjustmentKeepsSound(w, c);
      JobsStaySound(w, Act(w, a));
    case ChangeMode(q, data) => JobsStaySound(w, Act(w, a));
    case ClaimRebuild(k) => ClaimKeepsBook(w, k); WorkersKeepJobs(w, k, NO_STATS, false);
    case FinishRebuild(k, stats, failed) => FinishKeepsBook(w, k, stats, failed); WorkersKeepJobs(w, k, stats, failed);
    case LoseWorker(k) => WorkersKeepJobs(w, k, NO_STATS, false);
    case PutSourceEntry(e) =>
      NextKeepsSound(w.book, SourcePut(e));
      JobsStaySound(w, Act(w, a));
  }

  lemma ClaimKeepsBook(w: World, k: JobKey)
    ensures Claim(w, k).book == w.book
  {
  }

  lemma FinishKeepsBook(w: World, k: JobKey, stats: Stats, failed: bool)
    ensures Finish(w, k, stats, failed).book == w.book
  {
  }

  // ----- jobs

  function Progress(status: JobStatus): nat {
    match status
    case Queued => 0
    case Running => 1
    case _ => 2
  }

  /** A stored job keeps its range and scope, and its status stays or moves one place forward. */
  lemma JobsMoveForward(w: World, a: Action, k: JobKey)
    requires Safe(w) && k in w.jobs
    ensures var w' := Act(w, a);
            && k in w'.jobs && w'.jobs[k].(status := w.jobs[k].status, stats := w.jobs[k].stats) == w.jobs[k]
            && (w'.jobs[k] == w.jobs[k] || Progress(w'.jobs[k].status) == Progress(w.jobs[k].status) + 1)
  {
    hide HandleCreateSettlement, HandleUpdateSettlement, HandleCreateAdjustment, HandleChangeMode, HandleClosePeriod, Next, Sound;
  }

  ghost predicate Stepped(ws: seq<World>, acts: seq<Action>, i: nat)
    requires |ws| == |acts| + 1 && i < |acts|
  {
    StampsDiffer(ws[i].book.entries) && ws[i + 1] == Act(ws[i], acts[i])
  }

  ghost predicate IsHistory(ws: seq<World>, acts: seq<Action>) {
    && |ws| == |acts| + 1
    && ws[0].book == EMPTY_BOOK && ws[0].jobs == map[] && ws[0].working == {} && ws[0].periods == {} && ws[0].modes == map[]
    && forall i {:trigger Stepped(ws, acts, i)} :: 0 <= i < |acts| ==> Stepped(ws, acts, i)
  }

  lemma {:induction false} HistoryStaysSafe(ws: seq<World>, acts: seq<Action>, i: nat)
    requires IsHistory(ws, acts) && i <= |acts|
    ensures Safe(ws[i])
  {
    hide Act, Safe;
    if i == 0 {
      StartIsSafe(ws[0]);
    } else {
      HistoryStaysSafe(ws, acts, i - 1);
      assert Stepped(ws, acts, i - 1);
      ActKeepsSafe(ws[i - 1], acts[i - 1]);
    }
  }

  lemma StartIsSafe(w: World)
    requires w.book == EMPTY_BOOK && w.jobs == map[] && w.working == {} && w.periods == {}
    ensures Safe(w)
  {
    NothingIsSound();
  }

  lemma JobAdvances(ws: seq<World>, acts: seq<Action>, i: nat, k: JobKey)
    requires IsHistory(ws, acts) && i < |acts| && k in ws[i].jobs
    ensures k in ws[i + 1].jobs && Progress(ws[i].jobs[k].status) <= Progress(ws[i + 1].jobs[k].status)
  {
    HistoryStaysSafe(ws, acts, i);
    assert Stepped(ws, acts, i);
    JobsMoveForward(ws[i], acts[i], k);
  }

  lemma {:induction false} JobProgress(ws: seq<World>, acts: seq<Action>, i: nat, j: nat, k: JobKey)
    requires IsHistory(ws, acts) && i <= j <= |acts| && k in ws[i].jobs
    ensures k in ws[j].jobs && Progress(ws[i].jobs[k].status) <= Progress(ws[j].jobs[k].status)
    decreases j
  {
    if i < j {
      JobProgress(ws, acts, i, j - 1, k);
      JobAdvances(ws, acts, j - 1, k);
    }
  }

  /** Action `i` hands job `k` to a worker. */
  ghost predicate Claims(ws: seq<World>, acts: seq<Action>, i: nat, k: JobKey)
    requires |ws| == |acts| + 1 && i < |acts|
  {
    k in ws[i].jobs && k in ws[i + 1].jobs && ws[i].jobs[k].status == Queued && ws[i + 1].jobs[k].status == Running
  }

  /** Two rebuild workers never process the same job. */
  lemma JobsAreClaimedOnce(ws: seq<World>, acts: seq<Action>, i: nat, j: nat, k: JobKey)
    requires IsHistory(ws, acts) && i < |acts| && j < |acts|
    requires Claims(ws, acts, i, k) && Claims(ws, acts, j, k)
    ensures i == j
  {
    if i < j {
      JobProgress(ws, acts, i + 1, j, k);
    } else if j < i {
      JobProgress(ws, acts, j + 1, i, k);
    }
  }

  // ----- closed periods

  /** A payout or edit changes no entry outside its office and window. */
  lemma PaymentSparesOthers(b: Book, office: Id, w: Window, allocs: seq<Allocation>, editing: bool, k: EntryKey)
    requires DistinctEntries(allocs) && k in b.entries
    requires forall i :: 0 <= i < |allocs| ==> AllocationSound(b.entries, office, w, allocs[i])
    requires !InWindow(b.entries[k], office, w)
    ensures k in Post(b.entries, allocs, editing) && Post(b.entries, allocs, editing)[k] == b.entries[k]
  {
    forall i | 0 <= i < |allocs| ensures allocs[i].entry != k {
      assert AllocationSound(b.entries, office, w, allocs[i]);
    }
    PostAt(b.entries, allocs, editing, k);
  }

  lemma AllocateSparesOthers(b: Book, req: Request, k: EntryKey)
    requires Sound(b) && req.amount > 0 && Allocate(b, req).Ok? && k in b.entries
    requires !InWindow(b.entries[k], req.id.office, req.window)
    ensures k in Allocate(b, req).value.entries && Allocate(b, req).value.entries[k] == b.entries[k]
  {
    if req.id !in b.settlements {
      PendingIsAffordable(b, req.id.office, req.window, req.selected, req.amount);
      var allocs := BuildAllocations(PendingDocuments(b, req.id.office, req.window, req.selected), req.amount).value;
      PaymentSparesOthers(b, req.id.office, req.window, allocs, false, k);
    }
  }

  lemma ReversalSparesOthers(b: Book, id: SettlementKey, k: EntryKey)
    requires Sound(b) && id in b.settlements && k in b.entries
    requires !InWindow(b.entries[k], id.office, b.settlements[id].window)
    ensures k in Unsettle(b, id).entries && Unsettle(b, id).entries[k] == b.entries[k]
  {
    var s := b.settlements[id];
    assert SettlementSound(b.entries, s) && s.id == id;
    ReversalFacts(s.allocations, k);
    forall i | 0 <= i < |s.allocations| ensures s.allocations[i].entry != k {
      assert AllocationSound(b.entries, id.office, s.window, s.allocations[i]);
    }
    PostAt(b.entries, Reversal(s.allocations), true, k);
  }

  lemma UpdateSparesOthers(b: Book, id: SettlementKey, amount: int, details: Details, k: EntryKey)
    requires Sound(b) && amount > 0 && id in b.settlements && Update(b, id, amount, details).Ok? && k in b.entries
    requires !InWindow(b.entries[k], id.office, b.settlements[id].window)
    ensures k in Update(b, id, amount, details).value.entries && Update(b, id, amount, details).value.entries[k] == b.entries[k]
  {
    var s := b.settlements[id];
    if amount != s.amount {
      var open := Unsettle(b, id);
      UnsettleKeepsSound(b, id);
      ReversalSparesOthers(b, id, k);
      PendingIsAffordable(open, id.office, s.window, [], amount);
      var allocs := BuildAllocations(PendingDocuments(open, id.office, s.window, []), amount).value;
      PaymentSparesOthers(open, id.office, s.window, allocs, true, k);
    }
  }

  lemma ClosedDateIsOutside(w: World, e: Entry, office: Id, win: Window)
    requires DateClosed(w.periods, e.id.office, e.date) && !ClosedPeriodOverlap(w.periods, office, win.start, win.end)
    ensures !InWindow(e, office, win)
  {
    var p :| p in w.periods && p.office == e.id.office && Within(e.date, p.start, p.end);
    if InWindow(e, office, win) {
      assert Overlaps(p.start, p.end, win.start, win.end);
    }
  }

  lemma IdIsKey(b: Book, k: EntryKey)
    requires Sound(b) && k in b.entries
    ensures b.entries[k].id == k && StampsDiffer(b.entries)
  {
  }

  lemma PaymentSparesClosed(w: World, req: Request, k: EntryKey)
    requires Safe(w) && k in w.book.entries && DateClosed(w.periods, k.office, w.book.entries[k].date)
    ensures var w' := HandleCreateSettlement(w, req).0; k in w'.book.entries && w'.book.entries[k] == w.book.entries[k]
  {
    hide Allocate, Sound, JobsSound, DateClosed, InWindow, ClosedPeriodOverlap, ActiveRebuildOverlap, StampsDiffer;
    IdIsKey(w.book, k);
    if HandleCreateSettlement(w, req).1 == Changed {
      ClosedDateIsOutside(w, w.book.entries[k], req.id.office, req.window);
      AllocateSparesOthers(w.book, req, k);
    }
  }

  lemma EditSparesClosed(w: World, id: SettlementKey, amount: int, details: Details, k: EntryKey)
    requires Safe(w) && k in w.book.entries && DateClosed(w.periods, k.office, w.book.entries[k].date)
    ensures var w' := HandleUpdateSettlement(w, id, amount, details).0; k in w'.book.entries && w'.book.entries[k] == w.book.entries[k]
  {
    hide Update, Sound, JobsSound, DateClosed, InWindow, ClosedPeriodOverlap, ActiveRebuildOverlap, StampsDiffer;
    IdIsKey(w.book, k);
    if HandleUpdateSettlement(w, id, amount, details).1 == Changed {
      ClosedDateIsOutside(w, w.book.entries[k], id.office, w.book.settlements[id].window);
      UpdateSparesOthers(w.book, id, amount, details, k);
    }
  }

  lemma AdjustmentSparesOthers(w: World, c: Correction, k: EntryKey)
    requires k in w.book.entries
    ensures var w' := HandleCreateAdjustment(w, c).0; k in w'.book.entries && w'.book.entries[k] == w.book.entries[k]
  {
  }

  /** Nothing but a source write touches an entry dated in a closed period. */
  lemma ClosedEntriesStay(w: World, a: Action, k: EntryKey)
    requires Safe(w) && !a.PutSourceEntry?
    requires k in w.book.entries && DateClosed(w.periods, k.office, w.book.entries[k].date)
    ensures k in Act(w, a).book.entries && Act(w, a).book.entries[k] == w.book.entries[k]
  {
    hide Safe, DateClosed, HandleQueueRebuild, HandleClosePeriod, HandleCreateSettlement, HandleUpdateSettlement,
         HandleCreateAdjustment, HandleChangeMode, Next;
    match a
    case CreateSettlement(req) => PaymentSparesClosed(w, req, k);
    case UpdateSettlement(id, amount, details) => EditSparesClosed(w, id, amount, details, k);
    case CreateAdjustment(c) => AdjustmentSparesOthers(w, c, k);
    case _ =>
  }

  /** The document is stored in both or neither, changed at most in what is settled. */
  ghost predicate SameDocument(m: Entries, m': Entries, k: EntryKey) {
    (k in m <==> k in m') && (k in m ==> SameButSettled(m[k], m'[k]))
  }

  lemma PostKeepsDocument(m: Entries, allocs: seq<Allocation>, editing: bool, k: EntryKey)
    ensures SameDocument(m, Post(m, allocs, editing), k)
  {
    PostKeeps(m, allocs, editing);
  }

  lemma PaymentKeepsDocument(w: World, req: Request, k: EntryKey)
    requires StampsDiffer(w.book.entries)
    ensures SameDocument(w.book.entries, HandleCreateSettlement(w, req).0.book.entries, k)
  {
    hide BuildAllocations, PendingDocuments, Post, StampsDiffer;
    var r := BuildAllocations(PendingDocuments(w.book, req.id.office, req.window, req.selected), req.amount);
    if r.Ok? {
      PostKeepsDocument(w.book.entries, r.value, false, k);
    }
  }

  lemma SameDocumentTwice(m0: Entries, m1: Entries, m2: Entries, k: EntryKey)
    requires SameDocument(m0, m1, k) && SameDocument(m1, m2, k)
    ensures SameDocument(m0, m2, k)
  {
  }

  lemma ReallocationKeepsDocument(b: Book, id: SettlementKey, amount: int, details: Details, k: EntryKey)
    requires StampsDiffer(b.entries) && Update(b, id, amount, details).Ok?
    ensures SameDocument(b.entries, Update(b, id, amount, details).value.entries, k)
  {
    var s := b.settlements[id];
    if amount != s.amount {
      var open := Unsettle(b, id);
      PostKeeps(b.entries, Reversal(s.allocations), true);
      var allocs := BuildAllocations(PendingDocuments(open, id.office, s.window, []), amount).value;
      assert Update(b, id, amount, details).value.entries == Post(open.entries, allocs, true);
      PostKeepsDocument(b.entries, Reversal(s.allocations), true, k);
      PostKeepsDocument(open.entries, allocs, true, k);
      SameDocumentTwice(b.entries, open.entries, Post(open.entries, allocs, true), k);
    }
  }

  lemma EditKeepsDocument(w: World, id: SettlementKey, amount: int, details: Details, k: EntryKey)
    requires StampsDiffer(w.book.entries)
    ensures SameDocument(w.book.entries, HandleUpdateSettlement(w, id, amount, details).0.book.entries, k)
  {
    if Update(w.book, id, amount, details).Ok? {
      ReallocationKeepsDocument(w.book, id, amount, details, k);
    }
  }

  lemma AdjustmentIsOpenDated(w: World, c: Correction, k: EntryKey)
    requires k in HandleCreateAdjustment(w, c).0.book.entries && k !in w.book.entries
    ensures !DateClosed(w.periods, k.office, HandleCreateAdjustment(w, c).0.book.entries[k].date)
  {
  }

  lemma AllocationsLeaveDocument(w: World, a: Action, k: EntryKey)
    requires StampsDiffer(w.book.entries) && !a.PutSourceEntry? && !a.CreateAdjustment?
    ensures SameDocument(w.book.entries, Act(w, a).book.entries, k)
  {
    match a
    case CreateSettlement(req) => PaymentKeepsDocument(w, req, k);
    case UpdateSettlement(id, amount, details) => EditKeepsDocument(w, id, amount, details, k);
    case _ =>
  }

  /** Nothing but a source write moves an entry or adds one dated in a closed period. */
  lemma ClosedDatesGainNothing(w: World, a: Action, k: EntryKey)
    requires Safe(w) && !a.PutSourceEntry? && k in Act(w, a).book.entries
    ensures k in w.book.entries ==> Act(w, a).book.entries[k].date == w.book.entries[k].date
    ensures k !in w.book.entries ==> !DateClosed(w.periods, k.office, Act(w, a).book.entries[k].date)
  {
    if a.CreateAdjustment? {
      if k in w.book.entries {
        AdjustmentSparesOthers(w, a.correction, k);
      } else {
        AdjustmentIsOpenDated(w, a.correction, k);
      }
    } else {
      AllocationsLeaveDocument(w, a, k);
    }
  }

  lemma PeriodsStayClosed(w: World, a: Action)
    requires StampsDiffer(w.book.entries)
    ensures w.periods <= Act(w, a).periods
  {
  }

  lemma ClosedMeansClosed(some: set<Period>, all: set<Period>, office: Id, date: DateKey)
    requires some <= all && DateClosed(some, office, date)
    ensures DateClosed(all, office, date)
  {
  }

  /** The entry lies in one of these closed periods. */
  ghost predicate Covered(m: Entries, periods: set<Period>, k: EntryKey) {
    k in m && DateClosed(periods, k.office, m[k].date)
  }

  lemma CoveredStep(w: World, a: Action, periods: set<Period>, k: EntryKey)
    requires Safe(w) && !a.PutSourceEntry? && periods <= w.periods
    ensures Covered(w.book.entries, periods, k) <==> Covered(Act(w, a).book.entries, periods, k)
    ensures Covered(w.book.entries, periods, k) ==> Act(w, a).book.entries[k] == w.book.entries[k]
  {
    if Covered(w.book.entries, periods, k) {
      ClosedMeansClosed(periods, w.periods, k.office, w.book.entries[k].date);
      ClosedEntriesStay(w, a, k);
    }
    var m' := Act(w, a).book.entries;
    if k in m' {
      ClosedDatesGainNothing(w, a, k);
      if DateClosed(periods, k.office, m'[k].date) {
        ClosedMeansClosed(periods, w.periods, k.office, m'[k].date);
      }
    }
  }

  ghost predicate NoPuts(acts: seq<Action>, i: nat, j: nat) {
    forall t :: i <= t < j && t < |acts| ==> !acts[t].PutSourceEntry?
  }

  lemma FrozenStep(ws: seq<World>, acts: seq<Action>, j: nat, periods: set<Period>, k: EntryKey)
    requires IsHistory(ws, acts) && j < |acts| && !acts[j].PutSourceEntry? && periods <= ws[j].periods
    ensures ws[j].periods <= ws[j + 1].periods
    ensures Covered(ws[j].book.entries, periods, k) <==> Covered(ws[j + 1].book.entries, periods, k)
    ensures Covered(ws[j].book.entries, periods, k) ==> ws[j + 1].book.entries[k] == ws[j].book.entries[k]
  {
    hide Act, Safe, Covered;
    HistoryStaysSafe(ws, acts, j);
    assert Stepped(ws, acts, j);
    PeriodsStayClosed(ws[j], acts[j]);
    CoveredStep(ws[j], acts[j], periods, k);
  }

  /** Between source writes, a closed period's entries are the same set of unchanged documents. */
  lemma {:induction false} ClosedPeriodsAreFrozen(ws: seq<World>, acts: seq<Action>, i: nat, j: nat, k: EntryKey)
    requires IsHistory(ws, acts) && i <= j <= |acts| && NoPuts(acts, i, j)
    ensures ws[i].periods <= ws[j].periods
    ensures Covered(ws[i].book.entries, ws[i].periods, k) <==> Covered(ws[j].book.entries, ws[i].periods, k)
    ensures Covered(ws[i].book.entries, ws[i].periods, k) ==> ws[j].book.entries[k] == ws[i].book.entries[k]
    decreases j
  {
    if i < j {
      hide IsHistory, Covered;
      ClosedPeriodsAreFrozen(ws, acts, i, j - 1, k);
      FrozenStep(ws, acts, j - 1, ws[i].periods, k);
    }
  }

  // ----- promotions

  /** This action, taken here, promotes the office over this range after a ready audit. */
  ghost predicate AuditedPromotion(w: World, a: Action, office: Id, range: (DateKey, DateKey)) {
    && a.ChangeMode? && a.request == ModeRequest(office, Authoritative, range.0, range.1)
    && ValidRange(range.0, range.1)
    && AuditReady(w.book.entries, a.data, office, range.0, range.1)
    && !ActiveRebuildOverlap(w.jobs, office, range.0, range.1)
  }

  function HistoryOf(w: World, office: Id): seq<ModeChange> {
    ModeOf(w.modes, w.defaultMode, office).history
  }

  /** This step made the office's `h`-th history entry, a promotion after a ready audit of its range. */
  ghost predicate PromotedBy(w: World, a: Action, w': World, office: Id, h: nat, change: ModeChange) {
    && change.verified.Some? && AuditedPromotion(w, a, office, change.verified.value)
    && |HistoryOf(w, office)| == h && HistoryOf(w', office) == HistoryOf(w, office) + [change]
  }

  /** Every recorded switch to authoritative was made by such a step. */
  ghost predicate PromotionsAudited(ws: seq<World>, acts: seq<Action>, w: World, i: nat)
    requires |ws| == |acts| + 1 && i <= |acts|
  {
    forall office, h :: 0 <= h < |HistoryOf(w, office)| && HistoryOf(w, office)[h].mode == Authoritative ==>
      exists t :: 0 <= t < i && PromotedBy(ws[t], acts[t], ws[t + 1], office, h, HistoryOf(w, office)[h])
  }

  /** The action appends one change to an office's history, a promotion only after such an audit. */
  ghost predicate RecordsChange(w: World, a: Action, office: Id, change: ModeChange, modes: Modes) {
    && modes == w.modes[office := ModeState(change.mode, ModeOf(w.modes, w.defaultMode, office).history + [change])]
    && (change.mode == Authoritative ==> change.verified.Some? && AuditedPromotion(w, a, office, change.verified.value))
  }

  lemma ModesChangeByRequest(w: World, a: Action)
    requires StampsDiffer(w.book.entries)
    ensures Act(w, a).modes == w.modes
            || exists office: Id, change: ModeChange :: RecordsChange(w, a, office, change, Act(w, a).modes)
  {
    hide HandleCreateSettlement, HandleUpdateSettlement, HandleCreateAdjustment, HandleQueueRebuild, HandleClosePeriod, Next, AuditReady, ActiveRebuildOverlap;
    if a.ChangeMode? && HandleChangeMode(w, a.request, a.data).1 == Changed {
      var q := a.request;
      var change := ModeChange(ModeOf(w.modes, w.defaultMode, q.office).mode, q.mode, if q.mode == Shadow then None else Some((q.start, q.end)));
      assert RecordsChange(w, a, q.office, change, Act(w, a).modes);
    }
  }

  /** Every promotion the API ever recorded saw, in the very step that recorded it, a ready audit
      and no overlapping rebuild. */
  lemma {:induction false} PromotionsSawReadyAudits(ws: seq<World>, acts: seq<Action>, i: nat)
    requires IsHistory(ws, acts) && i <= |acts|
    ensures PromotionsAudited(ws, acts, ws[i], i)
  {
    if i > 0 {
      PromotionsSawReadyAudits(ws, acts, i - 1);
      PromotionStep(ws, acts, i - 1);
    }
  }

  lemma PromotionStep(ws: seq<World>, acts: seq<Action>, i: nat)
    requires IsHistory(ws, acts) && i < |acts| && PromotionsAudited(ws, acts, ws[i], i)
    ensures PromotionsAudited(ws, acts, ws[i + 1], i + 1)
  {
    hide Act, AuditedPromotion;
    assert Stepped(ws, acts, i);
    var w := ws[i + 1];
    forall office, h | 0 <= h < |HistoryOf(w, office)| && HistoryOf(w, office)[h].mode == Authoritative
      ensures exists t :: 0 <= t < i + 1 && PromotedBy(ws[t], acts[t], ws[t + 1], office, h, HistoryOf(w, office)[h])
    {
      var change := HistoryOf(w, office)[h];
      HistoryGrows(ws[i], acts[i], office);
      if h < |HistoryOf(ws[i], office)| {
        assert HistoryOf(ws[i], office)[h] == change;
        var t :| 0 <= t < i && PromotedBy(ws[t], acts[t], ws[t + 1], office, h, change);
      } else {
        assert PromotedBy(ws[i], acts[i], w, office, h, change);
      }
    }
  }

  /** A step leaves an office's history or appends one change, a promotion only after such an audit. */
  lemma HistoryGrows(w: World, a: Action, office: Id)
    requires StampsDiffer(w.book.entries)
    ensures var before, after := HistoryOf(w, office), HistoryOf(Act(w, a), office);
            after == before
            || (|after| == |before| + 1 && after[..|before|] == before
                && (after[|before|].mode == Authoritative ==> PromotedBy(w, a, Act(w, a), office, |before|, after[|before|])))
  {
    hide Act, AuditedPromotion;
    ModesChangeByRequest(w, a);
    DefaultStays(w, a);
  }

  lemma DefaultStays(w: World, a: Action)
    requires StampsDiffer(w.book.entries)
    ensures Act(w, a).defaultMode == w.defaultMode
  {
  }

  // ----- one verdict per ledger

  lemma ExpectedSplits(data: SourceData, office: Id, start: DateKey, end: DateKey, order: seq<Id>, k: AuditKey)
    requires ExpectedOf(data, office, start, end, order).Some? && IsIteration(order, TargetMap(data.targets))
    ensures var all, targets := LoadOrders(data.orders, office, MonthStart(start), MonthEnd(end)), TargetMap(data.targets);
            var x, os := ExpectedOf(data, office, start, end, order).value, ExpectedOrders(all, targets, start, end, all);
            var ts, bs, rs := ExpectedTrips(start, end, LoadTrips(data, office, start, end)), ExpectedBeauticianAwards(data), ExpectedRiderAwards(data);
            && x.missing == os.missing + ts.missing + bs.missing + rs.missing
            && SumAt(x.amounts, k) == SumAt(os.amounts, k) + SumAt(ts.amounts, k) + SumAt(bs.amounts, k) + SumAt(rs.amounts, k)
                 + (if k.worker in targets then SumAt(ExpectedBonus(all, targets, end, data.target2Bonus, k.worker).amounts, k) else 0)
  {
    var all, targets := LoadOrders(data.orders, office, MonthStart(start), MonthEnd(end)), TargetMap(data.targets);
    var os, ws := ExpectedOrders(all, targets, start, end, all), ExpectedBonuses(all, targets, end, data.target2Bonus, order);
    var side := ExpectedOrderSide(data, office, start, end, order);
    var ts, bs, rs := ExpectedTrips(start, end, LoadTrips(data, office, start, end)), ExpectedBeauticianAwards(data), ExpectedRiderAwards(data);
    ExpectedBonusAt(all, targets, end, data.target2Bonus, order, k);
    SumAtConcat(os.amounts, ws.amounts, k);
    SumAtConcat(side.amounts, ts.amounts, k);
    SumAtConcat(Plus(side, ts).amounts, bs.amounts, k);
    SumAtConcat(Plus(Plus(side, ts), bs).amounts, rs.amounts, k);
  }

  lemma ReadsWeighAlike(a: seq<Entry>, b: seq<Entry>, m: Entries, office: Id, start: DateKey, end: DateKey, k: AuditKey)
    requires IsLedgerRead(a, m, office, start, end) && IsLedgerRead(b, m, office, start, end)
    ensures SumAt(LedgerAmounts(a, start, end), k) == SumAt(LedgerAmounts(b, start, end), k)
  {
    var seen := map j | j in m && AuditReads(m[j], office, start, end) :: m[j];
    LedgerSum(a, start, end, k);
    LedgerSum(b, start, end, k);
    ListWeighsMap(a, seen, Weight(start, end, k));
    ListWeighsMap(b, seen, Weight(start, end, k));
  }

  lemma SameSides(m: Entries, data: SourceData, office: Id, start: DateKey, end: DateKey, order: seq<Id>, read: seq<Entry>,
                  order': seq<Id>, read': seq<Entry>, k: AuditKey)
    requires IsIteration(order, TargetMap(data.targets)) && IsLedgerRead(read, m, office, start, end)
    requires IsIteration(order', TargetMap(data.targets)) && IsLedgerRead(read', m, office, start, end)
    requires AuditUsable(data, start, end)
    ensures var x, x' := ExpectedOf(data, office, start, end, order).value, ExpectedOf(data, office, start, end, order').value;
            && x.missing == x'.missing && SumAt(x.amounts, k) == SumAt(x'.amounts, k)
            && SumAt(LedgerAmounts(read, start, end), k) == SumAt(LedgerAmounts(read', start, end), k)
  {
    ExpectedSplits(data, office, start, end, order, k);
    ExpectedSplits(data, office, start, end, order', k);
    ReadsWeighAlike(read, read', m, office, start, end, k);
  }

  lemma SameVerdict(m: Entries, data: SourceData, office: Id, start: DateKey, end: DateKey, order: seq<Id>, read: seq<Entry>,
                    order': seq<Id>, read': seq<Entry>)
    requires IsIteration(order, TargetMap(data.targets)) && IsLedgerRead(read, m, office, start, end)
    requires IsIteration(order', TargetMap(data.targets)) && IsLedgerRead(read', m, office, start, end)
    requires AuditUsable(data, start, end)
    requires Agrees(ExpectedOf(data, office, start, end, order).value, LedgerAmounts(read, start, end))
    ensures Agrees(ExpectedOf(data, office, start, end, order').value, LedgerAmounts(read', start, end))
  {
    var x, x' := ExpectedOf(data, office, start, end, order).value, ExpectedOf(data, office, start, end, order').value;
    forall k ensures SumAt(x'.amounts, k) == SumAt(LedgerAmounts(read', start, end), k) && x'.missing == x.missing {
      SameSides(m, data, office, start, end, order, read, order', read', k);
      assert SumAt(x.amounts, k) == SumAt(LedgerAmounts(read, start, end), k);
    }
    assert SumAt(x'.amounts, BonusKeyOf(NIL_ID)) == SumAt(LedgerAmounts(read', start, end), BonusKeyOf(NIL_ID));
  }

  /** Whatever order the maps and the ledger are read in, the audit reaches the same verdict. */
  lemma AuditReadyIsDetermined(m: Entries, data: SourceData, office: Id, start: DateKey, end: DateKey, order: seq<Id>, read: seq<Entry>)
    requires IsIteration(order, TargetMap(data.targets)) && IsLedgerRead(read, m, office, start, end)
    ensures AuditReady(m, data, office, start, end) <==>
            ExpectedOf(data, office, start, end, order).Some?
            && Agrees(ExpectedOf(data, office, start, end, order).value, LedgerAmounts(read, start, end))
  {
    if AuditReady(m, data, office, start, end) {
      var order0: seq<Id>, read0: seq<Entry> :|
        && IsIteration(order0, TargetMap(data.targets)) && IsLedgerRead(read0, m, office, start, end)
        && ExpectedOf(data, office, start, end, order0).Some?
        && Agrees(ExpectedOf(data, office, start, end, order0).value, LedgerAmounts(read0, start, end));
      SameVerdict(m, data, office, start, end, order0, read0, order, read);
    }
  }
}
