/** When each earnings handler refuses, when it has nothing to do and what it changes otherwise, on
    the request's fields and the stored documents. */
module HandlerLaws {
  import opened Wrappers
  import opened Dates
  import opened Ranking
  import opened Sums
  import opened Ledger
  import opened SourcePuts
  import opened Allocations
  import opened Settlements
  import opened LedgerInvariant
  import opened Sources
  import opened ControlPlane
  import opened RebuildPlan
  import opened AuditPlan
  import opened PayoutLaws
  import opened Handlers

  // ----- dates

  /** Month lengths, January first. */
  function MonthLengths(leap: bool): seq<int> {
    [31, if leap then 29 else 28, 31, 30, 31, 30, 31, 31, 30, 31, 30, 31]
  }

  /** Every fourth year is a leap year, but of the full centuries only every fourth. */
  lemma MonthLengthIs(year: int, i: nat)
    requires i < 12
    ensures LastDay(12 * year + i)
         == MonthLengths(if year % 100 == 0 then year % 400 == 0 else year % 4 == 0)[i]
  {
    assert (12 * year + i) % 12 == i && (12 * year + i) / 12 == year;
  }

  predicate RealDay(d: DateKey) {
    var year := d.month / 12;
    1 <= d.day <= MonthLengths(if year % 100 == 0 then year % 400 == 0 else year % 4 == 0)[d.month % 12]
  }

  lemma RealDayIs(d: DateKey)
    ensures ValidDate(d) <==> RealDay(d)
  {
    MonthLengthIs(d.month / 12, d.month % 12);
  }

  predicate RangeOk(start: DateKey, end: DateKey) {
    RealDay(start) && RealDay(end) && DateUpTo(start, end)
  }

  lemma RangeIs(start: DateKey, end: DateKey)
    ensures ValidRange(start, end) <==> RangeOk(start, end)
  {
    RealDayIs(start);
    RealDayIs(end);
  }

  predicate Covers(start: DateKey, end: DateKey, d: DateKey) {
    DateUpTo(start, d) && DateUpTo(d, end)
  }

  /** Two ranges overlap exactly when some day is in both. */
  lemma OverlapIs(start: DateKey, end: DateKey, start': DateKey, end': DateKey)
    requires DateUpTo(start, end) && DateUpTo(start', end')
    ensures Overlaps(start, end, start', end') <==> exists d :: Covers(start, end, d) && Covers(start', end', d)
  {
    if Overlaps(start, end, start', end') {
      var later := if DateUpTo(start, start') then start' else start;
      assert Covers(start, end, later) && Covers(start', end', later);
    }
  }

  /** The range meets a closed period of the office. */
  predicate MeetsClosed(periods: set<Period>, office: Id, start: DateKey, end: DateKey) {
    exists p :: p in periods && p.office == office && DateUpTo(p.start, end) && DateUpTo(start, p.end)
  }

  /** It meets a rebuild of the office that has not ended. */
  predicate MeetsRebuild(jobs: Jobs, office: Id, start: DateKey, end: DateKey) {
    exists k :: k in jobs && k.office == office && (jobs[k].status == Queued || jobs[k].status == Running)
                && DateUpTo(jobs[k].start, end) && DateUpTo(start, jobs[k].end)
  }

  lemma GuardsAre(w: World, office: Id, start: DateKey, end: DateKey)
    ensures ClosedPeriodOverlap(w.periods, office, start, end) <==> MeetsClosed(w.periods, office, start, end)
    ensures ActiveRebuildOverlap(w.jobs, office, start, end) <==> MeetsRebuild(w.jobs, office, start, end)
  {
  }

  // ----- rebuilds and periods

  /** A rebuild is queued at the end of the queue, once per key, unless it meets a closed period. */
  lemma QueueDecides(w: World, job: Job)
    ensures var (w', reply) := HandleQueueRebuild(w, job);
            && (reply == BadRequest <==> !RangeOk(job.start, job.end))
            && (reply == ConflictReply <==> RangeOk(job.start, job.end) && MeetsClosed(w.periods, job.id.office, job.start, job.end))
            && (reply != Changed ==> w' == w)
            && (reply == Kept ==> job.id in w.jobs)
            && (reply == Changed ==> job.id !in w.jobs
                                     && w' == w.(jobs := w.jobs[job.id := job.(status := Queued, requestedAt := |w.jobs|)]))
            && reply != NotFoundReply && reply != Failure
  {
    RangeIs(job.start, job.end);
    GuardsAre(w, job.id.office, job.start, job.end);
  }

  /** A period is closed, once, unless it meets a rebuild that has not ended. */
  lemma CloseDecides(w: World, p: Period)
    ensures var (w', reply) := HandleClosePeriod(w, p);
            && (reply == BadRequest <==> !RangeOk(p.start, p.end))
            && (reply == ConflictReply <==> RangeOk(p.start, p.end) && MeetsRebuild(w.jobs, p.office, p.start, p.end))
            && (reply != Changed ==> w' == w)
            && (reply == Kept ==> p in w.periods)
            && (reply == Changed ==> p !in w.periods && w' == w.(periods := w.periods + {p}))
            && reply != NotFoundReply && reply != Failure
  {
    RangeIs(p.start, p.end);
    GuardsAre(w, p.office, p.start, p.end);
    assert p in w.periods ==> w.periods + {p} == w.periods;
  }

  /** A worker is given a queued job that no queued one was requested before, and marks it running. */
  lemma ClaimDecides(w: World, k: JobKey)
    ensures var next := k in w.jobs && w.jobs[k].status == Queued
                        && forall j :: j in w.jobs && w.jobs[j].status == Queued ==> w.jobs[j].requestedAt >= w.jobs[k].requestedAt;
            Claim(w, k) == if next then w.(jobs := w.jobs[k := w.jobs[k].(status := Running)], working := w.working + {k}) else w
  {
  }

  /** A claimed job ends failed on an error, with issues when a put met a conflict or a snapshot was
      missing, else completed; its counters are stored. */
  lemma FinishDecides(w: World, k: JobKey, stats: Stats, failed: bool)
    requires k in w.working && k in w.jobs
    ensures var w' := Finish(w, k, stats, failed);
            && w'.(jobs := w.jobs, working := w.working) == w && w'.jobs - {k} == w.jobs - {k} && w'.working == w.working - {k}
            && k in w'.jobs && w'.jobs[k] == w.jobs[k].(status := w'.jobs[k].status, stats := stats)
            && (w'.jobs[k].status == Failed <==> failed)
            && (w'.jobs[k].status == CompletedWithIssues <==> !failed && (stats.conflicts != 0 || stats.missing != 0))
            && (w'.jobs[k].status == Completed <==> !failed && stats.conflicts == 0 && stats.missing == 0)
  {
  }

  // ----- payouts

  predicate DetailsOk(amount: int, d: Details) {
    && amount >= 1 && d.payment in ["cash", "bank_transfer", "upi", "other"] && |d.reference| <= 200 && |d.remarks| <= 500
  }

  predicate RequestOk(req: Request) {
    && RangeOk(req.window.start, req.window.end) && DetailsOk(req.amount, req.details) && |req.selected| <= 10000
    && |set k | k in req.selected| == |req.selected|
  }

  lemma {:induction false} NoDuplicatesIs(ks: seq<EntryKey>)
    ensures NoDuplicates(ks) <==> |set k | k in ks| == |ks|
    ensures |set k | k in ks| <= |ks|
  {
    if ks == [] {
      assert (set k | k in ks) == {};
    } else {
      var n := |ks| - 1;
      var init, last := ks[..n], ks[n];
      NoDuplicatesIs(init);
      forall k ensures k in ks <==> k in init || k == last {
        assert ks == init + [last];
      }
      assert (set k | k in ks) == (set k | k in init) + {last};
      assert NoDuplicates(ks) <==> NoDuplicates(init) && last !in init by {
        assert forall i :: 0 <= i < n ==> init[i] == ks[i];
      }
    }
  }

  lemma RequestIs(req: Request)
    ensures ValidRequest(req) <==> RequestOk(req)
  {
    RangeIs(req.window.start, req.window.end);
    NoDuplicatesIs(req.selected);
  }

  /** Enough is payable for the request. */
  predicate CanPay(p: Entries, req: Request, net: int) {
    (req.selected != [] ==> |p| == |req.selected|) && p != map[] && req.amount <= net
  }

  /** A payout is made unless the request is malformed, known, meets a closed period or a running
      rebuild, or asks for more than is payable. */
  lemma PayoutDecides(w: World, req: Request)
    requires Safe(w)
    ensures var (w', reply) := HandleCreateSettlement(w, req);
            var busy := MeetsClosed(w.periods, req.id.office, req.window.start, req.window.end)
                        || MeetsRebuild(w.jobs, req.id.office, req.window.start, req.window.end);
            var p := PayableOf(w.book.entries, req.id.office, req.window, req.selected);
            var enough := CanPay(p, req, MapSum(p, Lack()));
            && (reply == BadRequest <==> !RequestOk(req))
            && (reply == Kept <==> RequestOk(req) && req.id in w.book.settlements)
            && (reply == ConflictReply <==> RequestOk(req) && req.id !in w.book.settlements && (busy || !enough))
            && (reply == Changed <==> RequestOk(req) && req.id !in w.book.settlements && !busy && enough)
            && (reply != Changed ==> w' == w)
            && (reply == Changed ==> w' == w.(book := w'.book) && Allocate(w.book, req) == Ok(w'.book))
  {
    hide Sound, JobsSound, PayableOf, Allocate, RequestOk, ValidRequest;
    SoundStamps(w.book);
    RequestIs(req);
    GuardsAre(w, req.id.office, req.window.start, req.window.end);
    if RequestOk(req) && req.id !in w.book.settlements {
      AmountIsPositive(req);
      PayoutSucceedsIff(w.book, req);
      PayoutErrors(w.book, req);
    }
  }

  lemma AmountIsPositive(req: Request)
    requires RequestOk(req)
    ensures req.amount > 0
  {
  }

  lemma PayoutErrors(b: Book, req: Request)
    requires Sound(b) && req.id !in b.settlements
    ensures Allocate(b, req).Err? ==> SettlementReply(Allocate(b, req).error) == ConflictReply
  {
    hide EntrySound, SettlementSound, PendingDocuments, Payments, Deductions;
  }

  /** An edit is made unless its values are malformed, the payout unknown, its stored range meets a
      closed period or a running rebuild, or the new amount exceeds what is payable once the old
      allocations are back; one that keeps the amount changes the details only. */
  lemma EditDecides(w: World, id: SettlementKey, amount: int, details: Details)
    requires Safe(w)
    ensures var (w', reply) := HandleUpdateSettlement(w, id, amount, details);
            && (reply == BadRequest <==> !DetailsOk(amount, details))
            && (reply == NotFoundReply <==> DetailsOk(amount, details) && id !in w.book.settlements)
            && (reply == Changed ==> w' == w.(book := w'.book) && Update(w.book, id, amount, details) == Ok(w'.book))
            && (reply != Changed ==> w' == w)
            && reply != Kept
            && (DetailsOk(amount, details) && id in w.book.settlements ==>
                  var s := w.book.settlements[id];
                  var busy := MeetsClosed(w.periods, id.office, s.window.start, s.window.end)
                              || MeetsRebuild(w.jobs, id.office, s.window.start, s.window.end);
                  (reply == Changed || reply == ConflictReply) && (busy ==> reply == ConflictReply)
                  && (!busy ==> (reply == Changed <==> Update(w.book, id, amount, details).Ok?))
                  && (!busy && amount == s.amount ==>
                        reply == Changed && w'.book == w.book.(settlements := w.book.settlements[id := s.(
                          details := details, revisions := s.revisions + [Revision(s.amount, s.details, s.allocations)])])))
  {
    hide Sound, JobsSound, Update;
    SoundStamps(w.book);
    if id in w.book.settlements {
      SameAmountEdit(w.book, id, details);
      GuardsAre(w, id.office, w.book.settlements[id].window.start, w.book.settlements[id].window.end);
      if amount > 0 {
        EditErrors(w.book, id, amount, details);
      }
    }
  }

  lemma SameAmountEdit(b: Book, id: SettlementKey, details: Details)
    requires StampsDiffer(b.entries) && id in b.settlements
    ensures var s := b.settlements[id];
            Update(b, id, s.amount, details) == Ok(b.(settlements := b.settlements[id := s.(
              details := details, revisions := s.revisions + [Revision(s.amount, s.details, s.allocations)])]))
  {
  }

  lemma EditErrors(b: Book, id: SettlementKey, amount: int, details: Details)
    requires Sound(b) && id in b.settlements
    ensures Update(b, id, amount, details).Err? ==> SettlementReply(Update(b, id, amount, details).error) == ConflictReply
  {
    hide EntrySound, StampsDiffer, PendingDocuments, Payments, Deductions, Post, Settle, Unsettle, Reversal;
    AllocatedExist(b, id);
  }

  lemma AllocatedExist(b: Book, id: SettlementKey)
    requires Sound(b) && id in b.settlements
    ensures EntriesPresent(b.entries, id.office, b.settlements[id].allocations)
  {
    hide EntrySound, StampsDiffer;
    var s := b.settlements[id];
    assert SettlementSound(b.entries, s) && s.id == id;
    forall i | 0 <= i < |s.allocations| ensures s.allocations[i].entry in b.entries && s.allocations[i].entry.office == id.office {
      assert AllocationSound(b.entries, s.id.office, s.window, s.allocations[i]);
      EntryIsAtItsKey(b, s.allocations[i].entry);
    }
  }

  lemma EntryIsAtItsKey(b: Book, k: EntryKey)
    requires Sound(b) && k in b.entries
    ensures b.entries[k].id == k
  {
  }

  /** After the old allocations are taken back, an edit to another amount can be made exactly when
      something is payable in the window and the amount is at most what that lacks together. */
  lemma EditSucceedsIff(b: Book, id: SettlementKey, amount: int, details: Details) returns (open: Entries)
    requires Sound(b) && amount > 0 && id in b.settlements && amount != b.settlements[id].amount
    ensures TakenBack(b.entries, b.settlements[id].allocations, open)
    ensures var p := PayableOf(open, id.office, b.settlements[id].window, []);
            Update(b, id, amount, details).Ok? <==> p != map[] && amount <= MapSum(p, Lack())
  {
    hide EntrySound, SettlementSound, PendingDocuments, BuildAllocations, MayBePaid, NetOutstanding, PayableOf, Post, TakenBack, EntriesPresent;
    var s, rest := b.settlements[id], Unsettle(b, id);
    open := rest.entries;
    AllocatedExist(b, id);
    UnsettleKeepsSound(b, id);
    UnsettleTakesBack(b, id);
    var es := PendingDocuments(rest, id.office, s.window, []);
    PendingAre(rest, id.office, s.window, []);
    PendingCount(open, id.office, s.window, [], es);
    AllocationSucceedsIff(es, amount);
  }

  // ----- adjustments and modes

  /** A correction is entered, once per key and unpaid, unless its date is unreal or closed, its
      amount is zero, or it is a complaint that takes nothing from the commission bucket. */
  lemma AdjustmentDecides(w: World, c: Correction)
    ensures var (w', reply) := HandleCreateAdjustment(w, c);
            var closed := MeetsClosed(w.periods, c.id.office, c.date, c.date);
            var complaintOk := c.complaint ==> c.bucket == CommissionBucket && c.amount < 0;
            && (reply == BadRequest <==> !RealDay(c.date) || c.amount == 0 || (!closed && !complaintOk))
            && (reply == ConflictReply <==> RealDay(c.date) && c.amount != 0 && closed)
            && (reply != Changed ==> w'.book.entries == w.book.entries)
            && (reply == Kept ==> c.id in w.book.entries)
            && (reply == Changed ==>
                  && c.id !in w.book.entries && w'.book.entries - {c.id} == w.book.entries && c.id in w'.book.entries
                  && var e := w'.book.entries[c.id];
                     && e.id == c.id && e.worker == c.worker && e.workerType == c.workerType && e.date == c.date
                     && e.bucket == c.bucket && e.amount == c.amount && e.settled == 0 && e.status == Open && e.sourceType == Manual
                     && e.sourceId == None && e.version == 1 && e.configuration == NoConfiguration
                     && e.component == (if c.complaint then ComplaintDeduction
                                        else if c.bucket == PetrolBucket then PetrolAdjustment else CommissionAdjustment))
            && w'.book.settlements == w.book.settlements && reply != NotFoundReply && reply != Failure
  {
    RealDayIs(c.date);
    assert DateClosed(w.periods, c.id.office, c.date) <==> MeetsClosed(w.periods, c.id.office, c.date, c.date);
    if c.id !in w.book.entries && CorrectionComponent(c).Some? {
      var added := InsertOnce(w.book.entries, CorrectionEntry(c, CorrectionComponent(c).value));
      assert added - {c.id} == w.book.entries;
    }
  }

  /** The office's mode, the configured one until it was first changed. */
  predicate ModeIs(w: World, office: Id, mode: Mode, history: seq<ModeChange>) {
    if office in w.modes then w.modes[office] == ModeState(mode, history) else mode == w.defaultMode && history == []
  }

  /** A mode change is made, and recorded with the range it was verified over, unless the mode is
      already the one asked for; back to shadow always, to authoritative only over a real range
      without a running rebuild whose audit can be made and is ready. */
  lemma ModeDecides(w: World, q: ModeRequest, data: SourceData, mode: Mode, history: seq<ModeChange>)
    requires ModeIs(w, q.office, mode, history)
    ensures var (w', reply) := HandleChangeMode(w, q, data);
            var verified := AuditReady(w.book.entries, data, q.office, q.start, q.end);
            && (reply == Kept <==> mode == q.mode)
            && (reply == Changed <==>
                  (mode != q.mode
                   && (q.mode == Authoritative ==> RangeOk(q.start, q.end) && !MeetsRebuild(w.jobs, q.office, q.start, q.end) && verified)))
            && (reply == BadRequest <==> mode != q.mode && q.mode == Authoritative && !RangeOk(q.start, q.end))
            && (reply != Changed ==> w' == w)
            && (reply == Changed ==>
                  w' == w.(modes := w.modes[q.office := ModeState(q.mode, history + [
                          ModeChange(mode, q.mode, if q.mode == Shadow then None else Some((q.start, q.end)))])]))
  {
    hide AuditReady, AuditUsable, ActiveRebuildOverlap;
    RangeIs(q.start, q.end);
    GuardsAre(w, q.office, q.start, q.end);
    ReadyIsUsable(w.book.entries, data, q.office, q.start, q.end);
  }

  lemma ReadyIsUsable(m: Entries, data: SourceData, office: Id, start: DateKey, end: DateKey)
    ensures AuditReady(m, data, office, start, end) ==> AuditUsable(data, start, end)
  {
    hide IsLedgerRead, IsIteration, Agrees;
  }
}
