/** The way to a promotion: run the queued rebuild, then audit its range. The calculators share
    no code, and the clean end of the one is the ready report of the other. */
module Cutover {
  import opened Wrappers
  import opened Dates
  import opened Ranking
  import opened Ledger
  import opened SourcePuts
  import opened Sources
  import opened Plans
  import opened ControlPlane
  import opened RebuildPlan
  import opened RebuildFacts
  import opened AuditPlan
  import opened Audit
  import opened Processing
  import opened Reconciling

  /** A full rebuild of an office whose ledger holds no source entry yet. */
  ghost predicate FirstFullRebuild(job: Job, data: SourceData, m: Entries) {
    && job.scope == AllEarnings && ValidRange(job.start, job.end) && NoProjections(m, job.id.office)
    && IdsExist(data) && DistinctOrders(data.orders) && DistinctTrips(data.trips)
  }

  /** What `ProcessNext` promises of the job it ran. */
  ghost predicate RanJob(job: Job, p: Plan, data: SourceData, m: Entries, m': Entries, jobs: Jobs) {
    && (exists workers :: IsIteration(workers, TargetMap(data.targets)) && p == RebuildOf(job, data, workers))
    && m' == PutAll(m, p.puts)
    && job.id in jobs && jobs[job.id].status == TerminalStatus(PlanStats(m, p, NO_STATS), p.error.Some?)
  }

  /** A first full rebuild that completed leaves a ledger every audit of its range agrees with. */
  lemma CompletedRebuildAgrees(job: Job, p: Plan, data: SourceData, m: Entries, m': Entries, jobs: Jobs, order: seq<Id>, read: seq<Entry>)
    requires FirstFullRebuild(job, data, m) && RanJob(job, p, data, m, m', jobs) && jobs[job.id].status == Completed
    requires IsIteration(order, TargetMap(data.targets)) && IsLedgerRead(read, m', job.id.office, job.start, job.end)
    ensures var expected := ExpectedOf(data, job.id.office, job.start, job.end, order);
            expected.Some? && Agrees(expected.value, LedgerAmounts(read, job.start, job.end))
  {
    hide RebuildOf, PutAll, IsIteration, IsLedgerRead, NoProjections, IdsExist, ExpectedOf, Agrees, PlanStats;
    var workers :| IsIteration(workers, TargetMap(data.targets)) && p == RebuildOf(job, data, workers);
    CleanRebuildPassesAudit(job, data, workers, order, m, read);
  }

  lemma PutsKeepIds(m: Entries, es: seq<Entry>)
    requires forall k :: k in m ==> m[k].id == k
    ensures forall k :: k in PutAll(m, es) ==> PutAll(m, es)[k].id == k
  {
    forall k | k in PutAll(m, es) ensures PutAll(m, es)[k].id == k {
      PutIdAt(m, es, k);
    }
  }

  lemma {:induction false} PutIdAt(m: Entries, es: seq<Entry>, k: EntryKey)
    requires k in PutAll(m, es) && forall j :: j in m ==> m[j].id == j
    ensures PutAll(m, es)[k].id == k
  {
    if es != [] && k in PutAll(m, es[..|es| - 1]) {
      PutIdAt(m, es[..|es| - 1], k);
    }
  }

  predicate Covers(job: Job, office: Id, start: DateKey, end: DateKey) {
    job.id.office == office && job.start == start && job.end == end
  }

  /** Running the next job and then auditing a range over the same sources: when the job was a first
      full rebuild of that range and completed, the audit does not fail and its report is ready. */
  method RebuildThenAudit(processor: Processor, reconciler: Reconciler, data: SourceData, office: Id, start: DateKey, end: DateKey)
    returns (report: Option<Report>, ghost ran: Option<(Job, Plan)>)
    requires processor.backend == reconciler.backend
    requires forall k :: k in processor.backend.jobs ==> processor.backend.jobs[k].id == k
    requires forall k :: k in processor.backend.entries ==> processor.backend.entries[k].id == k
    modifies processor.backend`entries, processor.backend`paidAtSource, processor.backend`jobs
    ensures ran.Some? ==>
              var (job, p) := ran.value;
              && NextQueued(old(processor.backend.jobs), job.id)
              && RanJob(job, p, data, old(processor.backend.entries), processor.backend.entries, processor.backend.jobs)
              && (Covers(job, office, start, end) && FirstFullRebuild(job, data, old(processor.backend.entries)) ==>
                    processor.backend.jobs[job.id].status == Completed ==> report.Some? && report.value.ready)
  {
    hide RebuildOf, PutAll, IsIteration, IsLedgerRead, FirstFullRebuild, ExpectedOf, Agrees, PlanStats, ReportAddsUp;
    ghost var m := processor.backend.entries;
    var worked;
    worked, ran := processor.ProcessNext(data);
    if worked {
      PutsKeepIds(m, ran.value.1.puts);
    }
    ghost var order, read;
    report, order, read := reconciler.Run(data, office, start, end);
    if worked {
      ghost var (job, p) := ran.value;
      assert RanJob(job, p, data, m, processor.backend.entries, processor.backend.jobs);
      if Covers(job, office, start, end) && FirstFullRebuild(job, data, m) && processor.backend.jobs[job.id].status == Completed {
        CompletedRebuildAgrees(job, p, data, m, processor.backend.entries, processor.backend.jobs, order, read);
      }
    }
  }
}
