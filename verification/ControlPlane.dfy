/** Rebuild jobs, closed periods and the per-office mode: the documents the earnings handlers
    guard their writes with. */
module ControlPlane {
  import opened Wrappers
  import opened Dates
  import opened Ledger
  import opened Ranking
  import opened SourcePuts

  datatype Scope = AllEarnings | Commissions | PetrolOnly | LeaderboardsOnly

  datatype JobStatus = Queued | Running | Completed | CompletedWithIssues | Failed

  datatype JobKey = JobKey(office: Id, key: string)

  /** `requestedAt` orders the queue; jobs are unique per office and idempotency key. */
  datatype Job = Job(id: JobKey, start: DateKey, end: DateKey, scope: Scope, status: JobStatus,
                     requestedAt: nat, stats: Stats)

  type Jobs = map<JobKey, Job>

  datatype PeriodKind = Weekly | Monthly

  /** Stored periods are closed; the unique index makes a period its own identity. */
  datatype Period = Period(office: Id, kind: PeriodKind, start: DateKey, end: DateKey)

  datatype Mode = Shadow | Authoritative

  datatype ModeChange = ModeChange(previous: Mode, mode: Mode, verified: Option<(DateKey, DateKey)>)

  datatype ModeState = ModeState(mode: Mode, history: seq<ModeChange>)

  type Modes = map<Id, ModeState>

  predicate Active(status: JobStatus) {
    status == Queued || status == Running
  }

  predicate ActiveRebuildOverlap(jobs: Jobs, office: Id, start: DateKey, end: DateKey) {
    exists k :: k in jobs && k.office == office && Active(jobs[k].status) && Overlaps(jobs[k].start, jobs[k].end, start, end)
  }

  predicate ClosedPeriodOverlap(periods: set<Period>, office: Id, start: DateKey, end: DateKey) {
    exists p :: p in periods && p.office == office && Overlaps(p.start, p.end, start, end)
  }

  predicate DateClosed(periods: set<Period>, office: Id, date: DateKey) {
    exists p :: p in periods && p.office == office && Within(date, p.start, p.end)
  }

  /** `validateDateRange` */
  predicate ValidRange(start: DateKey, end: DateKey) {
    ValidDate(start) && ValidDate(end) && Le(start, end)
  }

  // ----- the job queue

  function Enqueue(jobs: Jobs, job: Job): Jobs {
    if job.id in jobs then jobs else jobs[job.id := job.(status := Queued, requestedAt := |jobs|)]
  }

  /** The oldest queued job. */
  predicate NextQueued(jobs: Jobs, k: JobKey) {
    && k in jobs && jobs[k].status == Queued
    && forall j :: j in jobs && jobs[j].status == Queued ==> jobs[k].requestedAt <= jobs[j].requestedAt
  }

  predicate NothingQueued(jobs: Jobs) {
    forall k :: k in jobs ==> jobs[k].status != Queued
  }

  function Started(jobs: Jobs, k: JobKey): Jobs
    requires k in jobs
  {
    jobs[k := jobs[k].(status := Running)]
  }

  function Finished(jobs: Jobs, k: JobKey, status: JobStatus, stats: Stats): Jobs {
    if k in jobs then jobs[k := jobs[k].(status := status, stats := stats)] else jobs
  }

  /** `ProcessNext`: issues are conflicts or missing snapshots; an error overrides both. */
  function TerminalStatus(stats: Stats, failed: bool): JobStatus {
    if failed then Failed
    else if stats.conflicts > 0 || stats.missing > 0 then CompletedWithIssues
    else Completed
  }

  // ----- modes

  /** `GetModeState`: an office without a document is in the configured default mode. */
  function ModeOf(modes: Modes, fallback: Mode, office: Id): ModeState {
    if office in modes then modes[office] else ModeState(fallback, [])
  }

  /** `SetMode`: a change appends to the history; the current mode again is no change. */
  function WithMode(modes: Modes, fallback: Mode, office: Id, mode: Mode, verified: Option<(DateKey, DateKey)>): Modes {
    var current := ModeOf(modes, fallback, office);
    if current.mode == mode then modes
    else modes[office := ModeState(mode, current.history + [ModeChange(current.mode, mode, verified)])]
  }
}
