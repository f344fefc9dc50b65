/** The earnings handlers as the sequences of guards and store calls they are
    (`internal/earnings/http.go`), proved against the steps of `Handlers`. */
module EarningsApi {
  import opened Wrappers
  import opened Dates
  import opened Ranking
  import opened Ledger
  import opened SourcePuts
  import opened Allocations
  import opened Settlements
  import opened LedgerInvariant
  import opened Sources
  import opened ControlPlane
  import opened RebuildPlan
  import opened AuditPlan
  import opened Store
  import opened Reconciling
  import opened Steps = Handlers

  /** What the handlers share with the rebuild workers, which hold the `working` jobs. */
  ghost function WorldOf(repo: Repository, working: set<JobKey>): World
    reads repo
  {
    World(repo.Contents(), repo.jobs, working, repo.periods, repo.modes, repo.defaultMode)
  }

  lemma UsableIsExpected(data: SourceData, office: Id, start: DateKey, end: DateKey, order: seq<Id>)
    ensures ExpectedOf(data, office, start, end, order).Some? <==> AuditUsable(data, start, end)
  {
  }

  class API {
    const repo: Repository

    constructor (repo: Repository)
      ensures this.repo == repo
    {
      this.repo := repo;
    }

    method QueueRebuild(job: Job, ghost working: set<JobKey>) returns (reply: Reply)
      modifies repo`jobs
      ensures (WorldOf(repo, working), reply) == HandleQueueRebuild(old(WorldOf(repo, working)), job)
    {
      if !ValidRange(job.start, job.end) {
        return BadRequest;
      }
      if ClosedPeriodOverlap(repo.periods, job.id.office, job.start, job.end) {
        return ConflictReply;
      }
      var stored, created := repo.QueueRebuild(job);
      reply := if created then Changed else Kept;
    }

    method ClosePeriod(period: Period, ghost working: set<JobKey>) returns (reply: Reply)
      modifies repo`periods
      ensures (WorldOf(repo, working), reply) == HandleClosePeriod(old(WorldOf(repo, working)), period)
    {
      if !ValidRange(period.start, period.end) {
        return BadRequest;
      }
      if ActiveRebuildOverlap(repo.jobs, period.office, period.start, period.end) {
        return ConflictReply;
      }
      var created := repo.ClosePeriod(period);
      reply := if created then Changed else Kept;
    }

    method CreateSettlement(req: Request, ghost working: set<JobKey>) returns (reply: Reply)
      requires repo.Valid()
      modifies repo`entries, repo`settlements
      ensures repo.Valid()
      ensures (WorldOf(repo, working), reply) == HandleCreateSettlement(old(WorldOf(repo, working)), req)
    {
      hide Sound, Allocate, ClosedPeriodOverlap, ActiveRebuildOverlap;
      if !ValidRequest(req) {
        return BadRequest;
      }
      if req.id in repo.settlements {
        return Kept;
      }
      if ClosedPeriodOverlap(repo.periods, req.id.office, req.window.start, req.window.end) {
        return ConflictReply;
      }
      if ActiveRebuildOverlap(repo.jobs, req.id.office, req.window.start, req.window.end) {
        return ConflictReply;
      }
      var result, created := repo.AllocateSettlement(req);
      match result
      case Ok(_) => reply := if created then Changed else Kept;
      case Err(e) => reply := SettlementReply(e);
    }

    method UpdateSettlement(id: SettlementKey, amount: int, details: Details, ghost working: set<JobKey>) returns (reply: Reply)
      requires repo.Valid()
      modifies repo`entries, repo`settlements
      ensures repo.Valid()
      ensures (WorldOf(repo, working), reply) == HandleUpdateSettlement(old(WorldOf(repo, working)), id, amount, details)
    {
      hide Sound, Update, ClosedPeriodOverlap, ActiveRebuildOverlap;
      if !ValidDetails(amount, details) {
        return BadRequest;
      }
      if id !in repo.settlements {
        return NotFoundReply;
      }
      var existing := repo.settlements[id];
      if ClosedPeriodOverlap(repo.periods, id.office, existing.window.start, existing.window.end) {
        return ConflictReply;
      }
      if ActiveRebuildOverlap(repo.jobs, id.office, existing.window.start, existing.window.end) {
        return ConflictReply;
      }
      var result := repo.UpdateSettlement(id, amount, details);
      match result
      case Ok(_) => reply := Changed;
      case Err(e) => reply := SettlementReply(e);
    }

    method CreateAdjustment(c: Correction, ghost working: set<JobKey>) returns (reply: Reply)
      modifies repo`entries, repo`paidAtSource
      ensures (WorldOf(repo, working), reply) == HandleCreateAdjustment(old(WorldOf(repo, working)), c)
      ensures old(repo.Valid()) ==> repo.Valid()
    {
      if !ValidDate(c.date) || c.amount == 0 {
        return BadRequest;
      }
      if DateClosed(repo.periods, c.id.office, c.date) {
        return ConflictReply;
      }
      var component := CommissionAdjustment;
      if c.bucket == PetrolBucket {
        component := PetrolAdjustment;
      }
      if c.complaint {
        if c.bucket != CommissionBucket || c.amount >= 0 {
          return BadRequest;
        }
        component := ComplaintDeduction;
      }
      var stored, created := repo.CreateAdjustment(CorrectionEntry(c, component));
      reply := if created then Changed else Kept;
    }

    /** A promotion runs the audit over the ledger as it is and goes ahead only if it is ready. */
    method ChangeMode(q: ModeRequest, data: SourceData, ghost working: set<JobKey>) returns (reply: Reply)
      requires repo.Valid()
      modifies repo`modes
      ensures (WorldOf(repo, working), reply) == HandleChangeMode(old(WorldOf(repo, working)), q, data)
    {
      hide AuditReady, ExpectedOf, Agrees, IsIteration, IsLedgerRead, ActiveRebuildOverlap;
      if ModeOf(repo.modes, repo.defaultMode, q.office).mode == q.mode {
        return Kept;
      }
      var verified: Option<(DateKey, DateKey)> := None;
      if q.mode == Authoritative {
        if !ValidRange(q.start, q.end) {
          return BadRequest;
        }
        if ActiveRebuildOverlap(repo.jobs, q.office, q.start, q.end) {
          return ConflictReply;
        }
        var reconciler := new Reconciler(repo);
        var report, order, read := reconciler.Run(data, q.office, q.start, q.end);
        AuditReadyIsDetermined(repo.entries, data, q.office, q.start, q.end, order, read);
        UsableIsExpected(data, q.office, q.start, q.end, order);
        if report.None? {
          return Failure;
        }
        if !report.value.ready {
          return ConflictReply;
        }
        verified := Some((q.start, q.end));
      }
      var state, changed := repo.SetMode(q.office, q.mode, verified);
      reply := Changed;
    }
  }
}
