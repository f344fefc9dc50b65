/** The repository (`internal/earnings/repository.go`): stored collections changed in place.
    Each method is proved against the step functions of the modules above. */
module Store {
  import opened Wrappers
  import opened Dates
  import opened Ledger
  import opened Ranking
  import opened Allocations
  import opened SourcePuts
  import opened Settlements
  import opened LedgerInvariant
  import opened ControlPlane

  class Repository {
    var entries: Entries
    var settlements: SettlementMap
    var jobs: Jobs
    var periods: set<Period>
    var modes: Modes
    const defaultMode: Mode
    ghost var paidAtSource: map<EntryKey, int>

    ghost function Contents(): Book
      reads this
    {
      Book(entries, settlements, paidAtSource)
    }

    ghost predicate Valid()
      reads this
    {
      Sound(Contents())
    }

    constructor (defaultMode: Mode)
      ensures this.defaultMode == defaultMode
      ensures Valid() && Contents() == EMPTY_BOOK
      ensures jobs == map[] && periods == {} && modes == map[]
    {
      this.defaultMode := defaultMode;
      entries, settlements, jobs, periods, modes := map[], map[], map[], {}, map[];
      paidAtSource := map[];
    }

    // ----- ledger entries

    /** Insert once; repair an unpaid projection in place; return a frozen one unchanged. */
    method PutSourceEntry(entry: Entry) returns (stored: Entry, created: bool)
      modifies this`entries, this`paidAtSource
      ensures entries == PutSource(old(entries), entry)
      ensures stored == entries[entry.id] && created == (entry.id !in old(entries))
      ensures Contents() == Written(old(Contents()), entries, entry.id)
      ensures old(Valid()) && Admitted(SourcePut(entry)) ==> Valid()
    {
      hide EntrySound, SettlementSound, StampsDiffer;
      ghost var before := Contents();
      if entry.id !in entries {
        stored, created := entry.(stamp := |entries|), true;
        entries := entries[entry.id := stored];
      } else {
        stored, created := entries[entry.id], false;
        if !(stored.status != Open || stored.settled != 0 || SameSource(stored, entry)) {
          stored := entry.(stamp := stored.stamp);
          entries := entries[entry.id := stored];
        }
      }
      paidAtSource := Written(before, entries, entry.id).paidAtSource;
      if Sound(before) && Admitted(SourcePut(entry)) {
        NextKeepsSound(before, SourcePut(entry));
      }
    }

    method CreateAdjustment(entry: Entry) returns (stored: Entry, created: bool)
      modifies this`entries, this`paidAtSource
      ensures entries == InsertOnce(old(entries), entry)
      ensures stored == entries[entry.id] && created == (entry.id !in old(entries))
      ensures Contents() == Written(old(Contents()), entries, entry.id)
      ensures old(Valid()) && Admitted(Adjust(entry)) ==> Valid()
    {
      hide EntrySound, SettlementSound, StampsDiffer;
      ghost var before := Contents();
      created := entry.id !in entries;
      if created {
        entries := entries[entry.id := entry.(stamp := |entries|)];
      }
      stored := entries[entry.id];
      paidAtSource := Written(before, entries, entry.id).paidAtSource;
      if Sound(before) && Admitted(Adjust(entry)) {
        NextKeepsSound(before, Adjust(entry));
      }
    }

    // ----- settlements

    /** The sorted cursor both payout operations read. */
    method FindPending(m: Entries, office: Id, w: Window, selected: seq<EntryKey>) returns (found: seq<Entry>)
      requires StampsDiffer(m)
      ensures found == PendingDocuments(Book(m, map[], map[]), office, w, selected)
    {
      hide Before, Pending, Listing, InWindow, Payable;
      PendingIsStored(m, office, w, selected);
      ghost var all := Pending(m, office, w, selected);
      var rest := Pending(m, office, w, selected);
      found := [];
      ghost var keys: seq<EntryKey> := [];
      while rest != {}
        invariant rest <= all && |keys| == |found|
        invariant forall i :: 0 <= i < |keys| ==> keys[i] in all && keys[i] !in rest && found[i] == m[keys[i]]
        invariant forall k :: k in all ==> k in rest || k in keys
        invariant forall i, j :: 0 <= i < j < |keys| ==> Before(m[keys[i]], m[keys[j]])
        invariant forall i, k :: 0 <= i < |keys| && k in rest ==> Before(m[keys[i]], m[k])
        decreases rest
      {
        var first := FirstExists(m, rest);
        var k :| k in rest && forall j :: j in rest && j != k ==> Before(m[k], m[j]);
        found, keys, rest := found + [m[k]], keys + [k], rest - {k};
      }
      ListingIs(keys, m, all);
    }

    /** The compare-and-set of one ledger update inside a transaction's working copy. */
    static method CompareAndPost(work: Entries, seen: Entry, amount: int, status: Status, openOnly: bool)
      returns (ok: bool, work': Entries)
      ensures ok <==> seen.id in work && work[seen.id].settled == seen.settled
                      && (if openOnly then Payable(work[seen.id]) else work[seen.id].status != Void)
      ensures work' == if ok then work[seen.id := work[seen.id].(settled := seen.settled + amount, status := status)] else work
    {
      ok := seen.id in work && work[seen.id].settled == seen.settled
            && (if openOnly then Payable(work[seen.id]) else work[seen.id].status != Void);
      work' := if ok then work[seen.id := work[seen.id].(settled := seen.settled + amount, status := status)] else work;
    }

    static method EntryById(es: seq<Entry>, k: EntryKey) returns (entry: Entry)
      requires exists i :: 0 <= i < |es| && es[i].id == k
      requires DistinctIds(es)
      ensures entry in es && entry.id == k
    {
      var i := 0;
      while es[i].id != k
        invariant 0 <= i < |es|
        invariant forall j :: 0 <= j < i ==> es[j].id != k
        decreases |es| - i
      {
        i := i + 1;
      }
      entry := es[i];
    }

    /** Applies allocations to a working copy, one compare-and-set per entry. */
    static method PostEach(m: Entries, es: seq<Entry>, allocs: seq<Allocation>, editing: bool)
      returns (ok: bool, work: Entries)
      requires DistinctEntries(allocs) && DistinctIds(es)
      requires forall e :: e in es ==> e.id in m && m[e.id] == e && Payable(e)
      requires forall i :: 0 <= i < |allocs| ==> exists j :: 0 <= j < |es| && es[j].id == allocs[i].entry
      ensures ok && work == Post(m, allocs, editing)
    {
      work := m;
      ok := true;
      for i := 0 to |allocs|
        invariant work == Post(m, allocs[..i], editing)
      {
        var allocation := allocs[i];
        assert allocs[..i + 1][..i] == allocs[..i];
        PostAt(m, allocs[..i], editing, allocation.entry);
        var entry := EntryById(es, allocation.entry);
        var settled := entry.settled + allocation.amount;
        var status := StatusFor(entry.amount, settled);
        if !editing && status == Open {
          status := PartiallySettled;
        }
        ok, work := CompareAndPost(work, entry, allocation.amount, status, true);
        assert ok;
      }
      assert allocs[..|allocs|] == allocs;
    }

    /** Lists what is pending, allocates the amount and posts it: the part both operations share. */
    method PayPending(ghost b: Book, m: Entries, office: Id, w: Window, selected: seq<EntryKey>, amount: int, editing: bool)
      returns (r: Result<seq<Allocation>, SettlementError>, work: Entries)
      requires Sound(b) && b.entries == m && amount > 0
      ensures var pending := PendingDocuments(b, office, w, selected);
              r == if selected != [] && |pending| != |selected| then Err(EntriesUnavailable) else BuildAllocations(pending, amount)
      ensures r.Ok? ==> work == Post(m, r.value, editing)
    {
      work := m;
      var found := FindPending(m, office, w, selected);
      if |selected| > 0 && |found| != |selected| {
        return Err(EntriesUnavailable), work;
      }
      r := Build(found, amount);
      if r.Ok? {
        DocumentsDiffer(b, office, w, selected);
        AllocationIsExact(found, amount);
        forall i | 0 <= i < |r.value| ensures exists j :: 0 <= j < |found| && found[j].id == r.value[i].entry {
          assert Mentions(r.value, r.value[i].entry);
        }
        var ok;
        ok, work := PostEach(m, found, r.value, editing);
      }
    }

    /** The body of the creating transaction. */
    method CreateSettlement(req: Request) returns (r: Result<Settlement, SettlementError>, created: bool)
      requires Valid() && req.amount > 0
      modifies this`entries, this`settlements
      ensures match Allocate(old(Contents()), req)
              case Ok(book) => Contents() == book && r == Ok(settlements[req.id]) && created == (req.id !in old(settlements))
              case Err(e) => Contents() == old(Contents()) && r == Err(e) && !created
    {
      if req.id in settlements {
        return Ok(settlements[req.id]), false;
      }
      var paid, work := PayPending(Contents(), entries, req.id.office, req.window, req.selected, req.amount, false);
      if paid.Err? {
        return Err(paid.error), false;
      }
      var settlement := Settlement(req.id, req.window, req.amount, req.details, paid.value, []);
      entries, settlements := work, settlements[req.id := settlement];
      return Ok(settlement), true;
    }

    method AllocateSettlement(req: Request) returns (r: Result<Settlement, SettlementError>, created: bool)
      requires Valid() && req.amount > 0
      modifies this`entries, this`settlements
      ensures Valid()
      ensures match Allocate(old(Contents()), req)
              case Ok(book) => Contents() == book && r == Ok(settlements[req.id]) && created == (req.id !in old(settlements))
              case Err(e) => Contents() == old(Contents()) && r == Err(e) && !created
    {
      AllocateKeepsSound(Contents(), req);
      r, created := CreateSettlement(req);
    }

    /** Reverses the stored allocations in a working copy. */
    static method ReverseEach(m: Entries, office: Id, allocs: seq<Allocation>)
      returns (ok: bool, work: Entries)
      requires DistinctEntries(allocs) && EntriesPresent(m, office, allocs)
      requires forall k :: k in m ==> m[k].id == k && m[k].status != Void
      ensures ok && work == Post(m, Reversal(allocs), true)
    {
      work := m;
      ok := true;
      ghost var reversal := Reversal(allocs);
      for i := 0 to |allocs|
        invariant work == Post(m, reversal[..i], true)
      {
        var allocation := allocs[i];
        assert reversal[..i + 1][..i] == reversal[..i];
        assert forall j :: 0 <= j < i ==> reversal[..i][j].entry == allocs[j].entry;
        PostAt(m, reversal[..i], true, allocation.entry);
        var entry := m[allocation.entry];
        ok, work := CompareAndPost(work, entry, -allocation.amount, StatusFor(entry.amount, entry.settled - allocation.amount), false);
        assert ok;
      }
      assert reversal[..|allocs|] == reversal;
    }

    /** Reverses a settlement's allocations and allocates the edited amount over its window. */
    method Reallocate(ghost b: Book, m: Entries, stored: Settlement, amount: int)
      returns (r: Result<seq<Allocation>, SettlementError>, work: Entries)
      requires Sound(b) && b.entries == m && stored.id in b.settlements && b.settlements[stored.id] == stored && amount > 0
      ensures StampsDiffer(Unsettle(b, stored.id).entries)
      ensures r == if !EntriesPresent(m, stored.id.office, stored.allocations) then Err(MissingEntry)
                   else BuildAllocations(PendingDocuments(Unsettle(b, stored.id), stored.id.office, stored.window, []), amount)
      ensures r.Ok? ==> work == Post(Unsettle(b, stored.id).entries, r.value, true)
    {
      UnsettleKeepsSound(b, stored.id);
      if !EntriesPresent(m, stored.id.office, stored.allocations) {
        return Err(MissingEntry), m;
      }
      assert SettlementSound(m, stored);
      NothingIsVoid(b);
      var ok, open := ReverseEach(m, stored.id.office, stored.allocations);
      r, work := PayPending(Unsettle(b, stored.id), open, stored.id.office, stored.window, [], amount, true);
    }

    /** The edited settlement and the working copy of the entries, ready to be stored. */
    method PlanRevision(ghost b: Book, m: Entries, stored: Settlement, amount: int, details: Details)
      returns (r: Result<Settlement, SettlementError>, work: Entries)
      requires Sound(b) && b.entries == m && stored.id in b.settlements && b.settlements[stored.id] == stored && amount > 0
      ensures match Update(b, stored.id, amount, details)
              case Ok(book) => r.Ok? && book == b.(entries := work, settlements := b.settlements[stored.id := r.value])
              case Err(e) => r == Err(e)
    {
      if amount == stored.amount {
        return Ok(Revised(stored, amount, details, stored.allocations)), m;
      }
      var paid;
      paid, work := Reallocate(b, m, stored, amount);
      UpdateReallocates(b, stored.id, amount, details, paid, work);
      if paid.Err? {
        return Err(paid.error), work;
      }
      r := Ok(Revised(stored, amount, details, paid.value));
    }

    /** The body of the editing transaction. */
    method ReviseSettlement(id: SettlementKey, amount: int, details: Details) returns (r: Result<Settlement, SettlementError>)
      requires Valid() && amount > 0
      modifies this`entries, this`settlements
      ensures match Update(old(Contents()), id, amount, details)
              case Ok(book) => Contents() == book && r == Ok(settlements[id])
              case Err(e) => Contents() == old(Contents()) && r == Err(e)
    {
      hide EntrySound, SettlementSound, BuildAllocations, PendingDocuments, EntriesPresent;
      if id !in settlements {
        return Err(NotFound);
      }
      assert settlements[id].id == id;
      var work;
      r, work := PlanRevision(Contents(), entries, settlements[id], amount, details);
      if r.Ok? {
        entries, settlements := work, settlements[id := r.value];
      }
    }

    method UpdateSettlement(id: SettlementKey, amount: int, details: Details) returns (r: Result<Settlement, SettlementError>)
      requires Valid() && amount > 0
      modifies this`entries, this`settlements
      ensures Valid()
      ensures match Update(old(Contents()), id, amount, details)
              case Ok(book) => Contents() == book && r == Ok(settlements[id])
              case Err(e) => Contents() == old(Contents()) && r == Err(e)
    {
      UpdateKeepsSound(Contents(), id, amount, details);
      r := ReviseSettlement(id, amount, details);
    }

    // ----- rebuild jobs, periods and modes

    method QueueRebuild(job: Job) returns (stored: Job, created: bool)
      modifies this`jobs
      ensures jobs == Enqueue(old(jobs), job)
      ensures stored == jobs[job.id] && created == (job.id !in old(jobs))
    {
      created := job.id !in jobs;
      if created {
        jobs := jobs[job.id := job.(status := Queued, requestedAt := |jobs|)];
      }
      stored := jobs[job.id];
    }

    method ClaimNextRebuild() returns (claimed: Option<Job>)
      modifies this`jobs
      ensures match claimed
              case None => NothingQueued(old(jobs)) && jobs == old(jobs)
              case Some(job) => NextQueued(old(jobs), job.id) && jobs == Started(old(jobs), job.id) && jobs[job.id] == job
      requires forall k :: k in jobs ==> jobs[k].id == k
    {
      var queued := set k | k in jobs && jobs[k].status == Queued;
      if queued == {} {
        assert forall k :: k in jobs && jobs[k].status == Queued ==> k in queued;
        return None;
      }
      var oldest :| oldest in queued;
      var rest := queued - {oldest};
      while rest != {}
        invariant oldest in queued && rest <= queued
        invariant forall k :: k in queued - rest ==> jobs[oldest].requestedAt <= jobs[k].requestedAt
        decreases rest
      {
        var k :| k in rest;
        if jobs[k].requestedAt < jobs[oldest].requestedAt {
          oldest := k;
        }
        rest := rest - {k};
      }
      assert forall k :: k in jobs && jobs[k].status == Queued ==> k in queued;
      jobs := jobs[oldest := jobs[oldest].(status := Running)];
      return Some(jobs[oldest]);
    }

    method FinishRebuild(id: JobKey, status: JobStatus, stats: Stats)
      modifies this`jobs
      ensures jobs == Finished(old(jobs), id, status, stats)
    {
      if id in jobs {
        jobs := jobs[id := jobs[id].(status := status, stats := stats)];
      }
    }

    method ClosePeriod(period: Period) returns (created: bool)
      modifies this`periods
      ensures periods == old(periods) + {period} && created == (period !in old(periods))
    {
      created := period !in periods;
      periods := periods + {period};
    }

    method SetMode(office: Id, mode: Mode, verified: Option<(DateKey, DateKey)>) returns (state: ModeState, changed: bool)
      modifies this`modes
      ensures modes == WithMode(old(modes), defaultMode, office, mode, verified)
      ensures state == ModeOf(modes, defaultMode, office) && state.mode == mode
      ensures changed <==> ModeOf(old(modes), defaultMode, office).mode != mode
    {
      var current := ModeOf(modes, defaultMode, office);
      if current.mode == mode {
        return current, false;
      }
      state := ModeState(mode, current.history + [ModeChange(current.mode, mode, verified)]);
      modes := modes[office := state];
      changed := true;
    }
  }

  lemma PendingIsStored(m: Entries, office: Id, w: Window, selected: seq<EntryKey>)
    ensures Pending(m, office, w, selected) <= m.Keys
  {
  }

  /** No step of a run voids an entry, so an edit's reversal always finds it. */
  lemma NothingIsVoid(b: Book)
    requires Sound(b)
    ensures forall k :: k in b.entries ==> b.entries[k].id == k && b.entries[k].status != Void
  {
    forall k | k in b.entries ensures b.entries[k].status != Void {
      assert EntrySound(b, k);
    }
  }
}
