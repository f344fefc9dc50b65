/** The documents of the earnings ledger (`internal/earnings/types.go`) and the comparison
    the source writers use.

    A ledger entry is stored under its unique (office, idempotency key) pair. Entries are
    never deleted and never change that pair, so the pair also stands for the entry's
    ObjectID; `stamp` orders entries as (created_at, _id) does. */
module Ledger {
  import opened Wrappers
  import opened Dates
  import opened Ranking

  const NIL_ID: Id := 0

  datatype Component =
    | SpecialCommission | GeneralCommission | UpgradeCommission
    | TripCommission | Petrol
    | TargetBonus | LeaderboardBonus
    | CommissionAdjustment | PetrolAdjustment | ComplaintDeduction

  datatype Bucket = CommissionBucket | PetrolBucket
  datatype Status = Open | PartiallySettled | Settled | Void
  datatype WorkerType = Beautician | Rider
  datatype SourceType = Orders | Trips | Targets | Leaderboards | Manual

  /** The texts `source:<collection>:<id>:<component>:v1`, `target_bonus:<office>:<worker>:<month>:v1`,
      `leaderboard:<office>:<board>:<start>:<end>:<worker>:v1`, and any other client text. */
  datatype IdempotencyKey =
    | SourceKey(collection: SourceType, source: Id, component: Component)
    | TargetKey(worker: Id, month: int)
    | AwardKey(board: Board, start: DateKey, end: DateKey, worker: Id)
    | ClientKey(text: string)

  datatype EntryKey = EntryKey(office: Id, key: IdempotencyKey)

  /** What `configuration_version` hashes: the flat schedules in paise and the gender settings
      as `%v` prints them, which for an optional switch is its address. */
  datatype Fingerprint = Fingerprint(beauticianPaise: seq<int>, riderPaise: seq<int>,
                                     beauticianSettings: seq<(Option<nat>, seq<real>)>,
                                     riderSettings: seq<(Option<nat>, seq<real>)>)

  datatype Configuration =
    | NoConfiguration
    | TargetConfiguration(targetMonth: int, target2: real, revenue: real, bonus: real)
    | AwardConfiguration(periodStart: DateKey, periodEnd: DateKey, board: Board, rank: nat,
                         prizePaise: int, schedulePaise: seq<int>, version: Fingerprint)

  datatype Entry = Entry(
    id: EntryKey, worker: Id, workerType: WorkerType, date: DateKey,
    component: Component, bucket: Bucket, amount: int, settled: int, status: Status,
    sourceType: SourceType, sourceId: Option<Id>, version: nat, configuration: Configuration,
    stamp: nat)

  type Entries = map<EntryKey, Entry>

  /** `sameSourceEntry` */
  predicate SameSource(a: Entry, b: Entry) {
    && a.id.office == b.id.office && a.worker == b.worker && a.workerType == b.workerType
    && a.date == b.date && a.component == b.component && a.bucket == b.bucket
    && a.amount == b.amount && a.settled == b.settled && a.status == b.status
    && a.sourceType == b.sourceType && a.version == b.version && a.configuration == b.configuration
  }

  /** An entry without its place in creation order. */
  function Content(e: Entry): Entry {
    e.(stamp := 0)
  }

  function Outstanding(e: Entry): int {
    e.amount - e.settled
  }

  /** `settlementEntryStatus` */
  function StatusFor(amount: int, settled: int): Status {
    if settled == amount then Settled else if settled == 0 then Open else PartiallySettled
  }

  datatype Allocation = Allocation(entry: EntryKey, amount: int)

  function AllocationTotal(allocs: seq<Allocation>): int {
    if allocs == [] then 0 else AllocationTotal(allocs[..|allocs| - 1]) + allocs[|allocs| - 1].amount
  }

  /** What a list of allocations pays to one entry. */
  function AllocatedTo(allocs: seq<Allocation>, k: EntryKey): int {
    if allocs == [] then 0
    else
      var a := allocs[|allocs| - 1];
      AllocatedTo(allocs[..|allocs| - 1], k) + (if a.entry == k then a.amount else 0)
  }

  predicate Mentions(allocs: seq<Allocation>, k: EntryKey) {
    exists i :: 0 <= i < |allocs| && allocs[i].entry == k
  }

  ghost predicate DistinctEntries(allocs: seq<Allocation>) {
    forall i, j :: 0 <= i < j < |allocs| ==> allocs[i].entry != allocs[j].entry
  }

  lemma SnocFacts(allocs: seq<Allocation>, a: Allocation, k: EntryKey)
    ensures AllocationTotal(allocs + [a]) == AllocationTotal(allocs) + a.amount
    ensures AllocatedTo(allocs + [a], k) == AllocatedTo(allocs, k) + (if a.entry == k then a.amount else 0)
    ensures Mentions(allocs + [a], k) <==> Mentions(allocs, k) || a.entry == k
    ensures DistinctEntries(allocs + [a]) <==> DistinctEntries(allocs) && !Mentions(allocs, a.entry)
  {
    var all := allocs + [a];
    assert all[..|allocs|] == allocs;
    assert all[|allocs|] == a;
    assert forall i :: 0 <= i < |allocs| ==> all[i] == allocs[i];
    if Mentions(allocs, k) {
      var i :| 0 <= i < |allocs| && allocs[i].entry == k;
      assert all[i].entry == k;
    }
  }

  lemma {:induction false} UnmentionedGetsNothing(allocs: seq<Allocation>, k: EntryKey)
    requires !Mentions(allocs, k)
    ensures AllocatedTo(allocs, k) == 0
  {
    if allocs != [] {
      var n := |allocs| - 1;
      assert forall i :: 0 <= i < n ==> allocs[..n][i] == allocs[i];
      UnmentionedGetsNothing(allocs[..n], k);
    }
  }

  lemma {:induction false} MentionedGetsItsAmount(allocs: seq<Allocation>, i: nat)
    requires DistinctEntries(allocs) && i < |allocs|
    ensures AllocatedTo(allocs, allocs[i].entry) == allocs[i].amount
  {
    var n := |allocs| - 1;
    assert forall j :: 0 <= j < n ==> allocs[..n][j] == allocs[j];
    if i == n {
      UnmentionedGetsNothing(allocs[..n], allocs[n].entry);
    } else {
      MentionedGetsItsAmount(allocs[..n], i);
    }
  }

  lemma {:induction false} AllocationTotalConcat(a: seq<Allocation>, b: seq<Allocation>)
    ensures AllocationTotal(a + b) == AllocationTotal(a) + AllocationTotal(b)
  {
    if b == [] {
      assert a + b == a;
    } else {
      var n := |b| - 1;
      AllocationTotalConcat(a, b[..n]);
      assert (a + b)[..|a + b| - 1] == a + b[..n];
    }
  }
}
