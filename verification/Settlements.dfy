/** Payouts: `AllocateSettlement` and `UpdateSettlement` as steps on the stored book of
    entries and settlements. */
module Settlements {
  import opened Wrappers
  import opened Dates
  import opened Ledger
  import opened Ranking
  import opened Allocations
  import opened SourcePuts
  import opened Sums

  /** The worker, bucket and inclusive date range a payout covers. */
  datatype Window = Window(worker: Id, workerType: WorkerType, bucket: Bucket, start: DateKey, end: DateKey)

  datatype Details = Details(payment: string, reference: string, remarks: string)

  datatype Revision = Revision(amount: int, details: Details, allocations: seq<Allocation>)

  datatype SettlementKey = SettlementKey(office: Id, key: string)

  datatype Settlement = Settlement(id: SettlementKey, window: Window, amount: int, details: Details,
                                   allocations: seq<Allocation>, revisions: seq<Revision>)

  /** A creation request; `selected` lists the requested entries, all pending ones when empty. */
  datatype Request = Request(id: SettlementKey, window: Window, amount: int, details: Details,
                             selected: seq<EntryKey>)

  type SettlementMap = map<SettlementKey, Settlement>

  /** `paidAtSource` is a history variable: the amount each entry's last source write or
      creation already marked as settled. The collections never read it. */
  datatype Book = Book(entries: Entries, settlements: SettlementMap, paidAtSource: map<EntryKey, int>)

  const EMPTY_BOOK := Book(map[], map[], map[])

  // ----- the pending query and its order

  predicate InWindow(e: Entry, office: Id, w: Window) {
    && e.id.office == office && e.worker == w.worker && e.workerType == w.workerType
    && e.bucket == w.bucket && Within(e.date, w.start, w.end)
  }

  predicate Payable(e: Entry) {
    e.status == Open || e.status == PartiallySettled
  }

  /** The filter both payout queries share. */
  function Pending(m: Entries, office: Id, w: Window, selected: seq<EntryKey>): set<EntryKey> {
    set k | k in m && InWindow(m[k], office, w) && Payable(m[k]) && (selected == [] || k in selected)
  }

  /** Sort order: amount, service date, creation. Deductions come first. */
  predicate Before(a: Entry, b: Entry) {
    a.amount < b.amount
    || (a.amount == b.amount && (Lt(a.date, b.date) || (a.date == b.date && a.stamp < b.stamp)))
  }

  ghost predicate StampsDiffer(m: Entries) {
    && (forall k :: k in m ==> m[k].id == k && m[k].stamp < |m|)
    && (forall j, k :: j in m && k in m && j != k ==> m[j].stamp != m[k].stamp)
  }

  ghost predicate IsListing(s: seq<EntryKey>, m: Entries, ks: set<EntryKey>) {
    && (forall i :: 0 <= i < |s| ==> s[i] in ks && s[i] in m)
    && (forall k :: k in ks ==> k in s)
    && (forall i, j :: 0 <= i < j < |s| ==> Before(m[s[i]], m[s[j]]))
  }

  ghost function Listing(m: Entries, ks: set<EntryKey>): seq<EntryKey> {
    if exists s :: IsListing(s, m, ks) then var s :| IsListing(s, m, ks); s else []
  }

  lemma {:induction false} FirstExists(m: Entries, ks: set<EntryKey>) returns (k: EntryKey)
    requires StampsDiffer(m) && ks <= m.Keys && ks != {}
    ensures k in ks && forall j :: j in ks && j != k ==> Before(m[k], m[j])
    decreases |ks|
  {
    k :| k in ks;
    if ks != {k} {
      var j := FirstExists(m, ks - {k});
      if !Before(m[k], m[j]) {
        k := j;
      }
    }
  }

  lemma {:induction false} ListingExists(m: Entries, ks: set<EntryKey>) returns (s: seq<EntryKey>)
    requires StampsDiffer(m) && ks <= m.Keys
    ensures IsListing(s, m, ks)
    decreases |ks|
  {
    if ks == {} {
      s := [];
    } else {
      var k := FirstExists(m, ks);
      var rest := ListingExists(m, ks - {k});
      s := [k] + rest;
      forall j | j in ks ensures j in s {
        if j != k { assert j in rest; }
      }
    }
  }

  lemma {:induction false} ListingUnique(s: seq<EntryKey>, t: seq<EntryKey>, m: Entries, ks: set<EntryKey>)
    requires IsListing(s, m, ks) && IsListing(t, m, ks)
    ensures s == t
    decreases |s|
  {
    EmptyListing(s, m, ks);
    EmptyListing(t, m, ks);
    if s != [] {
      SameHead(s, t, m, ks);
      DropHead(s, m, ks);
      DropHead(t, m, ks);
      ListingUnique(s[1..], t[1..], m, ks - {s[0]});
      assert s == [s[0]] + s[1..] && t == [t[0]] + t[1..];
    }
  }

  lemma EmptyListing(s: seq<EntryKey>, m: Entries, ks: set<EntryKey>)
    requires IsListing(s, m, ks)
    ensures s == [] <==> ks == {}
  {
    if s != [] { assert s[0] in ks; }
  }

  lemma SameHead(s: seq<EntryKey>, t: seq<EntryKey>, m: Entries, ks: set<EntryKey>)
    requires IsListing(s, m, ks) && IsListing(t, m, ks) && s != [] && t != []
    ensures s[0] == t[0]
  {
    assert s[0] in t && t[0] in s;
    var i :| 0 <= i < |t| && t[i] == s[0];
    var j :| 0 <= j < |s| && s[j] == t[0];
  }

  lemma DropHead(s: seq<EntryKey>, m: Entries, ks: set<EntryKey>)
    requires IsListing(s, m, ks) && s != []
    ensures IsListing(s[1..], m, ks - {s[0]})
  {
    forall k | k in ks - {s[0]} ensures k in s[1..] {
      var i :| 0 <= i < |s| && s[i] == k;
      assert s[1..][i - 1] == k;
    }
  }

  lemma ListingIs(s: seq<EntryKey>, m: Entries, ks: set<EntryKey>)
    requires IsListing(s, m, ks)
    ensures Listing(m, ks) == s
  {
    ListingUnique(s, Listing(m, ks), m, ks);
  }

  lemma ListingLists(m: Entries, ks: set<EntryKey>)
    requires StampsDiffer(m) && ks <= m.Keys
    ensures IsListing(Listing(m, ks), m, ks)
  {
    var s := ListingExists(m, ks);
  }

  ghost function Documents(m: Entries, s: seq<EntryKey>): seq<Entry>
    requires forall i :: 0 <= i < |s| ==> s[i] in m
  {
    seq(|s|, i requires 0 <= i < |s| => m[s[i]])
  }

  // ----- posting allocations to entries

  /** What one update writes: a first payout never writes "open", an edit classifies afresh. */
  function PostedStatus(amount: int, settled: int, editing: bool): Status {
    if editing then StatusFor(amount, settled)
    else if settled == amount then Settled else PartiallySettled
  }

  function Posted(e: Entry, amount: int, editing: bool): Entry {
    e.(settled := e.settled + amount, status := PostedStatus(e.amount, e.settled + amount, editing))
  }

  function Post(m: Entries, allocs: seq<Allocation>, editing: bool): Entries {
    if allocs == [] then m
    else
      var m', a := Post(m, allocs[..|allocs| - 1], editing), allocs[|allocs| - 1];
      if a.entry in m' then m'[a.entry := Posted(m'[a.entry], a.amount, editing)] else m'
  }

  function Reversal(allocs: seq<Allocation>): (r: seq<Allocation>)
    ensures |r| == |allocs|
    ensures forall i :: 0 <= i < |r| ==> r[i] == Allocation(allocs[i].entry, -allocs[i].amount)
  {
    seq(|allocs|, i requires 0 <= i < |allocs| => Allocation(allocs[i].entry, -allocs[i].amount))
  }

  // ----- the two payout operations

  ghost function PendingDocuments(b: Book, office: Id, w: Window, selected: seq<EntryKey>): seq<Entry>
    requires StampsDiffer(b.entries)
  {
    var ks := Pending(b.entries, office, w, selected);
    ListingLists(b.entries, ks);
    Documents(b.entries, Listing(b.entries, ks))
  }

  ghost function Allocate(b: Book, req: Request): Result<Book, SettlementError>
    requires StampsDiffer(b.entries)
  {
    if req.id in b.settlements then Ok(b)
    else
      var pending := PendingDocuments(b, req.id.office, req.window, req.selected);
      if req.selected != [] && |pending| != |req.selected| then Err(EntriesUnavailable)
      else
        match BuildAllocations(pending, req.amount)
        case Err(e) => Err(e)
        case Ok(allocs) =>
          Ok(Settle(b, Settlement(req.id, req.window, req.amount, req.details, allocs, []), false))
  }

  function Settle(b: Book, s: Settlement, editing: bool): Book {
    b.(entries := Post(b.entries, s.allocations, editing), settlements := b.settlements[s.id := s])
  }

  /** Takes a settlement's allocations back out of the entries and the settlement out of the book. */
  function Unsettle(b: Book, id: SettlementKey): Book
    requires id in b.settlements
  {
    b.(entries := Post(b.entries, Reversal(b.settlements[id].allocations), true), settlements := b.settlements - {id})
  }

  /** The new settlement document: the previous values go to the revision history. */
  function Revised(s: Settlement, amount: int, details: Details, allocs: seq<Allocation>): Settlement {
    s.(amount := amount, details := details, allocations := allocs,
       revisions := s.revisions + [Revision(s.amount, s.details, s.allocations)])
  }

  /** Every allocated entry is still found by the edit's `_id` and office query. */
  predicate EntriesPresent(m: Entries, office: Id, allocs: seq<Allocation>) {
    forall i :: 0 <= i < |allocs| ==> allocs[i].entry in m && allocs[i].entry.office == office
  }

  ghost function Update(b: Book, id: SettlementKey, amount: int, details: Details): Result<Book, SettlementError>
    requires StampsDiffer(b.entries)
  {
    if id !in b.settlements then Err(NotFound)
    else
      var s := b.settlements[id];
      if amount == s.amount then Ok(b.(settlements := b.settlements[id := Revised(s, amount, details, s.allocations)]))
      else if !EntriesPresent(b.entries, id.office, s.allocations) then Err(MissingEntry)
      else
        PostKeeps(b.entries, Reversal(s.allocations), true);
        var open := Unsettle(b, id);
        match BuildAllocations(PendingDocuments(open, id.office, s.window, []), amount)
        case Err(e) => Err(e)
        case Ok(allocs) => Ok(Settle(open, Revised(s, amount, details, allocs), true))
  }

  // ----- facts about posting

  /** The two documents differ at most in what is settled. */
  predicate SameButSettled(e: Entry, e': Entry) {
    e' == e.(settled := e'.settled, status := e'.status)
  }

  lemma {:induction false} PostKeys(m: Entries, allocs: seq<Allocation>, editing: bool)
    ensures Post(m, allocs, editing).Keys == m.Keys
  {
    if allocs != [] {
      PostKeys(m, allocs[..|allocs| - 1], editing);
    }
  }

  lemma {:induction false} PostKeeps(m: Entries, allocs: seq<Allocation>, editing: bool)
    ensures Post(m, allocs, editing).Keys == m.Keys
    ensures forall k :: k in m ==> SameButSettled(m[k], Post(m, allocs, editing)[k])
    ensures StampsDiffer(m) ==> StampsDiffer(Post(m, allocs, editing))
  {
    if allocs != [] {
      PostKeeps(m, allocs[..|allocs| - 1], editing);
    }
    assert |Post(m, allocs, editing)| == |Post(m, allocs, editing).Keys| == |m|;
  }

  /** With distinct entries, each is posted to exactly once. */
  lemma {:induction false} PostAt(m: Entries, allocs: seq<Allocation>, editing: bool, k: EntryKey)
    requires DistinctEntries(allocs) && k in m
    ensures k in Post(m, allocs, editing)
    ensures Post(m, allocs, editing)[k] ==
            if Mentions(allocs, k) then Posted(m[k], AllocatedTo(allocs, k), editing) else m[k]
  {
    if allocs != [] {
      var n := |allocs| - 1;
      var init, a := allocs[..n], allocs[n];
      assert allocs == init + [a];
      SnocFacts(init, a, k);
      PostAt(m, init, editing, k);
      if a.entry == k {
        UnmentionedGetsNothing(init, k);
      }
    }
  }

  lemma {:induction false} ReversalFacts(allocs: seq<Allocation>, k: EntryKey)
    ensures AllocatedTo(Reversal(allocs), k) == -AllocatedTo(allocs, k)
    ensures Mentions(Reversal(allocs), k) <==> Mentions(allocs, k)
    ensures DistinctEntries(allocs) ==> DistinctEntries(Reversal(allocs))
  {
    if allocs != [] {
      var n := |allocs| - 1;
      ReversalFacts(allocs[..n], k);
      assert Reversal(allocs)[..n] == Reversal(allocs[..n]);
    }
    if Mentions(allocs, k) {
      var i :| 0 <= i < |allocs| && allocs[i].entry == k;
      assert Reversal(allocs)[i].entry == k;
    }
  }

  /** An edit that changes the amount, in terms of the reallocation it makes. */
  lemma UpdateReallocates(b: Book, id: SettlementKey, amount: int, details: Details,
                          paid: Result<seq<Allocation>, SettlementError>, work: Entries)
    requires id in b.settlements && b.settlements[id].id == id && amount != b.settlements[id].amount
    requires StampsDiffer(b.entries) && StampsDiffer(Unsettle(b, id).entries)
    requires var s := b.settlements[id];
             paid == if !EntriesPresent(b.entries, id.office, s.allocations) then Err(MissingEntry)
                     else BuildAllocations(PendingDocuments(Unsettle(b, id), id.office, s.window, []), amount)
    requires paid.Ok? ==> work == Post(Unsettle(b, id).entries, paid.value, true)
    ensures match paid
            case Err(e) => Update(b, id, amount, details) == Err(e)
            case Ok(allocs) =>
              Update(b, id, amount, details) ==
              Ok(b.(entries := work, settlements := b.settlements[id := Revised(b.settlements[id], amount, details, allocs)]))
  {
    hide Post, BuildAllocations, PendingDocuments, EntriesPresent, StampsDiffer;
    if paid.Ok? {
      var s' := Revised(b.settlements[id], amount, details, paid.value);
      assert (b.settlements - {id})[id := s'] == b.settlements[id := s'];
    }
  }
}
