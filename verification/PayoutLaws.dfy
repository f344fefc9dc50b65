/** What a payout pays and in which order, on the entries' own fields: who may be paid at all,
    which entry comes before which, and when there is enough to pay. */
module PayoutLaws {
  import opened Wrappers
  import opened Dates
  import opened Ranking
  import opened Sums
  import opened Ledger
  import opened Allocations
  import opened Settlements
  import opened LedgerInvariant

  predicate DateUpTo(a: DateKey, b: DateKey) {
    a.month < b.month || (a.month == b.month && a.day <= b.day)
  }

  /** An entry a payout of this worker, bucket and date range may pay. */
  predicate MayBePaid(e: Entry, office: Id, w: Window, selected: seq<EntryKey>) {
    && e.id.office == office && e.worker == w.worker && e.workerType == w.workerType && e.bucket == w.bucket
    && DateUpTo(w.start, e.date) && DateUpTo(e.date, w.end)
    && (e.status == Open || e.status == PartiallySettled)
    && (selected != [] ==> e.id in selected)
  }

  /** Smaller amounts first, then earlier dates, then what was created first. */
  predicate Earlier(a: Entry, b: Entry) {
    || a.amount < b.amount
    || (a.amount == b.amount && a.date.month < b.date.month)
    || (a.amount == b.amount && a.date.month == b.date.month && a.date.day < b.date.day)
    || (a.amount == b.amount && a.date == b.date && a.stamp < b.stamp)
  }

  /** Each allocation pays a payable entry at most what it lacks, or takes a deduction whole; each once. */
  ghost predicate PaysWithinBounds(m: Entries, office: Id, w: Window, selected: seq<EntryKey>, allocs: seq<Allocation>) {
    && (forall i, j :: 0 <= i < j < |allocs| ==> allocs[i].entry != allocs[j].entry)
    && (forall x :: x in allocs ==>
          && x.entry in m && MayBePaid(m[x.entry], office, w, selected)
          && (0 < x.amount <= m[x.entry].amount - m[x.entry].settled || x.amount == m[x.entry].amount - m[x.entry].settled < 0))
  }

  /** Every deduction is taken, and an entry is paid only when all earlier ones are paid in full. */
  ghost predicate PaysInOrder(m: Entries, office: Id, w: Window, selected: seq<EntryKey>, allocs: seq<Allocation>) {
    && (forall k :: k in m && MayBePaid(m[k], office, w, selected) && m[k].amount - m[k].settled < 0 ==>
          Allocation(k, m[k].amount - m[k].settled) in allocs)
    && (forall j, x :: j in m && MayBePaid(m[j], office, w, selected) && m[j].amount - m[j].settled > 0
                       && x in allocs && x.amount > 0 && x.entry in m && Earlier(m[j], m[x.entry]) ==>
          Allocation(j, m[j].amount - m[j].settled) in allocs)
  }

  /** The entries after a payout: what was allocated is settled, all else stays. */
  ghost predicate Paid(m: Entries, allocs: seq<Allocation>, m': Entries) {
    && m'.Keys == m.Keys
    && (forall x :: x in allocs && x.entry in m ==>
          var settled := m[x.entry].settled + x.amount;
          m'[x.entry] == m[x.entry].(settled := settled, status := if settled == m[x.entry].amount then Settled else PartiallySettled))
    && (forall k :: k in m && (forall x :: x in allocs ==> x.entry != k) ==> m'[k] == m[k])
  }

  /** The entries with earlier allocations taken back, and their status as if they had never been made. */
  ghost predicate TakenBack(m: Entries, allocs: seq<Allocation>, m': Entries) {
    && m'.Keys == m.Keys
    && (forall x :: x in allocs && x.entry in m ==>
          var settled := m[x.entry].settled - x.amount;
          m'[x.entry] == m[x.entry].(settled := settled,
            status := if settled == m[x.entry].amount then Settled else if settled == 0 then Open else PartiallySettled))
    && (forall k :: k in m && (forall x :: x in allocs ==> x.entry != k) ==> m'[k] == m[k])
  }

  // ----- the pending documents

  /** `es` are exactly the payable entries, in order. */
  ghost predicate IsPending(m: Entries, office: Id, w: Window, selected: seq<EntryKey>, es: seq<Entry>) {
    && DistinctIds(es)
    && (forall i :: 0 <= i < |es| ==> es[i].id in m && m[es[i].id] == es[i] && MayBePaid(es[i], office, w, selected))
    && (forall k :: k in m && MayBePaid(m[k], office, w, selected) ==> exists i :: 0 <= i < |es| && es[i].id == k)
    && (forall i, j :: 0 <= i < |es| && 0 <= j < |es| && Earlier(es[i], es[j]) ==> i < j)
  }

  lemma PendingAre(b: Book, office: Id, w: Window, selected: seq<EntryKey>)
    requires Sound(b)
    ensures IsPending(b.entries, office, w, selected, PendingDocuments(b, office, w, selected))
  {
    var ks := Pending(b.entries, office, w, selected);
    ListingLists(b.entries, ks);
    var s, es := Listing(b.entries, ks), PendingDocuments(b, office, w, selected);
    forall k | k in b.entries && MayBePaid(b.entries[k], office, w, selected) ensures exists i :: 0 <= i < |es| && es[i].id == k {
      assert k in ks && k in s;
      var i :| 0 <= i < |s| && s[i] == k;
      assert es[i] == b.entries[k];
    }
    forall i, j | 0 <= j <= i < |es| ensures !Earlier(es[i], es[j]) {
      assert j < i ==> Before(b.entries[s[j]], b.entries[s[i]]);
    }
  }

  lemma ShareIn(es: seq<Entry>, amount: int, i: nat)
    requires amount > 0 && DistinctIds(es) && BuildAllocations(es, amount).Ok? && i < |es| && Share(es, amount, i) != 0
    ensures Allocation(es[i].id, Share(es, amount, i)) in BuildAllocations(es, amount).value
  {
    hide BuildAllocations, Share;
    var allocs := BuildAllocations(es, amount).value;
    AllocationIsExact(es, amount);
    var p :| 0 <= p < |allocs| && allocs[p].entry == es[i].id;
    MentionedGetsItsAmount(allocs, p);
  }

  lemma InShare(es: seq<Entry>, amount: int, x: Allocation) returns (i: nat)
    requires amount > 0 && DistinctIds(es) && BuildAllocations(es, amount).Ok? && x in BuildAllocations(es, amount).value
    ensures i < |es| && es[i].id == x.entry && Share(es, amount, i) == x.amount != 0
  {
    hide BuildAllocations, Share;
    var allocs := BuildAllocations(es, amount).value;
    AllocationIsExact(es, amount);
    var p :| 0 <= p < |allocs| && allocs[p] == x;
    assert Mentions(allocs, x.entry);
    i :| 0 <= i < |es| && es[i].id == x.entry;
    MentionedGetsItsAmount(allocs, p);
  }

  lemma ShareBounds(es: seq<Entry>, amount: int, i: nat)
    requires i < |es|
    ensures es[i].amount - es[i].settled < 0 ==> Share(es, amount, i) == es[i].amount - es[i].settled
    ensures es[i].amount - es[i].settled >= 0 ==> 0 <= Share(es, amount, i) <= es[i].amount - es[i].settled
  {
  }

  lemma BoundsHold(m: Entries, office: Id, w: Window, selected: seq<EntryKey>, es: seq<Entry>, amount: int)
    requires IsPending(m, office, w, selected, es) && amount > 0 && BuildAllocations(es, amount).Ok?
    ensures PaysWithinBounds(m, office, w, selected, BuildAllocations(es, amount).value)
  {
    hide BuildAllocations, Share, MayBePaid, Earlier;
    var allocs := BuildAllocations(es, amount).value;
    AllocationIsExact(es, amount);
    forall x | x in allocs
      ensures x.entry in m && MayBePaid(m[x.entry], office, w, selected)
      ensures 0 < x.amount <= m[x.entry].amount - m[x.entry].settled || x.amount == m[x.entry].amount - m[x.entry].settled < 0
    {
      var i := InShare(es, amount, x);
      ShareBounds(es, amount, i);
    }
  }

  lemma OrderHolds(m: Entries, office: Id, w: Window, selected: seq<EntryKey>, es: seq<Entry>, amount: int)
    requires IsPending(m, office, w, selected, es) && amount > 0 && BuildAllocations(es, amount).Ok?
    ensures PaysInOrder(m, office, w, selected, BuildAllocations(es, amount).value)
  {
    hide BuildAllocations, Share, MayBePaid, Earlier;
    var allocs := BuildAllocations(es, amount).value;
    forall k | k in m && MayBePaid(m[k], office, w, selected) && m[k].amount - m[k].settled < 0
      ensures Allocation(k, m[k].amount - m[k].settled) in allocs
    {
      var i :| 0 <= i < |es| && es[i].id == k;
      ShareBounds(es, amount, i);
      ShareIn(es, amount, i);
    }
    forall j, x | j in m && MayBePaid(m[j], office, w, selected) && m[j].amount - m[j].settled > 0
                  && x in allocs && x.amount > 0 && x.entry in m && Earlier(m[j], m[x.entry])
      ensures Allocation(j, m[j].amount - m[j].settled) in allocs
    {
      var p :| 0 <= p < |es| && es[p].id == j;
      EarlierIsPaid(es, amount, m[j], x);
    }
  }

  /** An allocation that could be made pays the right entries in the right order. */
  lemma AllocationIsRight(b: Book, office: Id, w: Window, selected: seq<EntryKey>, amount: int)
    requires Sound(b) && amount > 0 && BuildAllocations(PendingDocuments(b, office, w, selected), amount).Ok?
    ensures var allocs := BuildAllocations(PendingDocuments(b, office, w, selected), amount).value;
            && PaysWithinBounds(b.entries, office, w, selected, allocs) && PaysInOrder(b.entries, office, w, selected, allocs)
            && AllocationTotal(allocs) == amount
  {
    hide EntrySound, SettlementSound, PendingDocuments, BuildAllocations, AllocationTotal, PaysWithinBounds, PaysInOrder, Share, Mentions, AllocatedTo;
    var es := PendingDocuments(b, office, w, selected);
    PendingAre(b, office, w, selected);
    BoundsHold(b.entries, office, w, selected, es, amount);
    OrderHolds(b.entries, office, w, selected, es, amount);
    AllocationIsExact(es, amount);
  }

  lemma EarlierIsPaid(es: seq<Entry>, amount: int, e: Entry, x: Allocation)
    requires amount > 0 && DistinctIds(es) && BuildAllocations(es, amount).Ok? && x in BuildAllocations(es, amount).value && x.amount > 0
    requires e in es && e.amount - e.settled > 0
    requires forall i, j :: 0 <= i < |es| && 0 <= j < |es| && es[i] == e && es[j].id == x.entry ==> i < j
    ensures Allocation(e.id, e.amount - e.settled) in BuildAllocations(es, amount).value
  {
    hide BuildAllocations, Share;
    var p :| 0 <= p < |es| && es[p] == e;
    var q := InShare(es, amount, x);
    SharesAreOrdered(es, amount, p, q);
    ShareBounds(es, amount, q);
    ShareBounds(es, amount, p);
    ShareIn(es, amount, p);
  }

  // ----- posting

  lemma PostIsPaid(m: Entries, allocs: seq<Allocation>, editing: bool)
    requires DistinctEntries(allocs) && forall x :: x in allocs ==> x.entry in m
    ensures var m' := Post(m, allocs, editing);
            && m'.Keys == m.Keys
            && (forall x :: x in allocs ==> m'[x.entry] == Posted(m[x.entry], x.amount, editing))
            && (forall k :: k in m && (forall x :: x in allocs ==> x.entry != k) ==> m'[k] == m[k])
  {
    hide Post, Posted, AllocatedTo, Mentions;
    PostKeys(m, allocs, editing);
    forall x | x in allocs ensures Post(m, allocs, editing)[x.entry] == Posted(m[x.entry], x.amount, editing) {
      var i :| 0 <= i < |allocs| && allocs[i] == x;
      MentionedGetsItsAmount(allocs, i);
      IsMentioned(allocs, i);
      PostAt(m, allocs, editing, x.entry);
    }
    forall k | k in m && (forall x :: x in allocs ==> x.entry != k) ensures Post(m, allocs, editing)[k] == m[k] {
      NotMentioned(allocs, k);
      PostAt(m, allocs, editing, k);
    }
  }

  lemma IsMentioned(allocs: seq<Allocation>, i: nat)
    requires i < |allocs|
    ensures Mentions(allocs, allocs[i].entry)
  {
  }

  lemma NotMentioned(allocs: seq<Allocation>, k: EntryKey)
    requires forall x :: x in allocs ==> x.entry != k
    ensures !Mentions(allocs, k)
  {
  }

  // ----- payouts and edits

  /** A new payout that succeeds stores what it paid, and paid it rightly. */
  lemma PayoutPaysRightly(b: Book, req: Request)
    requires Sound(b) && req.amount > 0 && req.id !in b.settlements && Allocate(b, req).Ok?
    ensures var b' := Allocate(b, req).value;
            && req.id in b'.settlements
            && var s := b'.settlements[req.id];
               && s.window == req.window && s.amount == req.amount && s.details == req.details && s.revisions == []
               && PaysWithinBounds(b.entries, req.id.office, req.window, req.selected, s.allocations)
               && PaysInOrder(b.entries, req.id.office, req.window, req.selected, s.allocations)
               && AllocationTotal(s.allocations) == req.amount
               && Paid(b.entries, s.allocations, b'.entries)
               && b'.settlements - {req.id} == b.settlements
  {
    hide EntrySound, SettlementSound, PendingDocuments, BuildAllocations, Share, AllocationTotal, MayBePaid, PaysInOrder;
    var allocs := BuildAllocations(PendingDocuments(b, req.id.office, req.window, req.selected), req.amount).value;
    AllocationIsRight(b, req.id.office, req.window, req.selected, req.amount);
    PostIsPaid(b.entries, allocs, false);
  }

  lemma PostedBack(e: Entry, amount: int)
    ensures var settled := e.settled - amount;
            Posted(e, -amount, true) == e.(settled := settled,
              status := if settled == e.amount then Settled else if settled == 0 then Open else PartiallySettled)
  {
  }

  lemma PostTakesBack(m: Entries, allocs: seq<Allocation>)
    requires DistinctEntries(allocs) && forall x :: x in allocs ==> x.entry in m
    ensures TakenBack(m, allocs, Post(m, Reversal(allocs), true))
  {
    hide Post, Reversal, Posted, AllocatedTo, Mentions;
    var m' := Post(m, Reversal(allocs), true);
    PostKeys(m, Reversal(allocs), true);
    forall x | x in allocs && x.entry in m
      ensures var settled := m[x.entry].settled - x.amount;
              m'[x.entry] == m[x.entry].(settled := settled,
                status := if settled == m[x.entry].amount then Settled else if settled == 0 then Open else PartiallySettled)
    {
      var i :| 0 <= i < |allocs| && allocs[i] == x;
      MentionedGetsItsAmount(allocs, i);
      IsMentioned(allocs, i);
      ReversalFacts(allocs, x.entry);
      PostAt(m, Reversal(allocs), true, x.entry);
      PostedBack(m[x.entry], x.amount);
    }
    forall k | k in m && (forall x :: x in allocs ==> x.entry != k) ensures m'[k] == m[k] {
      NotMentioned(allocs, k);
      ReversalFacts(allocs, k);
      PostAt(m, Reversal(allocs), true, k);
    }
  }

  /** The entries once the settlement's allocations are out. */
  lemma UnsettleTakesBack(b: Book, id: SettlementKey)
    requires Sound(b) && id in b.settlements
    ensures TakenBack(b.entries, b.settlements[id].allocations, Unsettle(b, id).entries)
  {
    hide EntrySound, AllocationTotal, TakenBack, Post, Reversal, StampsDiffer;
    var allocs := b.settlements[id].allocations;
    assert SettlementSound(b.entries, b.settlements[id]);
    forall x | x in allocs ensures x.entry in b.entries {
      var i :| 0 <= i < |allocs| && allocs[i] == x;
      assert AllocationSound(b.entries, b.settlements[id].id.office, b.settlements[id].window, allocs[i]);
    }
    PostTakesBack(b.entries, allocs);
  }

  /** An edit to another amount takes the old allocations back and then pays rightly from what is
      pending in the payout's own window. */
  lemma EditPaysRightly(b: Book, id: SettlementKey, amount: int, details: Details) returns (open: Entries)
    requires Sound(b) && amount > 0 && id in b.settlements && amount != b.settlements[id].amount
    requires Update(b, id, amount, details).Ok?
    ensures TakenBack(b.entries, b.settlements[id].allocations, open)
    ensures var b', s := Update(b, id, amount, details).value, b.settlements[id];
            && id in b'.settlements
            && var s' := b'.settlements[id];
               && s'.window == s.window && s'.amount == amount && s'.details == details
               && s'.revisions == s.revisions + [Revision(s.amount, s.details, s.allocations)]
               && PaysWithinBounds(open, id.office, s.window, [], s'.allocations) && PaysInOrder(open, id.office, s.window, [], s'.allocations)
               && AllocationTotal(s'.allocations) == amount
               && b'.settlements - {id} == b.settlements - {id}
    ensures var b', s' := Update(b, id, amount, details).value, Update(b, id, amount, details).value.settlements[id];
            && b'.entries.Keys == open.Keys
            && (forall x :: x in s'.allocations && x.entry in open ==>
                  var settled := open[x.entry].settled + x.amount;
                  b'.entries[x.entry] == open[x.entry].(settled := settled,
                    status := if settled == open[x.entry].amount then Settled else if settled == 0 then Open else PartiallySettled))
            && (forall k :: k in open && (forall x :: x in s'.allocations ==> x.entry != k) ==> b'.entries[k] == open[k])
  {
    hide EntrySound, SettlementSound, PendingDocuments, BuildAllocations, Share, AllocationTotal, MayBePaid, PaysInOrder, Post, TakenBack;
    var s, rest := b.settlements[id], Unsettle(b, id);
    open := rest.entries;
    UnsettleKeepsSound(b, id);
    UnsettleTakesBack(b, id);
    AllocationIsRight(rest, id.office, s.window, [], amount);
    PostIsPaid(open, BuildAllocations(PendingDocuments(rest, id.office, s.window, []), amount).value, true);
  }

  // ----- when there is enough

  function Lack(): Entry -> int {
    (e: Entry) => e.amount - e.settled
  }

  lemma {:induction false} NetIs(es: seq<Entry>, m: Entries)
    requires DistinctIds(es) && (forall i :: 0 <= i < |es| ==> es[i].id in m && m[es[i].id] == es[i])
    requires forall k :: k in m ==> exists i :: 0 <= i < |es| && es[i].id == k
    ensures NetOutstanding(es) == MapSum(m, Lack())
  {
    if es == [] {
      assert m == map[];
    } else {
      var n := |es| - 1;
      var e := es[n];
      forall i | 0 <= i < n ensures es[..n][i].id in m - {e.id} && (m - {e.id})[es[..n][i].id] == es[..n][i] {
        assert es[..n][i] == es[i];
      }
      forall k | k in m - {e.id} ensures exists i :: 0 <= i < n && es[..n][i].id == k {
        var i :| 0 <= i < |es| && es[i].id == k;
        assert es[..n][i] == es[i];
      }
      NetIs(es[..n], m - {e.id});
      MapSumRemove(m, Lack(), e.id);
    }
  }

  /** The payable entries of a request. */
  function PayableOf(m: Entries, office: Id, w: Window, selected: seq<EntryKey>): Entries {
    map k | k in m && MayBePaid(m[k], office, w, selected) :: m[k]
  }

  lemma PendingCount(m: Entries, office: Id, w: Window, selected: seq<EntryKey>, es: seq<Entry>)
    requires IsPending(m, office, w, selected, es)
    ensures |es| == |PayableOf(m, office, w, selected)| && NetOutstanding(es) == MapSum(PayableOf(m, office, w, selected), Lack())
  {
    var p := PayableOf(m, office, w, selected);
    forall i | 0 <= i < |es| ensures es[i].id in p && p[es[i].id] == es[i] {
    }
    NetIs(es, p);
    SameCount(es, p);
  }

  lemma {:induction false} SameCount(es: seq<Entry>, m: Entries)
    requires DistinctIds(es) && (forall i :: 0 <= i < |es| ==> es[i].id in m)
    requires forall k :: k in m ==> exists i :: 0 <= i < |es| && es[i].id == k
    ensures |es| == |m|
  {
    if es == [] {
      assert m == map[];
    } else {
      var n := |es| - 1;
      var rest := m - {es[n].id};
      forall i | 0 <= i < n ensures es[..n][i].id in rest {
        assert es[..n][i] == es[i];
      }
      forall k | k in rest ensures exists i :: 0 <= i < n && es[..n][i].id == k {
        var i :| 0 <= i < |es| && es[i].id == k;
        assert es[..n][i] == es[i];
      }
      SameCount(es[..n], rest);
      assert |m| == |rest| + 1 by {
        assert m.Keys == rest.Keys + {es[n].id};
      }
    }
  }

  /** A new payout succeeds exactly when every requested entry is payable, there is one at all, and
      the amount is at most what they lack together. */
  lemma PayoutSucceedsIff(b: Book, req: Request)
    requires Sound(b) && req.amount > 0 && req.id !in b.settlements
    ensures var p := PayableOf(b.entries, req.id.office, req.window, req.selected);
            Allocate(b, req).Ok? <==> (req.selected != [] ==> |p| == |req.selected|) && p != map[] && req.amount <= MapSum(p, Lack())
  {
    hide EntrySound, SettlementSound, PendingDocuments, BuildAllocations, MayBePaid, NetOutstanding, PayableOf, Settle;
    var es := PendingDocuments(b, req.id.office, req.window, req.selected);
    PendingAre(b, req.id.office, req.window, req.selected);
    PendingCount(b.entries, req.id.office, req.window, req.selected, es);
    AllocationSucceedsIff(es, req.amount);
  }
}
