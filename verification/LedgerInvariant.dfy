/** What every run of ledger writes keeps, and the law that editing a payout equals having
    paid the edited amount in the first place. */
module LedgerInvariant {
  import opened Wrappers
  import opened Dates
  import opened Ledger
  import opened Ranking
  import opened Allocations
  import opened SourcePuts
  import opened Settlements
  import opened Sums

  /** The measure "paid to entry `k` by one settlement". */
  function PaidTo(k: EntryKey): Settlement -> int {
    (s: Settlement) => AllocatedTo(s.allocations, k)
  }

  /** The sum of all live allocations to an entry. */
  ghost function Live(ss: SettlementMap, k: EntryKey): int {
    MapSum(ss, PaidTo(k))
  }

  ghost predicate WithinBounds(e: Entry) {
    && (e.amount > 0 ==> 0 <= e.settled <= e.amount)
    && (e.amount < 0 ==> e.settled == 0 || e.settled == e.amount)
    && (e.amount == 0 ==> e.settled == 0)
  }

  ghost predicate StatusMatches(e: Entry) {
    if e.amount != 0 then e.status == StatusFor(e.amount, e.settled) else e.status == Open || e.status == Settled
  }

  ghost predicate EntrySound(b: Book, k: EntryKey)
    requires k in b.entries && k in b.paidAtSource
  {
    var e := b.entries[k];
    && e.settled == b.paidAtSource[k] + Live(b.settlements, k)
    && (b.paidAtSource[k] == 0 || b.paidAtSource[k] == e.amount)
    && WithinBounds(e)
    && StatusMatches(e)
  }

  /** An allocation still fits its entry: same sign, and deductions only as a whole. */
  ghost predicate AllocationSound(m: Entries, office: Id, w: Window, a: Allocation) {
    && a.entry in m && InWindow(m[a.entry], office, w)
    && (m[a.entry].amount > 0 ==> a.amount > 0)
    && (m[a.entry].amount < 0 ==> a.amount == m[a.entry].amount)
    && m[a.entry].amount != 0
  }

  ghost predicate SettlementSound(m: Entries, s: Settlement) {
    && s.amount > 0
    && AllocationTotal(s.allocations) == s.amount
    && DistinctEntries(s.allocations)
    && forall i :: 0 <= i < |s.allocations| ==> AllocationSound(m, s.id.office, s.window, s.allocations[i])
  }

  ghost predicate Sound(b: Book) {
    && StampsDiffer(b.entries)
    && b.paidAtSource.Keys == b.entries.Keys
    && (forall k :: k in b.entries ==> EntrySound(b, k))
    && (forall id :: id in b.settlements ==> b.settlements[id].id == id && SettlementSound(b.entries, b.settlements[id]))
  }

  // ----- live allocations

  lemma AllocatedSign(b: Book, id: SettlementKey, k: EntryKey)
    requires Sound(b) && id in b.settlements && k in b.entries
    ensures b.entries[k].amount > 0 ==> PaidTo(k)(b.settlements[id]) >= 0
    ensures b.entries[k].amount < 0 ==> PaidTo(k)(b.settlements[id]) <= 0
    ensures PaidTo(k)(b.settlements[id]) != 0 <==> Mentions(b.settlements[id].allocations, k)
    ensures b.entries[k].amount == 0 ==> PaidTo(k)(b.settlements[id]) == 0
  {
    var allocs := b.settlements[id].allocations;
    if Mentions(allocs, k) {
      var i :| 0 <= i < |allocs| && allocs[i].entry == k;
      MentionedGetsItsAmount(allocs, i);
      assert AllocationSound(b.entries, id.office, b.settlements[id].window, allocs[i]);
    } else {
      UnmentionedGetsNothing(allocs, k);
    }
  }

  lemma LiveSign(b: Book, ss: SettlementMap, k: EntryKey)
    requires Sound(b) && k in b.entries
    requires forall id :: id in ss ==> id in b.settlements && ss[id] == b.settlements[id]
    ensures b.entries[k].amount > 0 ==> Live(ss, k) >= 0
    ensures b.entries[k].amount < 0 ==> Live(ss, k) <= 0
    ensures b.entries[k].amount == 0 ==> Live(ss, k) == 0
  {
    forall id | id in ss
      ensures b.entries[k].amount > 0 ==> PaidTo(k)(ss[id]) >= 0
      ensures b.entries[k].amount < 0 ==> PaidTo(k)(ss[id]) <= 0
      ensures b.entries[k].amount == 0 ==> PaidTo(k)(ss[id]) == 0
    {
      AllocatedSign(b, id, k);
    }
    if b.entries[k].amount > 0 {
      MapSumNonNegative(ss, PaidTo(k));
    } else if b.entries[k].amount < 0 {
      MapSumNonPositive(ss, PaidTo(k));
    } else {
      MapSumZero(ss, PaidTo(k));
    }
  }

  /** An entry with nothing settled has no live allocation, so a source repair strands none. */
  lemma UnsettledHasNoAllocation(b: Book, k: EntryKey, id: SettlementKey)
    requires Sound(b) && k in b.entries && b.entries[k].settled == 0 && id in b.settlements
    ensures !Mentions(b.settlements[id].allocations, k)
    ensures b.entries[k].amount != 0 ==> b.paidAtSource[k] == 0 && Live(b.settlements, k) == 0
  {
    MapSumRemove(b.settlements, PaidTo(k), id);
    AllocatedSign(b, id, k);
    LiveSign(b, b.settlements - {id}, k);
    LiveSign(b, b.settlements, k);
  }

  // ----- adding and removing a settlement

  /** Allocations that pay pending entries: part of what a positive entry is owed, all of a deduction. */
  ghost predicate Affordable(m: Entries, office: Id, w: Window, allocs: seq<Allocation>) {
    && DistinctEntries(allocs)
    && forall i :: 0 <= i < |allocs| ==>
         && AllocationSound(m, office, w, allocs[i])
         && Payable(m[allocs[i].entry])
         && (allocs[i].amount > 0 ==> allocs[i].amount <= Outstanding(m[allocs[i].entry]))
         && (allocs[i].amount < 0 ==> allocs[i].amount == Outstanding(m[allocs[i].entry]))
  }

  lemma PostedStaysSound(e: Entry, amount: int, editing: bool)
    requires WithinBounds(e) && e.amount != 0
    requires 0 < amount <= Outstanding(e) || (amount < 0 && amount == Outstanding(e))
    ensures WithinBounds(Posted(e, amount, editing)) && StatusMatches(Posted(e, amount, editing))
    ensures Posted(e, amount, false) == Posted(e, amount, true)
  {
  }

  ghost predicate Fits(b: Book, s: Settlement) {
    && s.id !in b.settlements
    && s.amount > 0 && AllocationTotal(s.allocations) == s.amount
    && Affordable(b.entries, s.id.office, s.window, s.allocations)
  }

  lemma SettledEntrySound(b: Book, s: Settlement, editing: bool, k: EntryKey)
    requires Sound(b) && Fits(b, s) && k in b.entries
    ensures k in Post(b.entries, s.allocations, editing) && k in Post(b.entries, s.allocations, true)
    ensures EntrySound(Settle(b, s, editing), k)
    ensures Post(b.entries, s.allocations, editing)[k] == Post(b.entries, s.allocations, true)[k]
  {
    var allocs := s.allocations;
    PostAt(b.entries, allocs, editing, k);
    PostAt(b.entries, allocs, true, k);
    MapSumPut(b.settlements, PaidTo(k), s.id, s);
    assert EntrySound(b, k);
    if Mentions(allocs, k) {
      var i :| 0 <= i < |allocs| && allocs[i].entry == k;
      MentionedGetsItsAmount(allocs, i);
      assert AllocationSound(b.entries, s.id.office, s.window, allocs[i]);
      PostedStaysSound(b.entries[k], allocs[i].amount, editing);
    } else {
      UnmentionedGetsNothing(allocs, k);
    }
  }

  lemma SettledSettlementSound(b: Book, s: Settlement, editing: bool, id: SettlementKey)
    requires Sound(b) && Fits(b, s) && id in Settle(b, s, editing).settlements
    ensures Settle(b, s, editing).settlements[id].id == id
    ensures SettlementSound(Settle(b, s, editing).entries, Settle(b, s, editing).settlements[id])
  {
    PostKeeps(b.entries, s.allocations, editing);
    if id == s.id {
      SoundnessCarries(b.entries, Post(b.entries, s.allocations, editing), s);
    } else {
      assert SettlementSound(b.entries, b.settlements[id]);
      SoundnessCarries(b.entries, Post(b.entries, s.allocations, editing), b.settlements[id]);
    }
  }

  /** A first payout and an edit write the same entries. */
  lemma PostsAlike(b: Book, s: Settlement, editing: bool)
    requires Sound(b) && Fits(b, s)
    ensures Post(b.entries, s.allocations, editing) == Post(b.entries, s.allocations, true)
  {
    PostKeys(b.entries, s.allocations, editing);
    PostKeys(b.entries, s.allocations, true);
    forall k | k in b.entries
      ensures Post(b.entries, s.allocations, editing)[k] == Post(b.entries, s.allocations, true)[k]
    {
      SettledEntrySound(b, s, editing, k);
    }
  }

  lemma SettleKeepsSound(b: Book, s: Settlement, editing: bool)
    requires Sound(b) && Fits(b, s)
    ensures Sound(Settle(b, s, editing))
  {
    var b' := Settle(b, s, editing);
    PostKeeps(b.entries, s.allocations, editing);
    forall k | k in b'.entries ensures EntrySound(b', k) {
      SettledEntrySound(b, s, editing, k);
    }
    forall id | id in b'.settlements ensures b'.settlements[id].id == id && SettlementSound(b'.entries, b'.settlements[id]) {
      SettledSettlementSound(b, s, editing, id);
    }
  }

  /** Posting changes neither the amount nor the identity of an entry. */
  lemma SoundnessCarries(m: Entries, m': Entries, s: Settlement)
    requires m.Keys <= m'.Keys
    requires forall k :: k in m ==> SameButSettled(m[k], m'[k])
    requires s.amount > 0 && AllocationTotal(s.allocations) == s.amount && DistinctEntries(s.allocations)
    requires forall i :: 0 <= i < |s.allocations| ==> AllocationSound(m, s.id.office, s.window, s.allocations[i])
    ensures SettlementSound(m', s)
  {
    forall i | 0 <= i < |s.allocations| ensures AllocationSound(m', s.id.office, s.window, s.allocations[i]) {
      assert AllocationSound(m, s.id.office, s.window, s.allocations[i]);
    }
  }

  lemma UnsettleKeepsSound(b: Book, id: SettlementKey)
    requires Sound(b) && id in b.settlements
    ensures Sound(Unsettle(b, id))
  {
    var b', allocs := Unsettle(b, id), b.settlements[id].allocations;
    PostKeeps(b.entries, Reversal(allocs), true);
    forall k | k in b.entries ensures EntrySound(b', k) {
      ReversalFacts(allocs, k);
      PostAt(b.entries, Reversal(allocs), true, k);
      MapSumRemove(b.settlements, PaidTo(k), id);
      LiveSign(b, b.settlements - {id}, k);
      AllocatedSign(b, id, k);
      assert EntrySound(b, k);
      if Mentions(allocs, k) {
        var i :| 0 <= i < |allocs| && allocs[i].entry == k;
        MentionedGetsItsAmount(allocs, i);
        assert AllocationSound(b.entries, id.office, b.settlements[id].window, allocs[i]);
      }
    }
    forall j | j in b'.settlements ensures SettlementSound(b'.entries, b'.settlements[j]) {
      SoundnessCarries(b.entries, b'.entries, b'.settlements[j]);
    }
  }

  // ----- what the pending query offers is affordable

  lemma DocumentsDiffer(b: Book, office: Id, w: Window, selected: seq<EntryKey>)
    requires Sound(b)
    ensures DistinctIds(PendingDocuments(b, office, w, selected))
    ensures forall i :: 0 <= i < |PendingDocuments(b, office, w, selected)| ==>
              var e := PendingDocuments(b, office, w, selected)[i];
              e.id in b.entries && b.entries[e.id] == e && InWindow(e, office, w) && Payable(e)
  {
    ListingLists(b.entries, Pending(b.entries, office, w, selected));
  }

  lemma PendingIsAffordable(b: Book, office: Id, w: Window, selected: seq<EntryKey>, amount: int)
    requires Sound(b) && amount > 0
    requires BuildAllocations(PendingDocuments(b, office, w, selected), amount).Ok?
    ensures var allocs := BuildAllocations(PendingDocuments(b, office, w, selected), amount).value;
            AllocationTotal(allocs) == amount && Affordable(b.entries, office, w, allocs)
  {
    var es := PendingDocuments(b, office, w, selected);
    var allocs := BuildAllocations(es, amount).value;
    DocumentsDiffer(b, office, w, selected);
    AllocationIsExact(es, amount);
    forall j | 0 <= j < |allocs|
      ensures AllocationSound(b.entries, office, w, allocs[j])
      ensures Payable(b.entries[allocs[j].entry])
      ensures allocs[j].amount > 0 ==> allocs[j].amount <= Outstanding(b.entries[allocs[j].entry])
      ensures allocs[j].amount < 0 ==> allocs[j].amount == Outstanding(b.entries[allocs[j].entry])
    {
      assert Mentions(allocs, allocs[j].entry);
      var i :| 0 <= i < |es| && es[i].id == allocs[j].entry;
      MentionedGetsItsAmount(allocs, j);
      assert EntrySound(b, es[i].id);
    }
  }

  // ----- the steps of a run

  datatype Step =
    | CreatePayout(req: Request)
    | EditPayout(id: SettlementKey, amount: int, details: Details)
    | Adjust(entry: Entry)
    | SourcePut(entry: Entry)

  /** What the handlers and the source calculators let through to the store. */
  predicate Admitted(step: Step) {
    match step
    case CreatePayout(req) => req.amount > 0
    case EditPayout(_, amount, _) => amount > 0
    case Adjust(e) => e.amount != 0 && e.settled == 0 && e.status == Open
    case SourcePut(e) => (e.status == Open && e.settled == 0) || (e.status == Settled && e.settled == e.amount)
  }

  /** `CreateAdjustment`: inserted once per idempotency key. */
  function InsertOnce(m: Entries, e: Entry): Entries {
    if e.id in m then m else m[e.id := e.(stamp := |m|)]
  }

  /** The book after a write that stores `m'`; a write to `k` resets what counts as paid at source. */
  function Written(b: Book, m': Entries, k: EntryKey): Book
    requires k in m'
  {
    Book(m', b.settlements, if k !in b.entries || m'[k] != b.entries[k] then b.paidAtSource[k := m'[k].settled] else b.paidAtSource)
  }

  ghost function Next(b: Book, step: Step): Book
    requires StampsDiffer(b.entries)
  {
    if !Admitted(step) then b
    else
      match step
      case CreatePayout(req) => (match Allocate(b, req) case Ok(b') => b' case Err(_) => b)
      case EditPayout(id, amount, details) => (match Update(b, id, amount, details) case Ok(b') => b' case Err(_) => b)
      case Adjust(e) => Written(b, InsertOnce(b.entries, e), e.id)
      case SourcePut(e) => Written(b, PutSource(b.entries, e), e.id)
  }

  lemma NewEntryIsUnpaid(b: Book, k: EntryKey)
    requires Sound(b) && k !in b.entries
    ensures Live(b.settlements, k) == 0
    ensures forall id :: id in b.settlements ==> !Mentions(b.settlements[id].allocations, k)
  {
    forall id | id in b.settlements
      ensures !Mentions(b.settlements[id].allocations, k) && PaidTo(k)(b.settlements[id]) == 0
    {
      var s := b.settlements[id];
      forall i | 0 <= i < |s.allocations| ensures s.allocations[i].entry != k {
        assert AllocationSound(b.entries, s.id.office, s.window, s.allocations[i]);
      }
      UnmentionedGetsNothing(s.allocations, k);
    }
    MapSumZero(b.settlements, PaidTo(k));
  }

  lemma StoreSparesSettlement(m: Entries, s: Settlement, e: Entry)
    requires SettlementSound(m, s) && !Mentions(s.allocations, e.id)
    ensures SettlementSound(m[e.id := e], s)
  {
    forall i | 0 <= i < |s.allocations| ensures AllocationSound(m[e.id := e], s.id.office, s.window, s.allocations[i]) {
      assert AllocationSound(m, s.id.office, s.window, s.allocations[i]);
      assert s.allocations[i].entry != e.id;
    }
  }

  lemma StoreKeepsStamps(m: Entries, e: Entry)
    requires StampsDiffer(m)
    requires if e.id in m then e.stamp == m[e.id].stamp else e.stamp == |m|
    ensures StampsDiffer(m[e.id := e])
  {
    assert |m[e.id := e]| == |m[e.id := e].Keys| && |m| == |m.Keys|;
    assert m[e.id := e].Keys == m.Keys + {e.id};
  }

  lemma StoredEntriesSound(b: Book, e: Entry, j: EntryKey)
    requires Sound(b) && Admitted(SourcePut(e)) && (e.id in b.entries ==> b.entries[e.id].settled == 0)
    requires j == e.id || j in b.entries
    ensures EntrySound(Book(b.entries[e.id := e], b.settlements, b.paidAtSource[e.id := e.settled]), j)
  {
    if j == e.id {
      StoreLeavesUnpaid(b, j);
    } else {
      assert EntrySound(b, j);
    }
  }

  lemma StoredSettlementsSound(b: Book, e: Entry, id: SettlementKey)
    requires Sound(b) && (e.id in b.entries ==> b.entries[e.id].settled == 0) && id in b.settlements
    ensures b.settlements[id].id == id && SettlementSound(b.entries[e.id := e], b.settlements[id])
  {
    hide SettlementSound, EntrySound;
    if e.id in b.entries { UnsettledHasNoAllocation(b, e.id, id); } else { NewEntryIsUnpaid(b, e.id); }
    StoreSparesSettlement(b.entries, b.settlements[id], e);
  }

  /** Storing a well-shaped entry where nothing is allocated keeps the book sound. */
  lemma StoreKeepsSound(b: Book, e: Entry)
    requires Sound(b) && Admitted(SourcePut(e))
    requires if e.id in b.entries then b.entries[e.id].settled == 0 && e.stamp == b.entries[e.id].stamp
             else e.stamp == |b.entries|
    ensures Sound(Book(b.entries[e.id := e], b.settlements, b.paidAtSource[e.id := e.settled]))
  {
    hide EntrySound, SettlementSound, StampsDiffer;
    var b' := Book(b.entries[e.id := e], b.settlements, b.paidAtSource[e.id := e.settled]);
    StoreKeepsStamps(b.entries, e);
    forall j | j in b'.entries ensures EntrySound(b', j) {
      StoredEntriesSound(b, e, j);
    }
    forall id | id in b'.settlements ensures b'.settlements[id].id == id && SettlementSound(b'.entries, b'.settlements[id]) {
      StoredSettlementsSound(b, e, id);
    }
  }

  lemma StoreLeavesUnpaid(b: Book, k: EntryKey)
    requires Sound(b) && (k in b.entries ==> b.entries[k].settled == 0)
    ensures Live(b.settlements, k) == 0
  {
    if k in b.entries {
      if b.settlements == map[] {
      } else {
        var id :| id in b.settlements;
        UnsettledHasNoAllocation(b, k, id);
        LiveSign(b, b.settlements, k);
      }
    } else {
      NewEntryIsUnpaid(b, k);
    }
  }

  lemma AllocateKeepsSound(b: Book, req: Request)
    requires Sound(b) && req.amount > 0
    ensures Allocate(b, req).Ok? ==> Sound(Allocate(b, req).value)
  {
    if req.id !in b.settlements && Allocate(b, req).Ok? {
      PendingIsAffordable(b, req.id.office, req.window, req.selected, req.amount);
      var allocs := BuildAllocations(PendingDocuments(b, req.id.office, req.window, req.selected), req.amount).value;
      SettleKeepsSound(b, Settlement(req.id, req.window, req.amount, req.details, allocs, []), false);
    }
  }

  lemma RewordKeepsSound(b: Book, s: Settlement)
    requires Sound(b) && s.id in b.settlements
    requires s == b.settlements[s.id].(details := s.details, revisions := s.revisions)
    ensures Sound(b.(settlements := b.settlements[s.id := s]))
  {
    hide StampsDiffer, WithinBounds, StatusMatches, AllocationSound, AllocationTotal, DistinctEntries;
    var b' := b.(settlements := b.settlements[s.id := s]);
    forall k | k in b'.entries ensures EntrySound(b', k) {
      MapSumPut(b.settlements, PaidTo(k), s.id, s);
      assert EntrySound(b, k);
    }
    forall id | id in b'.settlements ensures b'.settlements[id].id == id && SettlementSound(b'.entries, b'.settlements[id]) {
      assert SettlementSound(b.entries, b.settlements[id]);
    }
  }

  lemma UpdateKeepsSound(b: Book, id: SettlementKey, amount: int, details: Details)
    requires Sound(b) && amount > 0
    ensures Update(b, id, amount, details).Ok? ==> Sound(Update(b, id, amount, details).value)
  {
    hide EntrySound, SettlementSound, BuildAllocations, PendingDocuments, Post;
    if id in b.settlements && Update(b, id, amount, details).Ok? {
      var s := b.settlements[id];
      if amount == s.amount {
        RewordKeepsSound(b, Revised(s, amount, details, s.allocations));
      } else {
        var open := Unsettle(b, id);
        UnsettleKeepsSound(b, id);
        PendingIsAffordable(open, id.office, s.window, [], amount);
        var allocs := BuildAllocations(PendingDocuments(open, id.office, s.window, []), amount).value;
        SettleKeepsSound(open, Revised(s, amount, details, allocs), true);
      }
    }
  }

  lemma NextKeepsSound(b: Book, step: Step)
    requires Sound(b)
    ensures Sound(Next(b, step))
  {
    hide Sound, Update, Allocate;
    if Admitted(step) {
      match step
      case CreatePayout(req) => AllocateKeepsSound(b, req);
      case EditPayout(id, amount, details) => UpdateKeepsSound(b, id, amount, details);
      case Adjust(e) =>
        if e.id !in b.entries {
          StoreKeepsSound(b, e.(stamp := |b.entries|));
        }
      case SourcePut(e) =>
        if e.id !in b.entries {
          StoreKeepsSound(b, e.(stamp := |b.entries|));
        } else if !Frozen(b.entries[e.id]) && !SameSource(b.entries[e.id], e) {
          StoreKeepsSound(b, e.(stamp := b.entries[e.id].stamp));
        }
    }
  }

  ghost predicate IsRun(books: seq<Book>, steps: seq<Step>) {
    && |books| == |steps| + 1
    && books[0] == EMPTY_BOOK
    && forall i {:trigger Stepped(books, steps, i)} :: 0 <= i < |steps| ==> Stepped(books, steps, i)
  }

  ghost predicate Stepped(books: seq<Book>, steps: seq<Step>, i: nat)
    requires |books| == |steps| + 1 && i < |steps|
  {
    StampsDiffer(books[i].entries) && books[i + 1] == Next(books[i], steps[i])
  }

  lemma NothingIsSound()
    ensures Sound(EMPTY_BOOK)
  {
  }

  /** Every book a run of payouts, edits, adjustments and source writes passes through is sound. */
  lemma {:induction false} RunsStaySound(books: seq<Book>, steps: seq<Step>, i: nat)
    requires IsRun(books, steps) && i <= |steps|
    ensures Sound(books[i])
  {
    if i == 0 {
      NothingIsSound();
    } else {
      hide Sound, Next;
      RunsStaySound(books, steps, i - 1);
      assert Stepped(books, steps, i - 1);
      NextKeepsSound(books[i - 1], steps[i - 1]);
    }
  }

  // ----- editing

  lemma UnsettledEntry(b: Book, s: Settlement, editing: bool, k: EntryKey)
    requires Sound(b) && Fits(b, s) && k in b.entries
    ensures var m' := Post(b.entries, s.allocations, editing);
            k in Post(m', Reversal(s.allocations), true) && Post(m', Reversal(s.allocations), true)[k] == b.entries[k]
  {
    hide Post, Reversal, AllocatedTo, SettlementSound;
    var allocs := s.allocations;
    var m' := Post(b.entries, allocs, editing);
    PostAt(b.entries, allocs, editing, k);
    ReversalFacts(allocs, k);
    PostAt(m', Reversal(allocs), true, k);
    assert EntrySound(b, k);
    if Mentions(allocs, k) {
      var i :| 0 <= i < |allocs| && allocs[i].entry == k;
      assert AllocationSound(b.entries, s.id.office, s.window, allocs[i]);
    }
  }

  lemma EntriesRestored(b: Book, s: Settlement, editing: bool)
    requires Sound(b) && Fits(b, s)
    ensures Post(Post(b.entries, s.allocations, editing), Reversal(s.allocations), true) == b.entries
  {
    hide Post, Reversal, Sound, Fits;
    var m' := Post(b.entries, s.allocations, editing);
    PostKeys(b.entries, s.allocations, editing);
    PostKeys(m', Reversal(s.allocations), true);
    forall k | k in b.entries ensures Post(m', Reversal(s.allocations), true)[k] == b.entries[k] {
      UnsettledEntry(b, s, editing, k);
    }
  }

  /** Taking a settlement back out restores the book it was added to. */
  lemma UnsettleUndoesSettle(b: Book, s: Settlement, editing: bool)
    requires Sound(b) && Fits(b, s)
    ensures Unsettle(Settle(b, s, editing), s.id) == b
  {
    EntriesRestored(b, s, editing);
    RemoveUndoesAdd(b.settlements, s);
  }

  lemma RemoveUndoesAdd(ss: SettlementMap, s: Settlement)
    requires s.id !in ss
    ensures ss[s.id := s] - {s.id} == ss
  {
  }

  /** A book with one settlement's revision history dropped. */
  function WithoutHistory(b: Book, id: SettlementKey): Book {
    if id in b.settlements then b.(settlements := b.settlements[id := b.settlements[id].(revisions := [])]) else b
  }

  /** A settlement that paid the whole window, whenever it was written. */
  ghost predicate PaidWindow(b: Book, s: Settlement) {
    && Sound(b) && s.id !in b.settlements && s.amount > 0
    && BuildAllocations(PendingDocuments(b, s.id.office, s.window, []), s.amount) == Ok(s.allocations)
  }

  ghost predicate SameOutcome(a: Result<Book, SettlementError>, b: Result<Book, SettlementError>, id: SettlementKey) {
    if a.Ok? && b.Ok? then WithoutHistory(a.value, id) == WithoutHistory(b.value, id) else a == b
  }

  lemma SettledEntriesPresent(b: Book, s: Settlement, editing: bool)
    requires Sound(b) && Fits(b, s)
    ensures EntriesPresent(Settle(b, s, editing).entries, s.id.office, s.allocations)
  {
    PostKeys(b.entries, s.allocations, editing);
    forall i | 0 <= i < |s.allocations|
      ensures s.allocations[i].entry in b.entries && s.allocations[i].entry.office == s.id.office
    {
      assert AllocationSound(b.entries, s.id.office, s.window, s.allocations[i]);
      assert b.entries[s.allocations[i].entry].id == s.allocations[i].entry;
    }
  }

  /** Both ways of writing these allocations store the same entries. */
  predicate WritesAlike(m: Entries, allocs: seq<Allocation>) {
    Post(m, allocs, false) == Post(m, allocs, true)
  }

  /** Settlements that differ only in their history leave books that differ only there. */
  lemma HistoryIsAllThatDiffers(b: Book, s: Settlement, s': Settlement, editing: bool)
    requires WritesAlike(b.entries, s.allocations) && s'.(revisions := []) == s.(revisions := [])
    ensures WithoutHistory(Settle(b, s, true), s.id) == WithoutHistory(Settle(b, s', editing), s.id)
  {
    var c, d := WithoutHistory(Settle(b, s, true), s.id), WithoutHistory(Settle(b, s', editing), s.id);
    assert c.settlements == b.settlements[s.id := s.(revisions := [])] == d.settlements;
  }

  /** What an edit of a just-settled payout comes to. */
  lemma EditOf(b: Book, s: Settlement, editing: bool, amount: int, details: Details)
    requires StampsDiffer(b.entries) && StampsDiffer(Settle(b, s, editing).entries)
    requires WritesAlike(b.entries, s.allocations)
    requires EntriesPresent(Settle(b, s, editing).entries, s.id.office, s.allocations)
    requires Unsettle(Settle(b, s, editing), s.id) == b
    ensures var edited := Update(Settle(b, s, editing), s.id, amount, details);
            if amount == s.amount then edited == Ok(Settle(b, Revised(s, amount, details, s.allocations), true))
            else
              match BuildAllocations(PendingDocuments(b, s.id.office, s.window, []), amount)
              case Err(e) => edited == Err(e)
              case Ok(allocs) => edited == Ok(Settle(b, Revised(s, amount, details, allocs), true))
  {
    var s' := Revised(s, amount, details, s.allocations);
    assert b.settlements[s.id := s][s.id := s'] == b.settlements[s.id := s'];
  }

  /** Everything `EditOf` asks for, for a payout of a whole window. */
  lemma PaidWindowIsEditable(b: Book, s: Settlement, editing: bool)
    requires PaidWindow(b, s)
    ensures Fits(b, s) && Sound(Settle(b, s, editing))
    ensures StampsDiffer(b.entries) && StampsDiffer(Settle(b, s, editing).entries)
    ensures WritesAlike(b.entries, s.allocations)
    ensures EntriesPresent(Settle(b, s, editing).entries, s.id.office, s.allocations)
    ensures Unsettle(Settle(b, s, editing), s.id) == b
  {
    PendingIsAffordable(b, s.id.office, s.window, [], s.amount);
    SettleKeepsSound(b, s, editing);
    PostsAlike(b, s, false);
    SettledEntriesPresent(b, s, editing);
    UnsettleUndoesSettle(b, s, editing);
  }

  lemma EditRedoes(b: Book, s: Settlement, editing: bool, amount: int, details: Details)
    requires PaidWindow(b, s) && amount > 0
    ensures Sound(Settle(b, s, editing))
    ensures SameOutcome(Update(Settle(b, s, editing), s.id, amount, details),
                        Allocate(b, Request(s.id, s.window, amount, details, [])), s.id)
    ensures Update(Settle(b, s, editing), s.id, amount, details).Ok? ==>
              exists s' :: PaidWindow(b, s') && s'.id == s.id && s'.window == s.window
                           && Update(Settle(b, s, editing), s.id, amount, details).value == Settle(b, s', true)
  {
    hide Sound, Fits, Post, BuildAllocations, PendingDocuments, StampsDiffer, Settle, Unsettle, EntriesPresent, WritesAlike;
    PaidWindowIsEditable(b, s, editing);
    EditOf(b, s, editing, amount, details);
    var built := BuildAllocations(PendingDocuments(b, s.id.office, s.window, []), amount);
    if built.Ok? {
      var s' := Revised(s, amount, details, built.value);
      assert PaidWindow(b, s');
      PaidWindowIsEditable(b, s', true);
      HistoryIsAllThatDiffers(b, s', s'.(revisions := []), false);
    }
  }

  /** Paying A and then correcting it to B is paying B: the same entries and allocations, and
      the same refusal when B cannot be paid. */
  lemma EditEqualsPayingRight(b: Book, req: Request, amount: int, details: Details)
    requires Sound(b) && req.selected == [] && req.id !in b.settlements
    requires req.amount > 0 && amount > 0 && Allocate(b, req).Ok?
    ensures Sound(Allocate(b, req).value)
    ensures SameOutcome(Update(Allocate(b, req).value, req.id, amount, details),
                        Allocate(b, req.(amount := amount, details := details)), req.id)
  {
    var allocs := BuildAllocations(PendingDocuments(b, req.id.office, req.window, []), req.amount).value;
    EditRedoes(b, Settlement(req.id, req.window, req.amount, req.details, allocs, []), false, amount, details);
  }

  /** Correcting A to B and back to A restores everything except the revision history. */
  lemma EditRoundTrip(b: Book, req: Request, amount: int, details: Details)
    requires Sound(b) && req.selected == [] && req.id !in b.settlements
    requires req.amount > 0 && amount > 0 && Allocate(b, req).Ok?
    ensures var paid := Allocate(b, req).value;
            && Sound(paid)
            && (Update(paid, req.id, amount, details).Ok? ==>
                  var edited := Update(paid, req.id, amount, details).value;
                  && Sound(edited)
                  && Update(edited, req.id, req.amount, req.details).Ok?
                  && WithoutHistory(Update(edited, req.id, req.amount, req.details).value, req.id)
                     == WithoutHistory(paid, req.id))
  {
    var allocs := BuildAllocations(PendingDocuments(b, req.id.office, req.window, []), req.amount).value;
    var s := Settlement(req.id, req.window, req.amount, req.details, allocs, []);
    EditRedoes(b, s, false, amount, details);
    if Update(Settle(b, s, false), req.id, amount, details).Ok? {
      var s' :| PaidWindow(b, s') && s'.id == s.id && s'.window == s.window
                && Update(Settle(b, s, false), s.id, amount, details).value == Settle(b, s', true);
      EditRedoes(b, s', true, req.amount, req.details);
    }
  }
}
