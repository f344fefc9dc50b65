/** `AllocateSettlement` without transactions: any number of payouts, interleaved one entry
    update at a time. Each update is a compare-and-set on the settled amount read earlier. */
module Interleaving {
  import opened Wrappers
  import opened Ledger
  import opened Ranking
  import opened Sums
  import opened Allocations
  import opened Settlements
  import opened LedgerInvariant

  /** One pending update: the entry, the settled amount its cursor read, and what to add. */
  datatype Write = Write(entry: EntryKey, seen: int, amount: int)

  datatype Progress = Running | Failed | Recorded

  datatype Call = Call(request: Settlement, plan: seq<Write>, next: nat, progress: Progress, paid: seq<Allocation>)

  /** `versions` are all documents ever stored: a cursor may return any of them, so a listing
      need not be one consistent snapshot. */
  datatype Shared = Shared(entries: Entries, versions: set<Entry>, calls: seq<Call>, payouts: SettlementMap)

  /** `Begin` lists and plans, `Advance` is one entry update, `Record` the final insert of the payout
      under its unique key, `Fail` any store error in between; `Insert` is an unrelated new entry. */
  datatype Step =
    | Begin(request: Settlement, documents: seq<Entry>)
    | Advance(call: nat)
    | Record(call: nat)
    | Fail(call: nat)
    | Insert(entry: Entry)

  function SeenOf(documents: seq<Entry>, k: EntryKey): int {
    if documents == [] then 0
    else if documents[0].id == k then documents[0].settled
    else SeenOf(documents[1..], k)
  }

  function PlanOf(documents: seq<Entry>, allocs: seq<Allocation>): (plan: seq<Write>)
    ensures |plan| == |allocs|
  {
    seq(|allocs|, i requires 0 <= i < |allocs| =>
      Write(allocs[i].entry, SeenOf(documents, allocs[i].entry), allocs[i].amount))
  }

  function Shared0(m: Entries): Shared {
    Shared(m, m.Values, [], map[])
  }

  ghost predicate Readable(s: Shared, documents: seq<Entry>) {
    && DistinctIds(documents)
    && forall i :: 0 <= i < |documents| ==> documents[i] in s.versions && Payable(documents[i])
  }

  ghost function Next(s: Shared, step: Step): Shared {
    match step
    case Begin(request, documents) =>
      if request.id in s.payouts || request.amount <= 0 || !Readable(s, documents) then s
      else (
        match BuildAllocations(documents, request.amount)
        case Err(_) => s
        case Ok(allocs) => s.(calls := s.calls + [Call(request, PlanOf(documents, allocs), 0, Running, [])]))
    case Advance(i) =>
      if i >= |s.calls| || s.calls[i].progress != Running || s.calls[i].next >= |s.calls[i].plan| then s
      else
        var c := s.calls[i];
        var w := c.plan[c.next];
        if w.entry in s.entries && s.entries[w.entry].settled == w.seen && Payable(s.entries[w.entry]) then
          var e := Posted(s.entries[w.entry], w.amount, false);
          s.(entries := s.entries[w.entry := e], versions := s.versions + {e},
             calls := s.calls[i := c.(next := c.next + 1, paid := c.paid + [Allocation(w.entry, w.amount)])])
        else s.(calls := s.calls[i := c.(progress := Failed)])
    case Record(i) =>
      if i >= |s.calls| || s.calls[i].progress != Running || s.calls[i].next < |s.calls[i].plan| then s
      else
        var c := s.calls[i];
        if c.request.id in s.payouts then s.(calls := s.calls[i := c.(progress := Failed)])
        else s.(calls := s.calls[i := c.(progress := Recorded)], payouts := s.payouts[c.request.id := c.request.(allocations := c.paid)])
    case Fail(i) =>
      if i >= |s.calls| || s.calls[i].progress != Running then s
      else s.(calls := s.calls[i := s.calls[i].(progress := Failed)])
    case Insert(e) =>
      if e.id in s.entries || e.amount == 0 || e.settled != 0 || e.status != Open then s
      else
        var stored := e.(stamp := |s.entries|);
        s.(entries := s.entries[e.id := stored], versions := s.versions + {stored})
  }

  /** What all calls together have paid to one entry, aborted ones included. */
  function PaidByAll(calls: seq<Call>, k: EntryKey): int {
    if calls == [] then 0 else PaidByAll(calls[..|calls| - 1], k) + AllocatedTo(calls[|calls| - 1].paid, k)
  }

  lemma {:induction false} PaidByUpdate(calls: seq<Call>, i: nat, c: Call, k: EntryKey)
    requires i < |calls|
    ensures PaidByAll(calls[i := c], k) == PaidByAll(calls, k) - AllocatedTo(calls[i].paid, k) + AllocatedTo(c.paid, k)
  {
    var n := |calls| - 1;
    if i < n {
      PaidByUpdate(calls[..n], i, c, k);
      assert calls[i := c][..n] == calls[..n][i := c];
    } else {
      assert calls[i := c][..n] == calls[..n];
    }
  }

  function SettledAtStart(m: Entries, k: EntryKey): int {
    if k in m then m[k].settled else 0
  }

  ghost predicate Intact(e: Entry) {
    WithinBounds(e) && StatusMatches(e)
  }

  /** A planned write is right for the document it was planned from. */
  ghost predicate WriteFits(m: Entries, w: Write) {
    && w.entry in m && m[w.entry].amount != 0
    && (0 < w.amount <= m[w.entry].amount - w.seen || (w.amount < 0 && w.amount == m[w.entry].amount - w.seen))
  }

  ghost predicate Consistent(m0: Entries, s: Shared) {
    && m0.Keys <= s.entries.Keys
    && (forall k :: k in s.entries ==>
          && s.entries[k].id == k && Intact(s.entries[k])
          && s.entries[k].settled == SettledAtStart(m0, k) + PaidByAll(s.calls, k))
    && (forall k :: k !in s.entries ==> PaidByAll(s.calls, k) == 0)
    && (forall v :: v in s.versions ==> v.id in s.entries && s.entries[v.id].amount == v.amount && Intact(v))
    && (forall i, j :: 0 <= i < |s.calls| && 0 <= j < |s.calls[i].plan| ==> WriteFits(s.entries, s.calls[i].plan[j]))
  }

  lemma {:induction false} SeenIs(documents: seq<Entry>, i: nat)
    requires DistinctIds(documents) && i < |documents|
    ensures SeenOf(documents, documents[i].id) == documents[i].settled
  {
    if i > 0 {
      SeenIs(documents[1..], i - 1);
    }
  }

  lemma PlanFits(m0: Entries, s: Shared, documents: seq<Entry>, requested: int)
    requires Consistent(m0, s) && Readable(s, documents) && requested > 0
    requires BuildAllocations(documents, requested).Ok?
    ensures var plan := PlanOf(documents, BuildAllocations(documents, requested).value);
            forall j :: 0 <= j < |plan| ==> WriteFits(s.entries, plan[j])
  {
    hide BuildAllocations, AllocatedTo, SeenOf;
    var allocs := BuildAllocations(documents, requested).value;
    AllocationIsExact(documents, requested);
    forall j | 0 <= j < |allocs| ensures WriteFits(s.entries, PlanOf(documents, allocs)[j]) {
      assert Mentions(allocs, allocs[j].entry);
      var i :| 0 <= i < |documents| && documents[i].id == allocs[j].entry;
      MentionedGetsItsAmount(allocs, j);
      SeenIs(documents, i);
      assert documents[i] in s.versions;
    }
  }

  lemma BeginKeepsConsistent(m0: Entries, s: Shared, request: Settlement, documents: seq<Entry>)
    requires Consistent(m0, s)
    ensures Consistent(m0, Next(s, Begin(request, documents)))
  {
    var s' := Next(s, Begin(request, documents));
    if s' != s {
      PlanFits(m0, s, documents, request.amount);
      forall k: EntryKey ensures PaidByAll(s'.calls, k) == PaidByAll(s.calls, k) {
        assert s'.calls[..|s.calls|] == s.calls;
      }
    }
  }

  lemma AdvanceKeepsConsistent(m0: Entries, s: Shared, i: nat)
    requires Consistent(m0, s)
    ensures Consistent(m0, Next(s, Advance(i)))
  {
    hide AllocatedTo, PaidByAll, Intact;
    if i < |s.calls| && s.calls[i].progress == Running && s.calls[i].next < |s.calls[i].plan| {
      var s' := Next(s, Advance(i));
      if s'.calls[i].progress == Running {
        UpdateKeepsConsistent(m0, s, i);
      } else {
        forall k: EntryKey ensures PaidByAll(s'.calls, k) == PaidByAll(s.calls, k) {
          PaidByUpdate(s.calls, i, s'.calls[i], k);
        }
        WritesStillFit(s, s', i);
      }
    }
  }

  /** One more update of a call: the entry it pays gains just what the call has paid. */
  lemma UpdateKeepsConsistent(m0: Entries, s: Shared, i: nat)
    requires Consistent(m0, s) && i < |s.calls| && s.calls[i].progress == Running && s.calls[i].next < |s.calls[i].plan|
    requires Next(s, Advance(i)).calls[i].progress == Running
    ensures Consistent(m0, Next(s, Advance(i)))
  {
    hide AllocatedTo, PaidByAll, Intact, WriteFits;
    var s', c := Next(s, Advance(i)), s.calls[i];
    var w := c.plan[c.next];
    UpdateIsIntact(s.entries, w);
    forall k: EntryKey
      ensures PaidByAll(s'.calls, k) == PaidByAll(s.calls, k) + (if w.entry == k then w.amount else 0)
    {
      PaidByUpdate(s.calls, i, s'.calls[i], k);
      SnocFacts(c.paid, Allocation(w.entry, w.amount), k);
    }
    WritesStillFit(s, s', i);
  }

  lemma UpdateIsIntact(m: Entries, w: Write)
    requires WriteFits(m, w) && Intact(m[w.entry]) && m[w.entry].settled == w.seen && Payable(m[w.entry])
    ensures var e, e' := m[w.entry], Posted(m[w.entry], w.amount, false);
            && Intact(e') && e'.id == e.id && e'.amount == e.amount && e'.settled == e.settled + w.amount
  {
    PostedStaysSound(m[w.entry], w.amount, false);
  }

  lemma WritesStillFit(s: Shared, s': Shared, i: nat)
    requires i < |s.calls| == |s'.calls| && s'.calls[i].plan == s.calls[i].plan
    requires forall j :: 0 <= j < |s.calls| && j != i ==> s'.calls[j] == s.calls[j]
    requires s'.entries.Keys == s.entries.Keys
    requires forall k :: k in s.entries ==> s'.entries[k].amount == s.entries[k].amount
    requires forall p, q :: 0 <= p < |s.calls| && 0 <= q < |s.calls[p].plan| ==> WriteFits(s.entries, s.calls[p].plan[q])
    ensures forall p, q :: 0 <= p < |s'.calls| && 0 <= q < |s'.calls[p].plan| ==> WriteFits(s'.entries, s'.calls[p].plan[q])
  {
    forall p, q | 0 <= p < |s'.calls| && 0 <= q < |s'.calls[p].plan|
      ensures WriteFits(s'.entries, s'.calls[p].plan[q])
    {
      assert s'.calls[p].plan == s.calls[p].plan;
      assert WriteFits(s.entries, s.calls[p].plan[q]);
    }
  }

  lemma FreshIsIntact(e: Entry, place: nat)
    ensures e.amount != 0 && e.settled == 0 && e.status == Open ==> Intact(e.(stamp := place))
  {
  }

  lemma InsertKeepsConsistent(m0: Entries, s: Shared, e: Entry)
    requires Consistent(m0, s)
    ensures Consistent(m0, Next(s, Insert(e)))
  {
    hide PaidByAll, AllocatedTo, Intact;
    assert e.amount != 0 && e.settled == 0 && e.status == Open ==> Intact(e.(stamp := |s.entries|)) by {
      FreshIsIntact(e, |s.entries|);
    }
    var s' := Next(s, Insert(e));
    if s' != s {
      assert e.id !in m0;
      forall i, j | 0 <= i < |s.calls| && 0 <= j < |s.calls[i].plan| ensures WriteFits(s'.entries, s.calls[i].plan[j]) {
        assert WriteFits(s.entries, s.calls[i].plan[j]);
      }
    }
  }

  /** Ending a call, with or without its payout on record, moves no entry. */
  lemma EndKeepsConsistent(m0: Entries, s: Shared, step: Step)
    requires Consistent(m0, s) && (step.Record? || step.Fail?)
    ensures Consistent(m0, Next(s, step))
  {
    hide AllocatedTo, PaidByAll, Intact;
    var s', i := Next(s, step), step.call;
    if i < |s.calls| && s' != s {
      forall k: EntryKey ensures PaidByAll(s'.calls, k) == PaidByAll(s.calls, k) {
        PaidByUpdate(s.calls, i, s'.calls[i], k);
      }
      WritesStillFit(s, s', i);
    }
  }

  ghost predicate IsSchedule(states: seq<Shared>, steps: seq<Step>) {
    && |states| == |steps| + 1
    && forall i :: 0 <= i < |steps| ==> states[i + 1] == Next(states[i], steps[i])
  }

  /** In every schedule no entry leaves its bounds, its status follows its settled amount, and
      what it gained is the sum of the updates that went through, whichever calls aborted. */
  lemma {:induction false} SchedulesStayConsistent(m0: Entries, states: seq<Shared>, steps: seq<Step>, i: nat)
    requires IsSchedule(states, steps) && i <= |steps| && states[0] == Shared0(m0)
    requires forall k :: k in m0 ==> m0[k].id == k && Intact(m0[k])
    ensures Consistent(m0, states[i])
  {
    if i > 0 {
      SchedulesStayConsistent(m0, states, steps, i - 1);
      match steps[i - 1]
      case Begin(request, documents) => BeginKeepsConsistent(m0, states[i - 1], request, documents);
      case Advance(c) => AdvanceKeepsConsistent(m0, states[i - 1], c);
      case Record(_) => EndKeepsConsistent(m0, states[i - 1], steps[i - 1]);
      case Fail(_) => EndKeepsConsistent(m0, states[i - 1], steps[i - 1]);
      case Insert(e) => InsertKeepsConsistent(m0, states[i - 1], e);
    }
  }

  // ----- payouts on record

  /** What the calls with a payout on record, or those without, have paid to one entry. */
  function PaidBy(calls: seq<Call>, recorded: bool, k: EntryKey): int {
    if calls == [] then 0
    else
      var c := calls[|calls| - 1];
      PaidBy(calls[..|calls| - 1], recorded, k) + if (c.progress == Recorded) == recorded then AllocatedTo(c.paid, k) else 0
  }

  lemma {:induction false} PaidBySplits(calls: seq<Call>, k: EntryKey)
    ensures PaidByAll(calls, k) == PaidBy(calls, true, k) + PaidBy(calls, false, k)
  {
    if calls != [] {
      PaidBySplits(calls[..|calls| - 1], k);
    }
  }

  function PaidShare(c: Call, recorded: bool, k: EntryKey): int {
    if (c.progress == Recorded) == recorded then AllocatedTo(c.paid, k) else 0
  }

  lemma {:induction false} PaidByChange(calls: seq<Call>, i: nat, c: Call, recorded: bool, k: EntryKey)
    requires i < |calls|
    ensures PaidBy(calls[i := c], recorded, k) == PaidBy(calls, recorded, k) - PaidShare(calls[i], recorded, k) + PaidShare(c, recorded, k)
  {
    var n := |calls| - 1;
    if i < n {
      PaidByChange(calls[..n], i, c, recorded, k);
      assert calls[i := c][..n] == calls[..n][i := c];
    } else {
      assert calls[i := c][..n] == calls[..n];
    }
  }

  /** The allocations of the first `n` writes. */
  function Planned(plan: seq<Write>, n: nat): seq<Allocation>
    requires n <= |plan|
  {
    seq(n, i requires 0 <= i < n => Allocation(plan[i].entry, plan[i].amount))
  }

  /** A call has applied a prefix of a plan that is worth the amount requested. */
  ghost predicate CallSound(c: Call) {
    && c.next <= |c.plan| && c.paid == Planned(c.plan, c.next)
    && AllocationTotal(Planned(c.plan, |c.plan|)) == c.request.amount
    && DistinctEntries(Planned(c.plan, |c.plan|))
  }

  /** Every payout on record is worth its amount, entry by entry what one finished call applied. */
  ghost predicate Booked(s: Shared) {
    && (forall i :: 0 <= i < |s.calls| ==> CallSound(s.calls[i]))
    && (forall id :: id in s.payouts ==> s.payouts[id].id == id && PayoutAddsUp(s.payouts[id]))
    && (forall k :: Live(s.payouts, k) == PaidBy(s.calls, true, k))
  }

  ghost predicate PayoutAddsUp(p: Settlement) {
    AllocationTotal(p.allocations) == p.amount && DistinctEntries(p.allocations)
  }

  lemma PlannedAll(documents: seq<Entry>, allocs: seq<Allocation>)
    ensures var plan := PlanOf(documents, allocs); Planned(plan, |plan|) == allocs
  {
  }

  lemma PlannedNext(plan: seq<Write>, n: nat)
    requires n < |plan|
    ensures Planned(plan, n + 1) == Planned(plan, n) + [Allocation(plan[n].entry, plan[n].amount)]
  {
  }

  lemma BeginKeepsBooked(s: Shared, request: Settlement, documents: seq<Entry>)
    requires Booked(s)
    ensures Booked(Next(s, Begin(request, documents)))
  {
    hide BuildAllocations, AllocationTotal, DistinctEntries, Live, PayoutAddsUp;
    var s' := Next(s, Begin(request, documents));
    if s' != s {
      var allocs := BuildAllocations(documents, request.amount).value;
      PlanIsWorth(documents, request.amount);
      assert CallSound(s'.calls[|s.calls|]) by {
        PlannedAll(documents, allocs);
      }
      forall k: EntryKey ensures PaidBy(s'.calls, true, k) == PaidBy(s.calls, true, k) {
        assert s'.calls[..|s.calls|] == s.calls;
      }
    }
  }

  lemma PlanIsWorth(documents: seq<Entry>, requested: int)
    requires requested > 0 && DistinctIds(documents) && BuildAllocations(documents, requested).Ok?
    ensures AllocationTotal(BuildAllocations(documents, requested).value) == requested
    ensures DistinctEntries(BuildAllocations(documents, requested).value)
  {
    AllocationIsExact(documents, requested);
  }

  /** A step on a call that records no payout. */
  lemma CallKeepsBooked(s: Shared, s': Shared, i: nat)
    requires Booked(s) && i < |s.calls| && s.calls[i].progress == Running
    requires |s'.calls| == |s.calls| && s'.calls == s.calls[i := s'.calls[i]] && s'.payouts == s.payouts
    requires CallSound(s'.calls[i]) && s'.calls[i].progress != Recorded
    ensures Booked(s')
  {
    hide CallSound, PaidBy, Live, PayoutAddsUp;
    forall k: EntryKey ensures PaidBy(s'.calls, true, k) == PaidBy(s.calls, true, k) {
      PaidByChange(s.calls, i, s'.calls[i], true, k);
    }
  }

  lemma RecordKeepsBooked(s: Shared, i: nat)
    requires Booked(s)
    ensures Booked(Next(s, Record(i)))
  {
    hide PaidBy, AllocationTotal, DistinctEntries;
    var s' := Next(s, Record(i));
    if s' != s {
      var c, c' := s.calls[i], s'.calls[i];
      assert CallSound(c);
      if c'.progress == Recorded {
        forall k: EntryKey ensures Live(s'.payouts, k) == PaidBy(s'.calls, true, k) {
          PaidByChange(s.calls, i, c', true, k);
          MapSumPut(s.payouts, PaidTo(k), c.request.id, s'.payouts[c.request.id]);
        }
      } else {
        CallKeepsBooked(s, s', i);
      }
    }
  }

  lemma AdvanceKeepsBooked(s: Shared, i: nat)
    requires Booked(s)
    ensures Booked(Next(s, Advance(i)))
  {
    hide PaidBy, Live, PayoutAddsUp, AllocationTotal, DistinctEntries;
    var s' := Next(s, Advance(i));
    if i < |s.calls| && s.calls[i].progress == Running && s.calls[i].next < |s.calls[i].plan| {
      assert CallSound(s.calls[i]);
      PlannedNext(s.calls[i].plan, s.calls[i].next);
      CallKeepsBooked(s, s', i);
    }
  }

  lemma FailKeepsBooked(s: Shared, i: nat)
    requires Booked(s)
    ensures Booked(Next(s, Fail(i)))
  {
    if i < |s.calls| && s.calls[i].progress == Running {
      assert CallSound(s.calls[i]);
      CallKeepsBooked(s, Next(s, Fail(i)), i);
    }
  }

  lemma {:induction false} SchedulesStayBooked(m0: Entries, states: seq<Shared>, steps: seq<Step>, i: nat)
    requires IsSchedule(states, steps) && i <= |steps| && states[0] == Shared0(m0)
    ensures Booked(states[i])
  {
    if i > 0 {
      hide Booked;
      SchedulesStayBooked(m0, states, steps, i - 1);
      match steps[i - 1]
      case Begin(request, documents) => BeginKeepsBooked(states[i - 1], request, documents);
      case Advance(c) => AdvanceKeepsBooked(states[i - 1], c);
      case Record(c) => RecordKeepsBooked(states[i - 1], c);
      case Fail(c) => FailKeepsBooked(states[i - 1], c);
      case Insert(e) => InsertKeepsBooked(states[i - 1], e);
    } else {
      NothingBooked(m0);
    }
  }

  lemma InsertKeepsBooked(s: Shared, e: Entry)
    requires Booked(s)
    ensures Booked(Next(s, Insert(e)))
  {
  }

  lemma NothingBooked(m0: Entries)
    ensures Booked(Shared0(m0))
  {
  }

  /** In every schedule each payout on record is worth its amount, and an entry has been settled by
      the payouts on record and by the calls that got no payout on record, and by nothing else. */
  lemma SettledIsAccounted(m0: Entries, states: seq<Shared>, steps: seq<Step>, i: nat, k: EntryKey)
    requires IsSchedule(states, steps) && i <= |steps| && states[0] == Shared0(m0)
    requires forall j :: j in m0 ==> m0[j].id == j && Intact(m0[j])
    requires k in states[i].entries
    ensures forall id :: id in states[i].payouts ==> PayoutAddsUp(states[i].payouts[id])
    ensures states[i].entries[k].settled
         == SettledAtStart(m0, k) + Live(states[i].payouts, k) + PaidBy(states[i].calls, false, k)
  {
    hide PaidBy, Live, PayoutAddsUp, PaidByAll, Intact, CallSound;
    SchedulesStayConsistent(m0, states, steps, i);
    SchedulesStayBooked(m0, states, steps, i);
    PaidBySplits(states[i].calls, k);
  }
}
