/** `buildAllocations`: which entries a payout of a given amount pays, and how much each. */
module Allocations {
  import opened Wrappers
  import opened Ledger

  datatype SettlementError =
    | NoPendingEarnings
    | ExceedsPending
    | EntriesUnavailable
    | NotFound
    | MissingEntry
    | LedgerChanged

  /** Every deduction among the entries, in full. */
  function Deductions(entries: seq<Entry>): seq<Allocation> {
    if entries == [] then []
    else
      var e := entries[|entries| - 1];
      Deductions(entries[..|entries| - 1])
      + (if Outstanding(e) < 0 then [Allocation(e.id, Outstanding(e))] else [])
  }

  /** Pays positive entries in order from `remaining`; the second part is what is left over. */
  function Payments(entries: seq<Entry>, remaining: int): (seq<Allocation>, int) {
    if entries == [] then ([], remaining)
    else
      var (paid, left) := Payments(entries[..|entries| - 1], remaining);
      var e := entries[|entries| - 1];
      if Outstanding(e) <= 0 || left == 0 then (paid, left)
      else
        var amount := if Outstanding(e) > left then left else Outstanding(e);
        (paid + [Allocation(e.id, amount)], left - amount)
  }

  function BuildAllocations(entries: seq<Entry>, requested: int): Result<seq<Allocation>, SettlementError> {
    if entries == [] then Err(NoPendingEarnings)
    else
      var deducted := Deductions(entries);
      var (paid, left) := Payments(entries, requested - AllocationTotal(deducted));
      if left != 0 then Err(ExceedsPending) else Ok(deducted + paid)
  }

  method Build(entries: seq<Entry>, requested: int) returns (r: Result<seq<Allocation>, SettlementError>)
    ensures r == BuildAllocations(entries, requested)
  {
    if |entries| == 0 {
      return Err(NoPendingEarnings);
    }
    var remaining := requested;
    var allocations: seq<Allocation> := [];
    for i := 0 to |entries|
      invariant allocations == Deductions(entries[..i])
      invariant remaining == requested - AllocationTotal(allocations)
    {
      assert entries[..i + 1][..i] == entries[..i];
      var outstanding := Outstanding(entries[i]);
      if outstanding >= 0 {
        continue;
      }
      ghost var before := allocations;
      allocations := allocations + [Allocation(entries[i].id, outstanding)];
      assert allocations[..|allocations| - 1] == before;
      remaining := remaining - outstanding;
    }
    ghost var start := remaining;
    ghost var deducted := allocations;
    assert entries[..|entries|] == entries;
    for i := 0 to |entries|
      invariant allocations == deducted + Payments(entries[..i], start).0
      invariant remaining == Payments(entries[..i], start).1
    {
      assert entries[..i + 1][..i] == entries[..i];
      var outstanding := Outstanding(entries[i]);
      if outstanding <= 0 || remaining == 0 {
        continue;
      }
      var amount := outstanding;
      if amount > remaining {
        amount := remaining;
      }
      allocations := allocations + [Allocation(entries[i].id, amount)];
      remaining := remaining - amount;
    }
    if remaining != 0 {
      return Err(ExceedsPending);
    }
    return Ok(allocations);
  }

  // ----- what the allocations mean

  function NetOutstanding(entries: seq<Entry>): int {
    if entries == [] then 0 else NetOutstanding(entries[..|entries| - 1]) + Outstanding(entries[|entries| - 1])
  }

  function OwedTotal(entries: seq<Entry>): int {
    if entries == [] then 0
    else
      var e := entries[|entries| - 1];
      OwedTotal(entries[..|entries| - 1]) + (if Outstanding(e) > 0 then Outstanding(e) else 0)
  }

  ghost predicate DistinctIds(entries: seq<Entry>) {
    forall i, j :: 0 <= i < j < |entries| ==> entries[i].id != entries[j].id
  }

  /** What a payout of `requested` owes entry `i`: the whole deduction, or the part of a positive
      entry still covered after everything before it. */
  function Share(entries: seq<Entry>, requested: int, i: nat): int
    requires i < |entries|
  {
    var outstanding := Outstanding(entries[i]);
    if outstanding <= 0 then outstanding
    else
      var budget := requested - AllocationTotal(Deductions(entries)) - OwedTotal(entries[..i]);
      if budget <= 0 then 0 else Min(budget, outstanding)
  }

  lemma {:induction false} DeductionsFacts(entries: seq<Entry>)
    ensures AllocationTotal(Deductions(entries)) == NetOutstanding(entries) - OwedTotal(entries)
    ensures AllocationTotal(Deductions(entries)) <= 0
  {
    if entries != [] {
      var n := |entries| - 1;
      DeductionsFacts(entries[..n]);
      var d, e := Deductions(entries[..n]), entries[n];
      if Outstanding(e) < 0 {
        SnocFacts(d, Allocation(e.id, Outstanding(e)), e.id);
      } else {
        assert Deductions(entries) == d;
      }
    }
  }

  lemma {:induction false} PaymentsFacts(entries: seq<Entry>, remaining: nat)
    ensures Payments(entries, remaining).1 == if OwedTotal(entries) <= remaining then remaining - OwedTotal(entries) else 0
    ensures AllocationTotal(Payments(entries, remaining).0) == remaining - Payments(entries, remaining).1
  {
    if entries != [] {
      var n := |entries| - 1;
      PaymentsFacts(entries[..n], remaining);
      OwedNonNegative(entries[..n]);
      var (paid, left) := Payments(entries[..n], remaining);
      var all := Payments(entries, remaining).0;
      if all != paid {
        assert all[..|paid|] == paid;
      }
    }
  }

  lemma {:induction false} OwedNonNegative(entries: seq<Entry>)
    ensures OwedTotal(entries) >= 0
  {
    if entries != [] {
      OwedNonNegative(entries[..|entries| - 1]);
    }
  }

  /** Only deductions are consumed in the first part, each once and in full. */
  lemma {:induction false} DeductionsName(entries: seq<Entry>, k: EntryKey)
    requires DistinctIds(entries)
    ensures DistinctEntries(Deductions(entries))
    ensures Mentions(Deductions(entries), k) ==>
              exists i :: 0 <= i < |entries| && entries[i].id == k && Outstanding(entries[i]) < 0
  {
    if entries != [] {
      var n := |entries| - 1;
      var init, e := entries[..n], entries[n];
      assert forall i :: 0 <= i < n ==> init[i] == entries[i];
      DeductionsName(init, k);
      DeductionsName(init, e.id);
      if Outstanding(e) < 0 {
        SnocFacts(Deductions(init), Allocation(e.id, Outstanding(e)), k);
      } else {
        assert Deductions(entries) == Deductions(init);
      }
    }
  }

  lemma {:induction false} DeductionAt(entries: seq<Entry>, i: nat)
    requires DistinctIds(entries) && i < |entries|
    ensures AllocatedTo(Deductions(entries), entries[i].id) ==
            if Outstanding(entries[i]) < 0 then Outstanding(entries[i]) else 0
  {
    hide Mentions, DistinctEntries, AllocatedTo;
    var n := |entries| - 1;
    var init, e := entries[..n], entries[n];
    assert forall j :: 0 <= j < n ==> init[j] == entries[j];
    if i < n {
      DeductionAt(init, i);
    } else {
      DeductionsName(init, e.id);
      UnmentionedGetsNothing(Deductions(init), e.id);
    }
    if Outstanding(e) < 0 {
      AllocatedSnoc(Deductions(init), Allocation(e.id, Outstanding(e)), entries[i].id);
    } else {
      assert Deductions(entries) == Deductions(init);
    }
  }

  lemma AllocatedSnoc(allocs: seq<Allocation>, a: Allocation, k: EntryKey)
    ensures AllocatedTo(allocs + [a], k) == AllocatedTo(allocs, k) + (if a.entry == k then a.amount else 0)
  {
    assert (allocs + [a])[..|allocs|] == allocs;
  }

  lemma {:induction false} PaymentsName(entries: seq<Entry>, remaining: nat, k: EntryKey)
    requires DistinctIds(entries)
    ensures DistinctEntries(Payments(entries, remaining).0)
    ensures Mentions(Payments(entries, remaining).0, k) ==>
              exists i :: 0 <= i < |entries| && entries[i].id == k && Outstanding(entries[i]) > 0
  {
    if entries != [] {
      var n := |entries| - 1;
      var init, e := entries[..n], entries[n];
      assert forall i :: 0 <= i < n ==> init[i] == entries[i];
      PaymentsName(init, remaining, k);
      PaymentsName(init, remaining, e.id);
      var (paid, left) := Payments(init, remaining);
      if Outstanding(e) > 0 && left != 0 {
        SnocFacts(paid, Allocation(e.id, if Outstanding(e) > left then left else Outstanding(e)), k);
      }
    }
  }

  lemma {:induction false} PaymentAt(entries: seq<Entry>, remaining: nat, i: nat)
    requires DistinctIds(entries) && i < |entries|
    ensures AllocatedTo(Payments(entries, remaining).0, entries[i].id) ==
            if Outstanding(entries[i]) <= 0 || OwedTotal(entries[..i]) >= remaining then 0
            else Min(remaining - OwedTotal(entries[..i]), Outstanding(entries[i]))
  {
    hide Mentions, DistinctEntries, AllocatedTo, AllocationTotal;
    var n := |entries| - 1;
    var init, e := entries[..n], entries[n];
    assert forall j :: 0 <= j < n ==> init[j] == entries[j];
    var (paid, left) := Payments(init, remaining);
    PaymentsFacts(init, remaining);
    if i < n {
      assert init[..i] == entries[..i];
      PaymentAt(init, remaining, i);
    } else {
      PaymentsName(init, remaining, e.id);
      UnmentionedGetsNothing(paid, e.id);
    }
    if Outstanding(e) > 0 && left != 0 {
      AllocatedSnoc(paid, Allocation(e.id, if Outstanding(e) > left then left else Outstanding(e)), entries[i].id);
    } else {
      assert Payments(entries, remaining) == (paid, left);
    }
  }

  lemma {:induction false} AllocatedConcat(a: seq<Allocation>, b: seq<Allocation>, k: EntryKey)
    ensures AllocatedTo(a + b, k) == AllocatedTo(a, k) + AllocatedTo(b, k)
  {
    if b == [] {
      assert a + b == a;
    } else {
      var n := |b| - 1;
      AllocatedConcat(a, b[..n], k);
      assert (a + b)[..|a + b| - 1] == a + b[..n];
    }
  }

  /** Success is exactly "there is something pending and it covers the request". */
  lemma AllocationSucceedsIff(entries: seq<Entry>, requested: int)
    requires requested > 0
    ensures BuildAllocations(entries, requested).Ok? <==> entries != [] && requested <= NetOutstanding(entries)
    ensures entries == [] ==> BuildAllocations(entries, requested) == Err(NoPendingEarnings)
    ensures entries != [] && requested > NetOutstanding(entries) ==>
              BuildAllocations(entries, requested) == Err(ExceedsPending)
  {
    hide Deductions, Payments, AllocationTotal, OwedTotal, NetOutstanding;
    DeductionsFacts(entries);
    OwedNonNegative(entries);
    PaymentsFacts(entries, requested - AllocationTotal(Deductions(entries)));
  }

  /** What an allocation consists of, and that its amounts are nowhere zero. */
  lemma Parts(entries: seq<Entry>, requested: int) returns (deducted: seq<Allocation>, paid: seq<Allocation>, remaining: nat)
    requires requested > 0 && DistinctIds(entries) && BuildAllocations(entries, requested).Ok?
    ensures deducted == Deductions(entries) && remaining == requested - AllocationTotal(deducted)
    ensures paid == Payments(entries, remaining).0 && BuildAllocations(entries, requested).value == deducted + paid
    ensures AllocationTotal(deducted + paid) == requested && DistinctEntries(deducted + paid)
    ensures forall a :: a in deducted + paid ==> a.amount != 0
  {
    hide Deductions, Payments, AllocationTotal, DistinctEntries, NetOutstanding, OwedTotal;
    DeductionsFacts(entries);
    deducted := Deductions(entries);
    remaining := requested - AllocationTotal(deducted);
    paid := Payments(entries, remaining).0;
    PaymentsFacts(entries, remaining);
    AllocationTotalConcat(deducted, paid);
    PartsAreDistinct(entries, remaining);
    DeductionsNonZero(entries);
    PaymentsNonZero(entries, remaining);
  }

  lemma AllocatedShare(entries: seq<Entry>, requested: int, i: nat)
    requires requested > 0 && DistinctIds(entries) && BuildAllocations(entries, requested).Ok? && i < |entries|
    ensures var allocs := BuildAllocations(entries, requested).value;
            && AllocatedTo(allocs, entries[i].id) == Share(entries, requested, i)
            && (Mentions(allocs, entries[i].id) <==> Share(entries, requested, i) != 0)
  {
    hide BuildAllocations, Deductions, Payments;
    var deducted, paid, remaining := Parts(entries, requested);
    var allocs, k := deducted + paid, entries[i].id;
    AllocatedConcat(deducted, paid, k);
    DeductionAt(entries, i);
    PaymentAt(entries, remaining, i);
    if !Mentions(allocs, k) {
      UnmentionedGetsNothing(allocs, k);
    } else {
      var j :| 0 <= j < |allocs| && allocs[j].entry == k;
      MentionedGetsItsAmount(allocs, j);
      assert allocs[j] in allocs;
    }
  }

  lemma NamedEntryExists(entries: seq<Entry>, requested: int, k: EntryKey)
    requires requested > 0 && DistinctIds(entries) && BuildAllocations(entries, requested).Ok?
    requires Mentions(BuildAllocations(entries, requested).value, k)
    ensures exists i :: 0 <= i < |entries| && entries[i].id == k
  {
    hide BuildAllocations, Deductions, Payments;
    var deducted, paid, remaining := Parts(entries, requested);
    MentionsConcat(deducted, paid, k);
    DeductionsName(entries, k);
    PaymentsName(entries, remaining, k);
  }

  /** A successful allocation adds up to the request, names each entry at most once and gives
      every entry its exact share, naming precisely the entries whose share is not zero. */
  lemma AllocationIsExact(entries: seq<Entry>, requested: int)
    requires requested > 0 && DistinctIds(entries) && BuildAllocations(entries, requested).Ok?
    ensures var allocs := BuildAllocations(entries, requested).value;
            && AllocationTotal(allocs) == requested
            && DistinctEntries(allocs)
            && (forall k :: Mentions(allocs, k) ==> exists i :: 0 <= i < |entries| && entries[i].id == k)
            && (forall i :: 0 <= i < |entries| ==>
                  && AllocatedTo(allocs, entries[i].id) == Share(entries, requested, i)
                  && (Mentions(allocs, entries[i].id) <==> Share(entries, requested, i) != 0))
  {
    hide BuildAllocations, Mentions, AllocatedTo, Share;
    var allocs := BuildAllocations(entries, requested).value;
    var deducted, paid, remaining := Parts(entries, requested);
    forall k | Mentions(allocs, k) ensures exists i :: 0 <= i < |entries| && entries[i].id == k {
      NamedEntryExists(entries, requested, k);
    }
    forall i | 0 <= i < |entries|
      ensures AllocatedTo(allocs, entries[i].id) == Share(entries, requested, i)
      ensures Mentions(allocs, entries[i].id) <==> Share(entries, requested, i) != 0
    {
      AllocatedShare(entries, requested, i);
    }
  }

  lemma {:induction false} DeductionsNonZero(entries: seq<Entry>)
    ensures forall a :: a in Deductions(entries) ==> a.amount < 0
  {
    if entries != [] {
      DeductionsNonZero(entries[..|entries| - 1]);
    }
  }

  lemma {:induction false} PaymentsNonZero(entries: seq<Entry>, remaining: nat)
    ensures forall a :: a in Payments(entries, remaining).0 ==> a.amount > 0
  {
    if entries != [] {
      PaymentsNonZero(entries[..|entries| - 1], remaining);
      PaymentsFacts(entries[..|entries| - 1], remaining);
    }
  }

  lemma MentionsConcat(a: seq<Allocation>, b: seq<Allocation>, k: EntryKey)
    ensures Mentions(a + b, k) <==> Mentions(a, k) || Mentions(b, k)
  {
    if Mentions(a, k) {
      var i :| 0 <= i < |a| && a[i].entry == k;
      assert (a + b)[i].entry == k;
    }
    if Mentions(b, k) {
      var i :| 0 <= i < |b| && b[i].entry == k;
      assert (a + b)[|a| + i].entry == k;
    }
  }

  lemma PartsAreDistinct(entries: seq<Entry>, remaining: nat)
    requires DistinctIds(entries)
    ensures DistinctEntries(Deductions(entries) + Payments(entries, remaining).0)
  {
    var d, p := Deductions(entries), Payments(entries, remaining).0;
    var all := d + p;
    forall i, j | 0 <= i < j < |all| ensures all[i].entry != all[j].entry {
      var a, b := all[i].entry, all[j].entry;
      DeductionsName(entries, a);
      PaymentsName(entries, remaining, b);
      if i < |d| <= j {
        assert d[i].entry == a && p[j - |d|].entry == b;
        assert Mentions(d, a) && Mentions(p, b);
      }
    }
  }

  /** The shape of a payout: deductions in full, each paid entry within what it is owed, and
      nothing paid after the one entry that may be paid in part. */
  lemma SharesAreOrdered(entries: seq<Entry>, requested: int, i: nat, j: nat)
    requires requested > 0 && i < j < |entries|
    ensures Outstanding(entries[i]) < 0 ==> Share(entries, requested, i) == Outstanding(entries[i])
    ensures Outstanding(entries[i]) >= 0 ==> 0 <= Share(entries, requested, i) <= Outstanding(entries[i])
    ensures (0 < Outstanding(entries[i]) && Share(entries, requested, i) < Outstanding(entries[i])
             && 0 < Outstanding(entries[j])) ==> Share(entries, requested, j) == 0
  {
    OwedMonotone(entries, i + 1, j);
    assert entries[..i + 1][..i] == entries[..i];
  }

  lemma {:induction false} OwedMonotone(entries: seq<Entry>, i: nat, j: nat)
    requires i <= j <= |entries|
    ensures OwedTotal(entries[..i]) <= OwedTotal(entries[..j])
  {
    if i < j {
      OwedMonotone(entries, i, j - 1);
      assert entries[..j][..j - 1] == entries[..j - 1];
    }
  }
}
