/** `PutSourceEntry` and `putLedgerEntry`: source writers insert a projection once, repair it
    while nothing of it is settled, and leave it alone from then on. */
module SourcePuts {
  import opened Ledger

  predicate Frozen(e: Entry) {
    e.status != Open || e.settled != 0
  }

  /** The collection after one put. New entries take the next place in creation order. */
  function PutSource(m: Entries, e: Entry): Entries {
    if e.id !in m then m[e.id := e.(stamp := |m|)]
    else
      var stored := m[e.id];
      if Frozen(stored) || SameSource(stored, e) then m
      else m[e.id := e.(stamp := stored.stamp)]
  }

  datatype Outcome = Inserted | Unchanged | Conflict

  /** How `putLedgerEntry` counts a put: a repaired entry reads back as unchanged. */
  function PutOutcome(m: Entries, e: Entry): Outcome {
    if e.id !in m then Inserted
    else if SameSource(PutSource(m, e)[e.id], e) then Unchanged
    else Conflict
  }

  function PutAll(m: Entries, es: seq<Entry>): Entries {
    if es == [] then m else PutSource(PutAll(m, es[..|es| - 1]), es[|es| - 1])
  }

  datatype Stats = Stats(scanned: nat, inserted: nat, kept: nat, conflicts: nat, missing: nat)

  const NO_STATS := Stats(0, 0, 0, 0, 0)

  function Count(stats: Stats, outcome: Outcome): Stats {
    match outcome
    case Inserted => stats.(inserted := stats.inserted + 1)
    case Unchanged => stats.(kept := stats.kept + 1)
    case Conflict => stats.(conflicts := stats.conflicts + 1)
  }

  /** The counters after a run of puts. */
  function Tally(m: Entries, es: seq<Entry>, stats: Stats): Stats {
    if es == [] then stats
    else
      var init := es[..|es| - 1];
      Count(Tally(m, init, stats), PutOutcome(PutAll(m, init), es[|es| - 1]))
  }

  ghost predicate DistinctKeys(es: seq<Entry>) {
    forall i, j :: 0 <= i < j < |es| ==> es[i].id != es[j].id
  }

  lemma {:induction false} PutAllConcat(m: Entries, a: seq<Entry>, b: seq<Entry>, stats: Stats)
    ensures PutAll(m, a + b) == PutAll(PutAll(m, a), b)
    ensures Tally(m, a + b, stats) == Tally(PutAll(m, a), b, Tally(m, a, stats))
  {
    if b == [] {
      assert a + b == a;
    } else {
      var n := |b| - 1;
      PutAllConcat(m, a, b[..n], stats);
      assert (a + b)[..|a + b| - 1] == a + b[..n];
    }
  }

  /** Counters that only the puts move start from any earlier value. */
  lemma {:induction false} TallyCounts(m: Entries, es: seq<Entry>, stats: Stats)
    ensures var t := Tally(m, es, stats);
            && t.inserted + t.kept + t.conflicts == stats.inserted + stats.kept + stats.conflicts + |es|
            && t.scanned == stats.scanned && t.missing == stats.missing
            && t.inserted >= stats.inserted && t.kept >= stats.kept && t.conflicts >= stats.conflicts
  {
    if es != [] {
      TallyCounts(m, es[..|es| - 1], stats);
    }
  }

  /** No run of puts removes an entry, and none changes a frozen one. */
  lemma {:induction false} PutsKeepFrozen(m: Entries, es: seq<Entry>, k: EntryKey)
    requires k in m
    ensures k in PutAll(m, es)
    ensures Frozen(m[k]) ==> PutAll(m, es)[k] == m[k]
    ensures PutAll(m, es)[k].stamp == m[k].stamp
  {
    if es != [] {
      PutsKeepFrozen(m, es[..|es| - 1], k);
    }
  }

  lemma {:induction false} PutsElsewhere(m: Entries, es: seq<Entry>, k: EntryKey)
    requires forall i :: 0 <= i < |es| ==> es[i].id != k
    ensures k in PutAll(m, es) <==> k in m
    ensures k in m ==> PutAll(m, es)[k] == m[k]
  {
    if es != [] {
      assert forall i :: 0 <= i < |es| - 1 ==> es[..|es| - 1][i] == es[i];
      PutsElsewhere(m, es[..|es| - 1], k);
    }
  }

  /** With distinct keys every put acts as if it were the only one. */
  lemma {:induction false} PutsActAlone(m: Entries, es: seq<Entry>, j: nat)
    requires DistinctKeys(es) && j < |es|
    ensures es[j].id in PutAll(m, es)
    ensures Content(PutAll(m, es)[es[j].id]) == Content(PutSource(m, es[j])[es[j].id])
    ensures es[j].id in m ==> PutAll(m, es)[es[j].id] == PutSource(m, es[j])[es[j].id]
  {
    var n := |es| - 1;
    assert forall i :: 0 <= i < n ==> es[..n][i] == es[i];
    if j == n {
      PutsElsewhere(m, es[..n], es[n].id);
    } else {
      PutsActAlone(m, es[..n], j);
    }
  }

  /** After a run, each of its puts finds its own result or a frozen entry. */
  lemma PutsAreSettled(m: Entries, es: seq<Entry>, j: nat)
    requires DistinctKeys(es) && j < |es|
    ensures PutSource(PutAll(m, es), es[j]) == PutAll(m, es)
    ensures PutOutcome(PutAll(m, es), es[j]) == if PutOutcome(m, es[j]) == Conflict then Conflict else Unchanged
  {
    PutsActAlone(m, es, j);
  }

  lemma {:induction false} ReplayPrefix(m: Entries, es: seq<Entry>, i: nat, first: Stats, again: Stats)
    requires DistinctKeys(es) && i <= |es|
    ensures PutAll(PutAll(m, es), es[..i]) == PutAll(m, es)
    ensures var t, u := Tally(m, es[..i], first), Tally(PutAll(m, es), es[..i], again);
            && u.inserted == again.inserted
            && u.conflicts - again.conflicts == t.conflicts - first.conflicts
  {
    hide SameSource;
    if i > 0 {
      ReplayPrefix(m, es, i - 1, first, again);
      PutsAreSettled(m, es, i - 1);
      assert es[..i][..i - 1] == es[..i - 1];
      assert forall p :: 0 <= p < i - 1 ==> es[..i - 1][p] == es[p];
      PutsElsewhere(m, es[..i - 1], es[i - 1].id);
      assert PutOutcome(PutAll(m, es[..i - 1]), es[i - 1]) == PutOutcome(m, es[i - 1]);
    } else {
      assert es[..i] == [];
    }
  }

  /** Running the same puts again changes no entry, inserts nothing and meets the same
      conflicts; every put is counted once either time. */
  lemma ReplayIsQuiet(m: Entries, es: seq<Entry>)
    requires DistinctKeys(es)
    ensures var m' := PutAll(m, es);
            var t, u := Tally(m, es, NO_STATS), Tally(m', es, NO_STATS);
            && PutAll(m', es) == m'
            && u.inserted == 0
            && u.conflicts == t.conflicts
            && t.inserted + t.kept + t.conflicts == |es|
            && u.inserted + u.kept + u.conflicts == |es|
  {
    ReplayPrefix(m, es, |es|, NO_STATS, NO_STATS);
    assert es[..|es|] == es;
    TallyCounts(m, es, NO_STATS);
    TallyCounts(PutAll(m, es), es, NO_STATS);
  }

  // ----- puts in another order

  /** The keys of the puts that meet a different, frozen entry. */
  function ConflictKeys(m: Entries, es: seq<Entry>): set<EntryKey> {
    set e | e in es && PutOutcome(m, e) == Conflict :: e.id
  }

  function PutKeys(es: seq<Entry>): set<EntryKey> {
    set e | e in es :: e.id
  }

  lemma {:induction false} DistinctKeysCount(es: seq<Entry>)
    requires DistinctKeys(es)
    ensures |PutKeys(es)| == |es|
  {
    if es != [] {
      var n := |es| - 1;
      var init := es[..n];
      assert forall i :: 0 <= i < n ==> init[i] == es[i];
      DistinctKeysCount(init);
      assert es[n].id !in PutKeys(init);
      assert PutKeys(es) == PutKeys(init) + {es[n].id};
    }
  }

  /** Puts that each find their result leave the ledger and count one conflict per conflicting key. */
  lemma {:induction false} SettledPutsStay(m: Entries, es: seq<Entry>, stats: Stats)
    requires forall e :: e in es ==> PutSource(m, e) == m
    ensures PutAll(m, es) == m && Tally(m, es, stats).inserted == stats.inserted
    ensures DistinctKeys(es) ==> Tally(m, es, stats).conflicts == stats.conflicts + |ConflictKeys(m, es)|
  {
    hide PutSource, PutOutcome, ConflictKeys, DistinctKeys;
    if es == [] {
      NoConflictKeys(m);
    } else {
      var n := |es| - 1;
      assert forall e :: e in es[..n] ==> e in es;
      SettledPutsStay(m, es[..n], stats);
      StaysInserted(m, es[n]);
      assert es == es[..n] + [es[n]];
      if DistinctKeys(es) {
        ConflictKeysSnoc(m, es[..n], es[n]);
      }
    }
  }

  lemma NoConflictKeys(m: Entries)
    ensures ConflictKeys(m, []) == {}
  {
  }

  lemma ConflictKeysSnoc(m: Entries, es: seq<Entry>, e: Entry)
    requires DistinctKeys(es + [e])
    ensures DistinctKeys(es)
    ensures |ConflictKeys(m, es + [e])| == |ConflictKeys(m, es)| + if PutOutcome(m, e) == Conflict then 1 else 0
  {
    ConflictKeysPlus(m, es, e);
    hide PutOutcome, PutSource;
    assert forall i :: 0 <= i < |es| ==> (es + [e])[i] == es[i];
    forall x | x in es ensures x.id != e.id {
      var i :| 0 <= i < |es| && es[i] == x;
      assert (es + [e])[i] == x && (es + [e])[|es|] == e;
    }
    assert e.id !in ConflictKeys(m, es);
  }

  lemma ConflictKeysPlus(m: Entries, es: seq<Entry>, e: Entry)
    ensures ConflictKeys(m, es + [e]) == ConflictKeys(m, es) + if PutOutcome(m, e) == Conflict then {e.id} else {}
  {
    hide PutOutcome, PutSource;
    forall x ensures x in es + [e] <==> x in es || x == e {
    }
  }

  lemma StaysInserted(m: Entries, e: Entry)
    requires PutSource(m, e) == m
    ensures PutOutcome(m, e) != Inserted
  {
  }

  /** The same puts in another order: still no change, no insertion and the same conflict count. */
  lemma ReplayInAnyOrder(m: Entries, es: seq<Entry>, fs: seq<Entry>)
    requires DistinctKeys(es) && DistinctKeys(fs) && forall e :: e in es <==> e in fs
    ensures var m' := PutAll(m, es);
            var t, u := Tally(m, es, NO_STATS), Tally(m', fs, NO_STATS);
            && PutAll(m', fs) == m'
            && u.inserted == 0 && u.conflicts == t.conflicts
            && t.inserted + t.kept + t.conflicts == |es| == |fs| == u.kept + u.conflicts
  {
    var m' := PutAll(m, es);
    PutsStaySettled(m, es);
    hide PutSource, Tally, PutAll, DistinctKeys;
    SettledPutsStay(m', es, NO_STATS);
    SettledPutsStay(m', fs, NO_STATS);
    assert ConflictKeys(m', es) == ConflictKeys(m', fs);
    ReplayIsQuiet(m, es);
    TallyCounts(m', fs, NO_STATS);
    DistinctKeysCount(es);
    DistinctKeysCount(fs);
    assert PutKeys(es) == PutKeys(fs);
  }

  lemma PutsStaySettled(m: Entries, es: seq<Entry>)
    requires DistinctKeys(es)
    ensures forall e :: e in es ==> PutSource(PutAll(m, es), e) == PutAll(m, es)
  {
    forall e | e in es ensures PutSource(PutAll(m, es), e) == PutAll(m, es) {
      var j :| 0 <= j < |es| && es[j] == e;
      PutsAreSettled(m, es, j);
    }
  }

  /** A run interrupted after any number of puts and then started over ends as one full run. */
  lemma {:induction false} RestartCompletes(m: Entries, es: seq<Entry>, i: nat)
    requires DistinctKeys(es) && i <= |es|
    ensures PutAll(PutAll(m, es[..i]), es) == PutAll(m, es)
  {
    var prefix, rest := es[..i], es[i..];
    assert es == prefix + rest;
    assert DistinctKeys(prefix);
    ReplayPrefix(m, prefix, i, NO_STATS, NO_STATS);
    assert prefix[..i] == prefix;
    PutAllConcat(PutAll(m, prefix), prefix, rest, NO_STATS);
    PutAllConcat(m, prefix, rest, NO_STATS);
  }
}
