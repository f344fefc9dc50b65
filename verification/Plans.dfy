/** The order in which a calculation writes: a plan lists its puts and counts what it scanned
    and skipped, without looking at the ledger; running it puts them one after the other. */
module Plans {
  import opened Wrappers
  import opened Ledger
  import opened SourcePuts

  /** `Permanent` errors are dead-lettered, `Retry` ones are tried again; a rebuild fails on either. */
  datatype SourceError = Permanent | Retry

  datatype Plan = Plan(puts: seq<Entry>, scanned: nat, missing: nat, error: Option<SourceError>)

  const NOTHING := Plan([], 0, 0, None)

  function Failing(error: SourceError): Plan {
    Plan([], 0, 0, Some(error))
  }

  /** `p`, then `q` unless `p` failed. */
  function Then(p: Plan, q: Plan): Plan {
    if p.error.Some? then p else Plan(p.puts + q.puts, p.scanned + q.scanned, p.missing + q.missing, q.error)
  }

  /** The counters a plan adds to `stats` when it runs on `m`. */
  function PlanStats(m: Entries, p: Plan, stats: Stats): Stats {
    Tally(m, p.puts, stats.(scanned := stats.scanned + p.scanned, missing := stats.missing + p.missing))
  }

  lemma {:induction false} TallyShift(m: Entries, es: seq<Entry>, stats: Stats, scanned: nat, missing: nat)
    ensures Tally(m, es, stats.(scanned := stats.scanned + scanned, missing := stats.missing + missing))
         == var t := Tally(m, es, stats); t.(scanned := t.scanned + scanned, missing := t.missing + missing)
  {
    if es != [] {
      TallyShift(m, es[..|es| - 1], stats, scanned, missing);
    }
  }

  /** Running plans in sequence is running their composition. */
  lemma ThenRuns(m: Entries, p: Plan, q: Plan, stats: Stats)
    requires p.error.None?
    ensures PutAll(m, Then(p, q).puts) == PutAll(PutAll(m, p.puts), q.puts)
    ensures PlanStats(m, Then(p, q), stats) == PlanStats(PutAll(m, p.puts), q, PlanStats(m, p, stats))
  {
    hide Tally, PutAll;
    var s := stats.(scanned := stats.scanned + p.scanned, missing := stats.missing + p.missing);
    PutAllConcat(m, p.puts, q.puts, s);
    TallyShift(m, p.puts + q.puts, s, q.scanned, q.missing);
    TallyShift(PutAll(m, p.puts), q.puts, Tally(m, p.puts, s), q.scanned, q.missing);
    PutAllConcat(m, p.puts, q.puts, s.(scanned := s.scanned + q.scanned, missing := s.missing + q.missing));
    TallyShift(m, p.puts, s, q.scanned, q.missing);
  }

  lemma ThenPuts(p: Plan, q: Plan)
    requires p.error.None?
    ensures Then(p, q).puts == p.puts + q.puts && Then(p, q).error == q.error
  {
  }

  lemma ThreeParts(p: Plan, q: Plan, r: Plan)
    requires q.error.None?
    ensures Then(Then(p, q), r).puts == if p.error.Some? then p.puts else p.puts + q.puts + r.puts
    ensures Then(Then(p, q), r).error == if p.error.Some? then p.error else r.error
    ensures p.error.None? ==> Then(Then(p, q), r).missing == p.missing + q.missing + r.missing
  {
  }

  /** Running a plan's puts again, in whatever order, changes no entry, inserts nothing and repeats
      the same conflict count. */
  lemma PlanReplayIsQuiet(m: Entries, p: Plan, q: Plan)
    requires DistinctKeys(p.puts) && DistinctKeys(q.puts) && forall e :: e in p.puts <==> e in q.puts
    ensures var m' := PutAll(m, p.puts);
            var t, u := PlanStats(m, p, NO_STATS), PlanStats(m', q, NO_STATS);
            && PutAll(m', q.puts) == m'
            && u.inserted == 0 && u.conflicts == t.conflicts
            && t.inserted + t.kept + t.conflicts == u.kept + u.conflicts == |p.puts|
  {
    hide PutAll, Tally, DistinctKeys;
    ReplayInAnyOrder(m, p.puts, q.puts);
    TallyShift(m, p.puts, NO_STATS, p.scanned, p.missing);
    TallyShift(PutAll(m, p.puts), q.puts, NO_STATS, q.scanned, q.missing);
  }
}
