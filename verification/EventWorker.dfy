/** The source-event consumer (`internal/earnings/source_event_worker.go`): fetch, process until
    it works or is dead-lettered, commit. */
module EventWorker {
  import opened Wrappers
  import opened Dates
  import opened Ranking
  import opened Ledger
  import opened SourcePuts
  import opened Sources
  import opened Plans
  import opened ControlPlane
  import opened RebuildPlan
  import opened RebuildFacts
  import opened EventPlan
  import opened EventFacts
  import opened IntakeLaws
  import opened EventProcessing
  import opened Store

  /** How the world answers one call: it works, or it fails, a processing attempt after some writes. */
  datatype Answer = Answer(ok: bool, written: nat)

  datatype Effect =
    | FetchFailed | Fetched(message: nat)
    | Accepted(message: nat) | Rejected(message: nat) | Retried(message: nat)
    | DeadLettered(message: nat) | DeadLetterFailed(message: nat)
    | Committed(message: nat) | CommitFailed(message: nat) | Waited(message: nat)

  // ----- what may follow what

  predicate Last(trace: seq<Effect>, e: Effect) {
    trace != [] && trace[|trace| - 1] == e
  }

  /** The rules of the loop: commit right after success or dead-lettering and only once, dead-letter
      right after a permanent error, fetch on only after the commit before. */
  predicate Follows(before: seq<Effect>, e: Effect) {
    match e
    case Committed(k) => (Last(before, Accepted(k)) || Last(before, DeadLettered(k))) && Committed(k) !in before
    case DeadLettered(k) => Last(before, Rejected(k))
    case Fetched(k) => Fetched(k) !in before && (k == 0 || Committed(k - 1) in before)
    case Accepted(k) => Fetched(k) in before && Committed(k) !in before
    case Rejected(k) => Fetched(k) in before && Committed(k) !in before
    case Retried(k) => Fetched(k) in before && Committed(k) !in before
    case _ => true
  }

  ghost predicate Lawful(trace: seq<Effect>) {
    forall t :: 0 <= t < |trace| ==> Follows(trace[..t], trace[t])
  }

  lemma LawfulSnoc(trace: seq<Effect>, e: Effect)
    requires Lawful(trace) && Follows(trace, e)
    ensures Lawful(trace + [e])
  {
    var longer := trace + [e];
    forall t | 0 <= t < |longer| ensures Follows(longer[..t], longer[t]) {
      if t < |trace| {
        assert longer[..t] == trace[..t] && longer[t] == trace[t];
      } else {
        assert longer[..t] == trace;
      }
    }
  }

  // ----- interrupted and repeated attempts

  lemma TakeTake<T>(s: seq<T>, i: nat, j: nat)
    requires i <= j <= |s|
    ensures s[..j][..i] == s[..i]
  {
  }

  lemma PrefixDistinct(es: seq<Entry>, i: nat)
    requires DistinctKeys(es) && i <= |es|
    ensures DistinctKeys(es[..i])
  {
  }

  /** An attempt cut short after another one leaves what the longer of the two wrote. */
  lemma AttemptsMerge(m: Entries, es: seq<Entry>, i: nat, j: nat)
    requires DistinctKeys(es) && i <= |es| && j <= |es|
    ensures PutAll(PutAll(m, es[..i]), es[..j]) == PutAll(m, es[..if i < j then j else i])
  {
    if i < j {
      PrefixDistinct(es, j);
      RestartCompletes(m, es[..j], i);
      TakeTake(es, i, j);
    } else {
      PrefixDistinct(es, i);
      ReplayPrefix(m, es[..i], j, NO_STATS, NO_STATS);
      TakeTake(es, j, i);
    }
  }

  function Conflicts(m: Entries, es: seq<Entry>): nat {
    if es == [] then 0 else Conflicts(m, es[..|es| - 1]) + (if PutOutcome(m, es[|es| - 1]) == Conflict then 1 else 0)
  }

  lemma {:induction false} TallyConflicts(m: Entries, es: seq<Entry>, stats: Stats)
    requires DistinctKeys(es)
    ensures Tally(m, es, stats).conflicts == stats.conflicts + Conflicts(m, es)
  {
    if es != [] {
      var n := |es| - 1;
      PrefixDistinct(es, n);
      TallyConflicts(m, es[..n], stats);
      assert forall i :: 0 <= i < n ==> es[..n][i].id != es[n].id;
      PutsElsewhere(m, es[..n], es[n].id);
      assert PutOutcome(PutAll(m, es[..n]), es[n]) == PutOutcome(m, es[n]);
    }
  }

  /** A put conflicts after part of the run exactly when it conflicts before it. */
  lemma ConflictStays(m: Entries, es: seq<Entry>, i: nat, j: nat)
    requires DistinctKeys(es) && i <= |es| && j < |es|
    ensures PutOutcome(PutAll(m, es[..i]), es[j]) == Conflict <==> PutOutcome(m, es[j]) == Conflict
  {
    PrefixDistinct(es, i);
    if j < i {
      assert es[..i][j] == es[j];
      PutsAreSettled(m, es[..i], j);
    } else {
      assert forall p :: 0 <= p < i ==> es[..i][p].id != es[j].id;
      PutsElsewhere(m, es[..i], es[j].id);
    }
  }

  lemma {:induction false} ConflictsStay(m: Entries, es: seq<Entry>, i: nat, n: nat)
    requires DistinctKeys(es) && i <= |es| && n <= |es|
    ensures Conflicts(PutAll(m, es[..i]), es[..n]) == Conflicts(m, es[..n])
  {
    if n > 0 {
      ConflictsStay(m, es, i, n - 1);
      ConflictStays(m, es, i, n - 1);
      TakeTake(es, n - 1, n);
    }
  }

  lemma StatsCountConflicts(m: Entries, p: Plan)
    requires DistinctKeys(p.puts)
    ensures PlanStats(m, p, NO_STATS).conflicts == Conflicts(m, p.puts)
  {
    hide Tally, Conflicts;
    TallyConflicts(m, p.puts, NO_STATS.(scanned := NO_STATS.scanned + p.scanned, missing := NO_STATS.missing + p.missing));
  }

  /** However far earlier attempts got, a complete attempt ends the same way. */
  lemma DecisionStays(m: Entries, p: Plan, i: nat)
    requires DistinctKeys(p.puts) && i <= |p.puts|
    ensures EventError(PutAll(m, p.puts[..i]), p) == EventError(m, p)
  {
    hide Conflicts, PlanStats, PutAll;
    StatsCountConflicts(m, p);
    StatsCountConflicts(PutAll(m, p.puts[..i]), p);
    ConflictsStay(m, p.puts, i, |p.puts|);
    assert p.puts[..|p.puts|] == p.puts;
  }

  // ----- one pass

  /** What one run works with: the ledger at its start, the sources, the closed periods, the messages. */
  datatype Run = Run(start: Entries, data: SourceData, periods: set<Period>, events: seq<SourceEvent>) {
    function PlanAt(k: nat): Plan
      requires k < |events|
    {
      EventPlanOf(data, periods, events[k])
    }

    /** The ledger after the first `n` messages, each processed once without a failure. */
    function Passed(n: nat): Entries
      requires n <= |events|
    {
      if n == 0 then start else PutAll(Passed(n - 1), PlanAt(n - 1).puts)
    }

    function Taken(k: nat, c: nat): seq<Entry>
      requires k < |events|
    {
      if c <= |PlanAt(k).puts| then PlanAt(k).puts[..c] else PlanAt(k).puts
    }

    /** The ledger with message `k` in flight and `c` of its writes done. */
    function InFlight(k: nat, c: nat): Entries
      requires k < |events|
    {
      PutAll(Passed(k), Taken(k, c))
    }

    function Decision(k: nat): Option<SourceError>
      requires k < |events|
    {
      EventError(Passed(k), PlanAt(k))
    }

    /** Every recorded verdict is the one a single undisturbed attempt would reach. */
    ghost predicate Decided(trace: seq<Effect>) {
      forall k: nat :: k < |events| ==>
        (Accepted(k) in trace ==> Decision(k).None?) && (Rejected(k) in trace ==> Decision(k) == Some(Permanent))
    }
  }

  lemma NothingTaken(r: Run, k: nat)
    requires k < |r.events|
    ensures r.InFlight(k, 0) == r.Passed(k)
    ensures r.InFlight(k, |r.PlanAt(k).puts|) == r.Passed(k + 1)
  {
    assert r.PlanAt(k).puts[..|r.PlanAt(k).puts|] == r.PlanAt(k).puts;
  }

  /** An attempt on a ledger that already holds part of the message's writes. */
  lemma AttemptInFlight(r: Run, k: nat, c: nat, d: nat)
    requires k < |r.events| && DistinctOrders(r.data.orders)
    ensures PutAll(r.InFlight(k, c), r.Taken(k, d)) == r.InFlight(k, if c < d then d else c)
    ensures PutAll(r.InFlight(k, c), r.PlanAt(k).puts) == r.Passed(k + 1)
    ensures EventError(r.InFlight(k, c), r.PlanAt(k)) == r.Decision(k)
  {
    hide EventPlanOf, PutAll, EventError;
    var es := r.PlanAt(k).puts;
    var i, j, n := if c <= |es| then c else |es|, if d <= |es| then d else |es|, |es|;
    EventPutsDistinct(r.data, r.periods, r.events[k]);
    assert es[..n] == es;
    AttemptsMerge(r.Passed(k), es, i, j);
    AttemptsMerge(r.Passed(k), es, i, n);
    DecisionStays(r.Passed(k), r.PlanAt(k), i);
    NothingTaken(r, k);
  }

  /** Only message `k` was worked on: no further fetch, and no commit but possibly its own. */
  ghost predicate Extends(before: seq<Effect>, after: seq<Effect>, k: nat, committed: bool) {
    && (forall j: nat :: Fetched(j) in after <==> Fetched(j) in before)
    && (forall j: nat :: Committed(j) in after <==> Committed(j) in before || (committed && j == k))
  }

  /** The committed messages are the first `n`. */
  ghost predicate CommittedBelow(trace: seq<Effect>, n: nat) {
    forall k: nat :: Committed(k) in trace <==> k < n
  }

  lemma NothingYet(trace: seq<Effect>, k: nat)
    ensures Extends(trace, trace, k, false)
  {
  }

  lemma NothingLogged(r: Run, trace: seq<Effect>)
    requires trace == []
    ensures Lawful(trace) && r.Decided(trace) && r.Passed(0) == r.start
  {
  }

  lemma ExtendsOn(a: seq<Effect>, b: seq<Effect>, c: seq<Effect>, k: nat, committed: bool)
    requires Extends(a, b, k, false) && Extends(b, c, k, committed)
    ensures Extends(a, c, k, committed)
  {
  }

  /** A message to be tried again is not decided, let alone committed. */
  lemma RetriedStays(r: Run, trace: seq<Effect>, k: nat)
    requires Lawful(trace) && r.Decided(trace) && k < |r.events| && r.Decision(k) == Some(Retry)
    ensures Committed(k) !in trace && DeadLettered(k) !in trace && Accepted(k) !in trace && Rejected(k) !in trace
  {
    hide Run.Decision;
    assert Accepted(k) !in trace && Rejected(k) !in trace;
    forall t | 0 <= t < |trace| ensures trace[t] != DeadLettered(k) {
      assert Follows(trace[..t], trace[t]);
      assert t > 0 ==> trace[..t][t - 1] == trace[t - 1];
    }
    forall t | 0 <= t < |trace| ensures trace[t] != Committed(k) {
      assert Follows(trace[..t], trace[t]);
      assert t > 0 ==> trace[..t][t - 1] == trace[t - 1];
    }
  }

  /** No message that is ahead of its document is committed. */
  lemma AheadIsKept(r: Run, trace: seq<Effect>)
    requires Lawful(trace) && r.Decided(trace) && DistinctOrders(r.data.orders) && DistinctTrips(r.data.trips)
    ensures forall k: nat :: k < |r.events| && Ahead(r.data, r.periods, r.events[k]) ==> Committed(k) !in trace
  {
    hide Lawful, Ahead, Run.Passed;
    forall k: nat | k < |r.events| && Ahead(r.data, r.periods, r.events[k]) ensures Committed(k) !in trace {
      RetryIsAhead(r.data, r.periods, r.events[k], r.Passed(k));
      RetriedStays(r, trace, k);
    }
  }

  class SourceEventWorker {
    const backend: Repository
    const processor: SourceEventProcessor
    ghost var trace: seq<Effect>

    constructor (backend: Repository)
      ensures this.backend == backend && processor.backend == backend && trace == []
    {
      this.backend := backend;
      processor := new SourceEventProcessor(backend);
      trace := [];
    }

    /** One call of `Process`: a lost store stops it after some of its writes, to be retried. */
    method Attempt(data: SourceData, ev: SourceEvent, answer: Answer) returns (failed: Option<SourceError>)
      requires processor.backend == backend
      modifies backend`entries, backend`paidAtSource
      ensures var p := EventPlanOf(data, backend.periods, ev);
              if answer.ok then backend.entries == PutAll(old(backend.entries), p.puts) && failed == EventError(old(backend.entries), p)
              else failed == Some(Retry)
                   && backend.entries == PutAll(old(backend.entries), if answer.written <= |p.puts| then p.puts[..answer.written] else p.puts)
    {
      hide EventPlanOf;
      if answer.ok {
        var stats;
        failed, stats := processor.ProcessEvent(data, ev);
        return;
      }
      var puts := EventPlanOf(data, backend.periods, ev).puts;
      var written := if answer.written <= |puts| then answer.written else |puts|;
      for i := 0 to written
        invariant backend.entries == PutAll(old(backend.entries), puts[..i])
      {
        assert puts[..i + 1][..i] == puts[..i];
        var stored, created := backend.PutSourceEntry(puts[i]);
      }
      assert puts[..|puts|] == puts;
      failed := Some(Retry);
    }

    /** Logs one effect on message `k`. */
    ghost method Record(r: Run, k: nat, e: Effect)
      requires Lawful(trace) && r.Decided(trace)
      requires Follows(trace, e) && !e.Fetched? && (e.Committed? ==> e.message == k)
      requires k < |r.events| && (e.Accepted? ==> e.message == k && r.Decision(k).None?) && (e.Rejected? ==> e.message == k && r.Decision(k) == Some(Permanent))
      modifies this`trace
      ensures trace == old(trace) + [e] && Lawful(trace) && r.Decided(trace)
      ensures Extends(old(trace), trace, k, e.Committed?)
    {
      LawfulSnoc(trace, e);
      trace := trace + [e];
    }

    ghost method RecordFetch(r: Run, e: Effect)
      requires Lawful(trace) && r.Decided(trace) && Follows(trace, e) && (e.Fetched? || e.FetchFailed?)
      modifies this`trace
      ensures trace == old(trace) + [e] && Lawful(trace) && r.Decided(trace)
    {
      LawfulSnoc(trace, e);
      trace := trace + [e];
    }

    /** The next answer to an outside call; none is left once the context is cancelled. */
    static method Ask(script: seq<Answer>, i: nat) returns (ok: bool, i': nat)
      requires i <= |script|
      ensures ok <==> i < |script| && script[i].ok
      ensures i' == if i < |script| then i + 1 else i
    {
      ok := i < |script| && script[i].ok;
      i' := if i < |script| then i + 1 else i;
    }

    /** Message `k` is in flight: fetched, not committed, some of its writes done. */
    ghost predicate Holding(r: Run, k: nat, c: nat)
      reads this, backend
    {
      && k < |r.events| && backend.periods == r.periods && DistinctOrders(r.data.orders)
      && Lawful(trace) && r.Decided(trace)
      && Fetched(k) in trace && Committed(k) !in trace
      && backend.entries == r.InFlight(k, c)
    }

    /** One attempt at message `k` and its verdict. */
    method Decide(ghost r: Run, data: SourceData, k: nat, ev: SourceEvent, answer: Answer, ghost c: nat)
      returns (failed: Option<SourceError>, ghost c': nat)
      requires processor.backend == backend && Holding(r, k, c) && data == r.data && ev == r.events[k]
      modifies backend`entries, backend`paidAtSource, this`trace
      ensures Holding(r, k, c')
      ensures Extends(old(trace), trace, k, false)
      ensures Last(trace, if failed.None? then Accepted(k) else if failed == Some(Permanent) then Rejected(k) else Retried(k))
      ensures failed != Some(Retry) ==> backend.entries == r.Passed(k + 1)
    {
      AttemptInFlight(r, k, c, answer.written);
      failed := Attempt(data, ev, answer);
      c' := if answer.ok then |r.PlanAt(k).puts| else if c < answer.written then answer.written else c;
      NothingTaken(r, k);
      if failed.None? {
        Record(r, k, Accepted(k));
      } else if failed.value == Permanent {
        Record(r, k, Rejected(k));
      } else {
        Record(r, k, Retried(k));
      }
    }

    /** `CommitMessages`; a failed commit sends the loop back to processing. */
    method Commit(ghost r: Run, k: nat, script: seq<Answer>, i: nat, ghost c: nat) returns (ok: bool, i': nat)
      requires Holding(r, k, c) && i <= |script|
      requires Last(trace, Accepted(k)) || Last(trace, DeadLettered(k))
      modifies this`trace
      ensures i <= i' <= |script| && (!ok ==> Holding(r, k, c))
      ensures Extends(old(trace), trace, k, ok)
      ensures Lawful(trace) && r.Decided(trace)
    {
      ok, i' := Ask(script, i);
      if ok {
        Record(r, k, Committed(k));
      } else {
        Record(r, k, CommitFailed(k));
      }
    }

    /** A permanent error: dead-letter the message, then commit it. */
    method Reject(ghost r: Run, k: nat, script: seq<Answer>, i: nat, ghost c: nat) returns (committed: bool, cancelled: bool, i': nat)
      requires Holding(r, k, c) && i <= |script| && Last(trace, Rejected(k))
      modifies this`trace
      ensures i <= i' <= |script| && (cancelled ==> i' == |script|) && !(committed && cancelled)
      ensures !committed ==> Holding(r, k, c)
      ensures Lawful(trace) && r.Decided(trace) && Extends(old(trace), trace, k, committed)
    {
      var ok;
      committed, cancelled := false, false;
      ok, i' := Ask(script, i);
      if !ok {
        Record(r, k, DeadLetterFailed(k));
        ghost var mid := trace;
        cancelled, i' := Wait(r, k, script, i', c);
        ExtendsOn(old(trace), mid, trace, k, false);
        return;
      }
      Record(r, k, DeadLettered(k));
      ghost var mid := trace;
      committed, i' := Commit(r, k, script, i', c);
      ExtendsOn(old(trace), mid, trace, k, committed);
    }

    /** `wait`: false once the context is cancelled. */
    method Wait(ghost r: Run, k: nat, script: seq<Answer>, i: nat, ghost c: nat) returns (cancelled: bool, i': nat)
      requires Holding(r, k, c) && i <= |script|
      modifies this`trace
      ensures i <= i' <= |script| && (cancelled ==> i' == |script|)
      ensures Holding(r, k, c) && Extends(old(trace), trace, k, false)
    {
      cancelled := i == |script|;
      var ok;
      ok, i' := Ask(script, i);
      Record(r, k, Waited(k));
    }

    /** The inner loop: attempts until message `k` is committed or the context is cancelled. */
    method Deliver(ghost r: Run, data: SourceData, k: nat, ev: SourceEvent, script: seq<Answer>, i: nat)
      returns (committed: bool, i': nat, ghost c: nat)
      requires processor.backend == backend && Holding(r, k, 0) && i <= |script| && data == r.data && ev == r.events[k]
      modifies backend`entries, backend`paidAtSource, this`trace
      ensures i <= i' <= |script| && (!committed ==> i' == |script| && Holding(r, k, c))
      ensures committed ==> backend.entries == r.Passed(k + 1)
      ensures Lawful(trace) && r.Decided(trace) && Extends(old(trace), trace, k, committed)
    {
      hide Lawful, Extends, Follows, Last, Run.InFlight, Run.Passed, Run.Decided, EventPlanOf, DistinctOrders;
      NothingYet(trace, k);
      i', c, committed := i, 0, false;
      while i' < |script|
        invariant i <= i' <= |script| && !committed
        invariant Holding(r, k, c) && Extends(old(trace), trace, k, false)
        decreases |script| - i'
      {
        var failed, cancelled;
        ghost var seen := trace;
        failed, c := Decide(r, data, k, ev, script[i'], c);
        ExtendsOn(old(trace), seen, trace, k, false);
        seen, i' := trace, i' + 1;
        if failed.None? {
          committed, i' := Commit(r, k, script, i', c);
          ExtendsOn(old(trace), seen, trace, k, committed);
          if committed {
            return;
          }
        } else if failed.value == Permanent {
          committed, cancelled, i' := Reject(r, k, script, i', c);
          ExtendsOn(old(trace), seen, trace, k, committed);
          if committed || cancelled {
            return;
          }
        } else {
          cancelled, i' := Wait(r, k, script, i', c);
          ExtendsOn(old(trace), seen, trace, k, false);
          if cancelled {
            return;
          }
        }
      }
    }

    /** The outer loop, for as long as the script of outside answers lasts. */
    method Start(data: SourceData, events: seq<SourceEvent>, script: seq<Answer>) returns (ghost n: nat, ghost c: Option<nat>)
      requires processor.backend == backend && trace == [] && DistinctOrders(data.orders)
      modifies backend`entries, backend`paidAtSource, this`trace
      ensures var r := Run(old(backend.entries), data, backend.periods, events);
              match c
              case None => Between(r, n)
              case Some(w) => Holding(r, n, w) && CommittedBelow(trace, n)
      ensures DistinctTrips(data.trips) ==>
                forall k: nat :: k < |events| && Ahead(data, backend.periods, events[k]) ==> Committed(k) !in trace
    {
      hide Lawful, Follows, Run.InFlight, Run.Passed, Run.Decided, EventPlanOf, DistinctOrders, Holding, CommittedBelow;
      ghost var r := Run(backend.entries, data, backend.periods, events);
      var i, next := 0, 0;
      c := None;
      Begin(r);
      while i < |script|
        invariant i <= |script| && next <= |events| && DistinctOrders(data.orders)
        invariant Between(r, next)
        decreases |script| - i
      {
        var fetched, committed;
        ghost var w;
        fetched, i := Ask(script, i);
        if !fetched || next == |events| {
          NoteIdle(r, next);
          continue;
        }
        committed, i, w := Handle(r, data, next, events[next], script, i);
        if !committed {
          n, c := next, Some(w);
          NoteAheadHolding(r, next, w);
          return;
        }
        next := next + 1;
      }
      n := next;
      NoteAhead(r);
    }

    ghost method NoteAheadHolding(r: Run, k: nat, w: nat)
      requires Holding(r, k, w)
      ensures DistinctTrips(r.data.trips) ==> forall k: nat :: k < |r.events| && Ahead(r.data, r.periods, r.events[k]) ==> Committed(k) !in trace
    {
      NoteAhead(r);
    }

    ghost method NoteAhead(r: Run)
      requires Lawful(trace) && r.Decided(trace) && DistinctOrders(r.data.orders)
      ensures DistinctTrips(r.data.trips) ==> forall k: nat :: k < |r.events| && Ahead(r.data, r.periods, r.events[k]) ==> Committed(k) !in trace
    {
      if DistinctTrips(r.data.trips) {
        AheadIsKept(r, trace);
      }
    }

    ghost method Begin(r: Run)
      requires trace == [] && backend.entries == r.start && backend.periods == r.periods
      ensures Between(r, 0)
    {
      NothingLogged(r, trace);
    }

    ghost method NoteIdle(r: Run, n: nat)
      requires Between(r, n)
      modifies this`trace
      ensures Between(r, n)
    {
      RecordFetch(r, FetchFailed);
    }

    ghost method NoteFetch(r: Run, n: nat)
      requires Between(r, n) && n < |r.events| && DistinctOrders(r.data.orders)
      modifies this`trace
      ensures Holding(r, n, 0)
      ensures CommittedBelow(trace, n)
      ensures forall k: nat :: Fetched(k) in trace <==> k < n + 1
    {
      hide Lawful, Run.InFlight, Run.Passed, Run.Decided, EventPlanOf, DistinctOrders;
      NothingTaken(r, n);
      assert n == 0 || Committed(n - 1) in trace;
      RecordFetch(r, Fetched(n));
    }

    /** One fetched message, up to its commit or the cancellation. */
    method Handle(ghost r: Run, data: SourceData, k: nat, ev: SourceEvent, script: seq<Answer>, i: nat)
      returns (committed: bool, i': nat, ghost c: nat)
      requires processor.backend == backend && Between(r, k) && k < |r.events| && DistinctOrders(data.orders)
      requires i <= |script| && data == r.data && ev == r.events[k]
      modifies backend`entries, backend`paidAtSource, this`trace
      ensures i <= i' <= |script| && (!committed ==> i' == |script|)
      ensures committed ==> Between(r, k + 1)
      ensures !committed ==> Holding(r, k, c) && CommittedBelow(trace, k)
    {
      hide Lawful, Follows, Run.InFlight, Run.Passed, Run.Decided, EventPlanOf, DistinctOrders;
      NoteFetch(r, k);
      committed, i', c := Deliver(r, data, k, ev, script, i);
    }

    /** No message is in flight: the first `n` are committed, no other was fetched. */
    ghost predicate Between(r: Run, n: nat)
      reads this, backend
    {
      && n <= |r.events| && backend.periods == r.periods
      && Lawful(trace) && r.Decided(trace)
      && CommittedBelow(trace, n)
      && (forall k: nat :: Fetched(k) in trace <==> k < n)
      && backend.entries == r.Passed(n)
    }
  }
}
