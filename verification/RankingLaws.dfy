/** Where a worker stands on a prize board and what that pays, on the scores themselves. */
module RankingLaws {
  import opened Wrappers
  import opened Dates
  import opened Money
  import opened Ranking
  import opened Ledger
  import opened Sources
  import opened Plans
  import opened ControlPlane
  import opened RebuildPlan
  import opened RebuildFacts
  import opened Fingerprints

  /** A greater first score wins, then a greater second one, then the smaller id. */
  predicate Precedes(a: Score, b: Score) {
    || a.first > b.first
    || (a.first == b.first && a.second > b.second)
    || (a.first == b.first && a.second == b.second && a.worker < b.worker)
  }

  /** The workers of the same board who stand before this row. */
  function AheadOf(rows: seq<Row>, r: Row): set<Id> {
    set q | q in rows && q.gender == r.gender && Precedes(q.score, r.score) :: q.score.worker
  }

  /** What the schedule pays the worker of this gender on place `rank`: its own prizes where its
      switch is set and on, nothing where it is off, else the board's common prizes. */
  predicate PaysPlace(schedule: PrizeSchedule, board: Board, gender: Gender, rank: nat, bonus: real) {
    var (common, settings) := if board == BeauticianBoard then (schedule.beautician, schedule.beauticianByGender)
                              else (schedule.rider, schedule.riderByGender);
    var setting := match gender case Female => settings.female case Male => settings.male case Other => settings.other;
    var prizes := if setting.bonusEnabled.None? then common else if setting.bonusEnabled.value.on then setting.prizes else [];
    bonus == if 1 <= rank <= |prizes| then prizes[rank - 1] else 0.0
  }

  ghost predicate DistinctRows(rows: seq<Row>) {
    forall i, j :: 0 <= i < j < |rows| ==> rows[i].score.worker != rows[j].score.worker
  }

  lemma {:induction false} ScoresAre(rows: seq<Row>, gender: Gender)
    ensures forall s :: s in RowScores(rows, gender) <==> Row(s, gender) in rows
  {
    if rows != [] {
      var n := |rows| - 1;
      ScoresAre(rows[..n], gender);
      assert rows == rows[..n] + [rows[n]];
    }
  }

  lemma {:induction false} ScoresDiffer(rows: seq<Row>, gender: Gender)
    requires DistinctRows(rows)
    ensures forall i, j :: 0 <= i < j < |RowScores(rows, gender)| ==> RowScores(rows, gender)[i].worker != RowScores(rows, gender)[j].worker
  {
    if rows != [] {
      var n := |rows| - 1;
      assert forall i :: 0 <= i < n ==> rows[..n][i] == rows[i];
      ScoresDiffer(rows[..n], gender);
      ScoresAre(rows[..n], gender);
      forall i | 0 <= i < |RowScores(rows[..n], gender)| ensures RowScores(rows[..n], gender)[i].worker != rows[n].score.worker {
        var s := RowScores(rows[..n], gender)[i];
        assert Row(s, gender) in rows[..n];
        var j :| 0 <= j < n && rows[..n][j] == Row(s, gender);
      }
    }
  }

  ghost predicate Sorted(scores: seq<Score>, s: seq<Score>) {
    && |s| == |scores| && (forall x :: x in s <==> x in scores)
    && (forall i, j :: 0 <= i < j < |s| ==> s[i].worker != s[j].worker)
    && (forall i, j :: 0 <= i < |s| && 0 <= j < |s| ==> (Precedes(s[i], s[j]) <==> i < j))
  }

  lemma SortIsSorted(scores: seq<Score>)
    requires forall i, j :: 0 <= i < j < |scores| ==> scores[i].worker != scores[j].worker
    ensures Sorted(scores, SortScores(scores))
  {
    hide Better, SortScores, Ranked;
    var s := SortScores(scores);
    SortBag(scores);
    SortRanks(scores);
    assert |multiset(s)| == |multiset(scores)|;
    forall x ensures x in s <==> x in scores {
      assert multiset(s)[x] == multiset(scores)[x];
      assert x in multiset(s) <==> x in s;
      assert x in multiset(scores) <==> x in scores;
    }
    forall i, j | 0 <= i < j < |s| ensures s[i].worker != s[j].worker && Precedes(s[i], s[j]) && !Precedes(s[j], s[i]) {
      DifferentWorkers(scores, s, i, j);
      RankedPair(s, i, j);
    }
  }

  lemma RankedPair(s: seq<Score>, i: nat, j: nat)
    requires Ranked(s) && i < j < |s| && s[i].worker != s[j].worker
    ensures Precedes(s[i], s[j]) && !Precedes(s[j], s[i])
  {
    assert !Better(s[j], s[i]);
  }

  lemma DifferentWorkers(scores: seq<Score>, s: seq<Score>, i: nat, j: nat)
    requires forall p, q :: 0 <= p < q < |scores| ==> scores[p].worker != scores[q].worker
    requires multiset(s) == multiset(scores) && i < j < |s|
    ensures s[i].worker != s[j].worker
  {
    assert s[i] in multiset(scores) && s[j] in multiset(scores);
    var p :| 0 <= p < |scores| && scores[p] == s[i];
    var q :| 0 <= q < |scores| && scores[q] == s[j];
    if s[i] == s[j] {
      assert s == s[..i] + [s[i]] + s[i + 1..j] + [s[j]] + s[j + 1..];
      assert multiset(s)[s[i]] >= 2;
      OnceEach(scores, p);
    }
  }

  lemma OnceEach(scores: seq<Score>, p: nat)
    requires forall i, j :: 0 <= i < j < |scores| ==> scores[i].worker != scores[j].worker
    requires p < |scores|
    ensures multiset(scores)[scores[p]] == 1
  {
    assert scores == scores[..p] + [scores[p]] + scores[p + 1..];
    assert scores[p] !in scores[..p] && scores[p] !in scores[p + 1..];
  }

  function FirstWorkers(s: seq<Score>, n: nat): set<Id>
    requires n <= |s|
  {
    set i | 0 <= i < n :: s[i].worker
  }

  lemma {:induction false} FirstCount(s: seq<Score>, n: nat)
    requires n <= |s| && forall i, j :: 0 <= i < j < |s| ==> s[i].worker != s[j].worker
    ensures |FirstWorkers(s, n)| == n
  {
    if n > 0 {
      FirstCount(s, n - 1);
      assert FirstWorkers(s, n) == FirstWorkers(s, n - 1) + {s[n - 1].worker};
      assert s[n - 1].worker !in FirstWorkers(s, n - 1);
    }
  }

  lemma PlaceIs(rows: seq<Row>, r: Row, s: seq<Score>, i: nat)
    requires Sorted(RowScores(rows, r.gender), s) && i < |s| && s[i] == r.score
    ensures |AheadOf(rows, r)| == i
  {
    ScoresAre(rows, r.gender);
    forall w ensures w in AheadOf(rows, r) <==> w in FirstWorkers(s, i) {
      if w in AheadOf(rows, r) {
        var q :| q in rows && q.gender == r.gender && Precedes(q.score, r.score) && q.score.worker == w;
        assert Row(q.score, r.gender) == q && q.score in s;
        var j :| 0 <= j < |s| && s[j] == q.score;
      }
      if w in FirstWorkers(s, i) {
        var j :| 0 <= j < i && s[j].worker == w;
        assert Row(s[j], r.gender) in rows;
      }
    }
    assert AheadOf(rows, r) == FirstWorkers(s, i);
    FirstCount(s, i);
  }

  /** Every row has an award on its gender's board: its rank is one more than the number of workers
      before it, and its bonus is the prize of that place. */
  lemma AwardOfRow(rows: seq<Row>, schedule: PrizeSchedule, board: Board, r: Row) returns (a: Award)
    requires DistinctRows(rows) && r in rows
    ensures a in RankAwards(RowScores(rows, r.gender), BoardPrizes(schedule, board, r.gender))
    ensures a.worker == r.score.worker && a.rank == |AheadOf(rows, r)| + 1 && PaysPlace(schedule, board, r.gender, a.rank, a.bonus)
  {
    hide AheadOf, Sorted;
    var scores, prizes := RowScores(rows, r.gender), BoardPrizes(schedule, board, r.gender);
    var s := SortScores(scores);
    ScoresAre(rows, r.gender);
    ScoresDiffer(rows, r.gender);
    SortIsSorted(scores);
    assert Row(r.score, r.gender) == r;
    InSorted(scores, s, r.score);
    var i :| 0 <= i < |s| && s[i] == r.score;
    a := Awards(s, prizes)[i];
    PlaceIs(rows, r, s, i);
  }

  lemma InSorted(scores: seq<Score>, s: seq<Score>, x: Score)
    requires Sorted(scores, s) && x in scores
    ensures x in s
  {
  }

  /** The boards together hold one such award for every row and no other. */
  lemma BoardAwardsAre(rows: seq<Row>, schedule: PrizeSchedule, board: Board, a: Award)
    requires DistinctRows(rows)
    ensures a in BoardAwards(rows, schedule, board) <==>
              exists r :: r in rows && a.worker == r.score.worker && a.rank == |AheadOf(rows, r)| + 1
                          && PaysPlace(schedule, board, r.gender, a.rank, a.bonus)
  {
    hide RankAwards, RowScores, BoardPrizes, AheadOf, PaysPlace;
    if r :| r in rows && a.worker == r.score.worker && a.rank == |AheadOf(rows, r)| + 1 && PaysPlace(schedule, board, r.gender, a.rank, a.bonus) {
      var b := AwardOfRow(rows, schedule, board, r);
      OneBonus(schedule, board, r.gender, a.rank, a.bonus, b.bonus);
      assert a == b;
      OnItsBoard(rows, schedule, board, r.gender, a);
    }
    if a in BoardAwards(rows, schedule, board) {
      var gender: Gender :| a in RankAwards(RowScores(rows, gender), BoardPrizes(schedule, board, gender));
      var r := RowOfAward(rows, schedule, board, gender, a);
    }
  }

  lemma OneBonus(schedule: PrizeSchedule, board: Board, gender: Gender, rank: nat, a: real, b: real)
    requires PaysPlace(schedule, board, gender, rank, a) && PaysPlace(schedule, board, gender, rank, b)
    ensures a == b
  {
  }

  lemma OnItsBoard(rows: seq<Row>, schedule: PrizeSchedule, board: Board, gender: Gender, a: Award)
    requires a in RankAwards(RowScores(rows, gender), BoardPrizes(schedule, board, gender))
    ensures a in BoardAwards(rows, schedule, board)
  {
  }

  lemma RowOfAward(rows: seq<Row>, schedule: PrizeSchedule, board: Board, gender: Gender, a: Award) returns (r: Row)
    requires DistinctRows(rows) && a in RankAwards(RowScores(rows, gender), BoardPrizes(schedule, board, gender))
    ensures r in rows && a.worker == r.score.worker && a.rank == |AheadOf(rows, r)| + 1 && PaysPlace(schedule, board, r.gender, a.rank, a.bonus)
  {
    hide AheadOf, Sorted;
    var scores, prizes := RowScores(rows, gender), BoardPrizes(schedule, board, gender);
    var s := SortScores(scores);
    ScoresAre(rows, gender);
    ScoresDiffer(rows, gender);
    SortIsSorted(scores);
    var i :| 0 <= i < |s| && Awards(s, prizes)[i] == a;
    FromSorted(scores, s, i);
    r := Row(s[i], gender);
    PlaceIs(rows, r, s, i);
  }

  lemma FromSorted(scores: seq<Score>, s: seq<Score>, i: nat)
    requires Sorted(scores, s) && i < |s|
    ensures s[i] in scores
  {
  }

  // ----- the ledger

  function BoardRows(data: SourceData, board: Board): seq<Row> {
    if board == BeauticianBoard then data.beauticians else RiderRows(data.riders)
  }

  /** On the rider board the aggregate says what a worker is. */
  ghost predicate WorkerKind(data: SourceData, board: Board, w: Id, kind: WorkerType) {
    if board == BeauticianBoard then kind == Beautician else exists r :: r in data.riders && r.row.score.worker == w && r.workerType == kind
  }

  /** The ledger entry of an award. */
  predicate ShowsAward(e: Entry, start: DateKey, end: DateKey, board: Board, common: seq<real>, rank: nat, bonus: real) {
    && e.date == end && e.component == LeaderboardBonus && e.bucket == CommissionBucket
    && (bonus >= 0.0 ==> NearestPaise(e.amount, bonus)) && e.settled == 0 && e.status == Open
    && e.sourceType == Leaderboards && e.sourceId == None && e.version == 3
    && e.configuration.AwardConfiguration? && e.configuration.periodStart == start && e.configuration.periodEnd == end
    && e.configuration.board == board && e.configuration.rank == rank && e.configuration.prizePaise == e.amount
    && |e.configuration.schedulePaise| == |common| && forall i :: 0 <= i < |common| ==> NearestPaise(e.configuration.schedulePaise[i], common[i])
  }

  lemma {:induction false} RiderTypeIs(riders: seq<RiderRow>, w: Id)
    requires exists r :: r in riders && r.row.score.worker == w
    ensures w in RiderTypes(riders) && exists r :: r in riders && r.row.score.worker == w && r.workerType == RiderTypes(riders)[w]
  {
    var n := |riders| - 1;
    if riders[n].row.score.worker == w {
      assert riders[n] in riders;
    } else {
      var r :| r in riders && r.row.score.worker == w;
      assert r in riders[..n];
      RiderTypeIs(riders[..n], w);
    }
  }

  /** A rebuild with usable boards holds a worker's award exactly when its place pays something. */
  lemma RebuildHoldsAwardIff(job: Job, data: SourceData, workers: seq<Id>, board: Board, r: Row, bonus: real)
    requires (job.scope == AllEarnings || job.scope == LeaderboardsOnly) && OrdersPart(job, data, workers).error.None? && BoardsUsable(data)
    requires r in BoardRows(data, board) && PaysPlace(data.prizes, board, r.gender, |AheadOf(BoardRows(data, board), r)| + 1, bonus)
    ensures var es, key := RebuildOf(job, data, workers).puts, EntryKey(job.id.office, AwardKey(board, job.start, job.end, r.score.worker));
            && ((exists e :: e in es && e.id == key) <==> bonus != 0.0)
            && (forall e :: e in es && e.id == key ==>
                  ShowsAward(e, job.start, job.end, board, if board == BeauticianBoard then data.prizes.beautician else data.prizes.rider,
                             |AheadOf(BoardRows(data, board), r)| + 1, bonus)
                  && e.configuration.version == VersionOf(data.prizes) && e.worker == r.score.worker && WorkerKind(data, board, r.score.worker, e.workerType))
  {
    hide AheadOf, RankAwards, BoardPrizes, RowScores, RebuildOf, BoardsUsable, PaysPlace;
    var rows, types := BoardRows(data, board), if board == BeauticianBoard then map[] else RiderTypes(data.riders);
    UsableRowsDiffer(data, board);
    var a := AwardOfRow(rows, data.prizes, board, r);
    OnItsBoard(rows, data.prizes, board, r.gender, a);
    OneBonus(data.prizes, board, r.gender, a.rank, a.bonus, bonus);
    KindIs(data, board, r);
    PaiseAreNearest(bonus);
    var es := RebuildOf(job, data, workers).puts;
    forall e: Entry | e.id == EntryKey(job.id.office, AwardKey(board, job.start, job.end, r.score.worker))
      ensures e in es <==> bonus != 0.0 && e == AwardEntry(job, a, TypeOf(types, board, a.worker), board, data.prizes)
    {
      BoardEntry(job, data, workers, board, e);
      AwardPlansWrite(job, BoardAwards(rows, data.prizes, board), types, board, data.prizes, e);
      if b :| b in BoardAwards(rows, data.prizes, board) && b.bonus != 0.0 && e == AwardEntry(job, b, TypeOf(types, board, b.worker), board, data.prizes) {
        assert b.worker == a.worker;
        OneAwardEach(rows, data.prizes, board, a, b);
      }
    }
    AwardShows(job, data, board, a, TypeOf(types, board, a.worker));
  }

  lemma AwardShows(job: Job, data: SourceData, board: Board, a: Award, kind: WorkerType)
    requires BoardsUsable(data)
    ensures var e := AwardEntry(job, a, kind, board, data.prizes);
            && ShowsAward(e, job.start, job.end, board, if board == BeauticianBoard then data.prizes.beautician else data.prizes.rider, a.rank, a.bonus)
            && e.configuration.version == VersionOf(data.prizes) && e.worker == a.worker && e.workerType == kind
            && e.id == EntryKey(job.id.office, AwardKey(board, job.start, job.end, a.worker))
  {
    hide MoneyToPaise, NearestPaise, RowPlans, VersionOf;
    PaiseAreNearest(a.bonus);
    var common := if board == BeauticianBoard then data.prizes.beautician else data.prizes.rider;
    forall i | 0 <= i < |common| ensures NearestPaise(MoneyToPaise(common[i]), common[i]) {
      PaiseAreNearest(common[i]);
    }
  }

  lemma UsableRowsDiffer(data: SourceData, board: Board)
    requires BoardsUsable(data)
    ensures DistinctRows(BoardRows(data, board))
  {
    RowPlansCheck(BoardRows(data, board));
  }

  lemma KindIs(data: SourceData, board: Board, r: Row)
    requires r in BoardRows(data, board)
    ensures WorkerKind(data, board, r.score.worker, TypeOf(if board == BeauticianBoard then map[] else RiderTypes(data.riders), board, r.score.worker))
  {
    if board == RiderBoard {
      var i :| 0 <= i < |data.riders| && RiderRows(data.riders)[i] == r;
      assert data.riders[i] in data.riders;
      RiderTypeIs(data.riders, r.score.worker);
    }
  }

  lemma OneAwardEach(rows: seq<Row>, schedule: PrizeSchedule, board: Board, a: Award, b: Award)
    requires DistinctRows(rows) && a in BoardAwards(rows, schedule, board) && b in BoardAwards(rows, schedule, board) && a.worker == b.worker
    ensures a == b
  {
    BoardAwardsDistinct(rows, schedule, board);
    var awards := BoardAwards(rows, schedule, board);
    var i :| 0 <= i < |awards| && awards[i] == a;
    var j :| 0 <= j < |awards| && awards[j] == b;
  }

  /** Among a rebuild's puts, those with a key of this board are the board's. */
  lemma BoardEntry(job: Job, data: SourceData, workers: seq<Id>, board: Board, e: Entry)
    requires (job.scope == AllEarnings || job.scope == LeaderboardsOnly) && OrdersPart(job, data, workers).error.None? && BoardsUsable(data)
    requires e.id.key.AwardKey? && e.id.key.board == board
    ensures e in RebuildOf(job, data, workers).puts <==>
            e in AwardPlans(job, BoardAwards(BoardRows(data, board), data.prizes, board),
                            if board == BeauticianBoard then map[] else RiderTypes(data.riders), board, data.prizes).puts
  {
    hide OrdersPart, TripPlans, BoardAwards, RiderTypes, AwardEntry, RowPlans;
    ThreeParts(OrdersPart(job, data, workers), TripsPart(job, data), BoardsPart(job, data));
    PartsKeys(job, data, workers);
    LeaderboardShape(job, data);
    var a := BoardAwards(data.beauticians, data.prizes, BeauticianBoard);
    var b := BoardAwards(RiderRows(data.riders), data.prizes, RiderBoard);
    if e in BeauticianAwardPlans(job, data).puts {
      AwardPlansKeys(job, a, map[], BeauticianBoard, data.prizes, e);
    }
    if e in RiderAwardPlans(job, data).puts {
      AwardPlansKeys(job, b, RiderTypes(data.riders), RiderBoard, data.prizes, e);
    }
  }
}
