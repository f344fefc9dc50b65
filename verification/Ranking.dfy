/** Leaderboard ranking: `internal/leaderboard/ranking.go` and the per-gender boards of
    `internal/leaderboard/service.go`. */
module Ranking {
  import opened Wrappers

  type Id = nat

  /** A beautician scores (revenue, orders); a rider scores (trips, distance). */
  datatype Score = Score(worker: Id, first: real, second: real)

  datatype Award = Award(worker: Id, rank: nat, bonus: real)

  /** The comparison both `sort.Slice` calls use: the worker id breaks exact ties. */
  predicate Better(a: Score, b: Score) {
    if a.first != b.first then a.first > b.first
    else if a.second != b.second then a.second > b.second
    else a.worker < b.worker
  }

  ghost predicate Ranked(s: seq<Score>) {
    forall i, j :: 0 <= i < j < |s| ==> !Better(s[j], s[i])
  }

  function Insert(s: seq<Score>, x: Score): seq<Score> {
    if s == [] then [x]
    else if Better(x, s[0]) then [x] + s
    else [s[0]] + Insert(s[1..], x)
  }

  function SortScores(s: seq<Score>): seq<Score> {
    if s == [] then [] else Insert(SortScores(s[..|s| - 1]), s[|s| - 1])
  }

  lemma {:induction false} InsertBag(s: seq<Score>, x: Score)
    ensures multiset(Insert(s, x)) == multiset(s) + multiset{x}
  {
    if s != [] && !Better(x, s[0]) {
      InsertBag(s[1..], x);
      assert s == [s[0]] + s[1..];
    }
  }

  lemma {:induction false} SortBag(s: seq<Score>)
    ensures multiset(SortScores(s)) == multiset(s)
  {
    if s != [] {
      hide Insert;
      var n := |s| - 1;
      SortBag(s[..n]);
      InsertBag(SortScores(s[..n]), s[n]);
      BagSnoc(s);
    }
  }

  lemma BagSnoc(s: seq<Score>)
    requires s != []
    ensures multiset(s) == multiset(s[..|s| - 1]) + multiset{s[|s| - 1]}
  {
    assert s == s[..|s| - 1] + [s[|s| - 1]];
  }

  lemma {:induction false} InsertKeepsRanked(s: seq<Score>, x: Score)
    requires Ranked(s)
    ensures Ranked(Insert(s, x))
  {
    if s != [] && !Better(x, s[0]) {
      InsertKeepsRanked(s[1..], x);
      InsertBag(s[1..], x);
      var t := Insert(s[1..], x);
      forall j | 0 <= j < |t| ensures !Better(t[j], s[0]) {
        assert t[j] in multiset(t);
        if t[j] != x {
          assert t[j] in multiset(s[1..]);
          var k :| 0 <= k < |s[1..]| && s[1..][k] == t[j];
          assert s[k + 1] == t[j];
        }
      }
    }
  }

  lemma {:induction false} SortRanks(s: seq<Score>)
    ensures Ranked(SortScores(s))
  {
    if s != [] {
      SortRanks(s[..|s| - 1]);
      InsertKeepsRanked(SortScores(s[..|s| - 1]), s[|s| - 1]);
    }
  }

  /** A ranked sequence is determined by the scores in it, however often each occurs. */
  lemma {:induction false} RankedIsUnique(s: seq<Score>, t: seq<Score>)
    requires Ranked(s) && Ranked(t) && multiset(s) == multiset(t)
    ensures s == t
  {
    assert |multiset(s)| == |multiset(t)|;
    if s != [] {
      BestIsFirst(s, t);
      assert s == [s[0]] + s[1..] && t == [t[0]] + t[1..];
      assert multiset(s[1..]) == multiset(s) - multiset{s[0]};
      assert multiset(t[1..]) == multiset(t) - multiset{t[0]};
      RankedIsUnique(s[1..], t[1..]);
    }
  }

  lemma BestIsFirst(s: seq<Score>, t: seq<Score>)
    requires Ranked(s) && Ranked(t) && multiset(s) == multiset(t) && |s| == |t| > 0
    ensures s[0] == t[0]
  {
    assert s[0] in multiset(t) && t[0] in multiset(s);
    var i :| 0 <= i < |t| && t[i] == s[0];
    var j :| 0 <= j < |s| && s[j] == t[0];
    assert !Better(s[0], t[0]) && !Better(t[0], s[0]);
  }

  lemma {:induction false} InsertSplits(s: seq<Score>, x: Score, j: nat)
    requires Ranked(s) && j <= |s|
    requires j > 0 ==> !Better(x, s[j - 1])
    requires forall q :: j <= q < |s| ==> Better(x, s[q])
    ensures Insert(s, x) == s[..j] + [x] + s[j..]
  {
    if s != [] {
      if j == 0 {
        assert s[..j] + [x] + s[j..] == [x] + s;
      } else {
        assert !Better(x, s[0]);
        InsertSplits(s[1..], x, j - 1);
        assert s[..j] + [x] + s[j..] == [s[0]] + (s[1..][..j - 1] + [x] + s[1..][j - 1..]);
      }
    }
  }

  /** Moves `a[i]` left to its place among the already ranked `a[..i]`. */
  method InsertInPlace(a: array<Score>, i: nat)
    requires i < a.Length && Ranked(a[..i])
    modifies a
    ensures a[..] == Insert(old(a[..i]), old(a[i])) + old(a[i + 1..])
  {
    var x, j := a[i], i;
    while j > 0 && Better(x, a[j - 1])
      invariant 0 <= j <= i
      invariant forall q :: 0 <= q < j ==> a[q] == old(a[q])
      invariant forall q :: j < q <= i ==> a[q] == old(a[q - 1])
      invariant forall q :: i < q < a.Length ==> a[q] == old(a[q])
      invariant forall q :: j <= q < i ==> Better(x, old(a[q]))
    {
      a[j] := a[j - 1];
      j := j - 1;
    }
    a[j] := x;
    ghost var sorted := old(a[..i]);
    InsertSplits(sorted, x, j);
    assert a[..] == sorted[..j] + [x] + sorted[j..] + old(a[i + 1..]);
  }

  /** `sort.Slice` on the copied scores: any in-place comparison sort has this effect. */
  method SortSlice(a: array<Score>)
    modifies a
    ensures a[..] == SortScores(old(a[..]))
  {
    hide Insert, Better, Ranked;
    ghost var s := a[..];
    for i := 0 to a.Length
      invariant a[..] == SortScores(s[..i]) + s[i..]
      invariant |SortScores(s[..i])| == i
    {
      SortRanks(s[..i]);
      assert a[..i] == SortScores(s[..i]);
      assert a[i] == a[..][i] == s[i];
      assert a[i + 1..] == a[..][i + 1..] == s[i + 1..];
      InsertInPlace(a, i);
      assert s[..i + 1][..i] == s[..i];
      InsertLength(SortScores(s[..i]), s[i]);
    }
    assert s[..a.Length] == s;
  }

  lemma {:induction false} InsertLength(s: seq<Score>, x: Score)
    ensures |Insert(s, x)| == |s| + 1
  {
    if s != [] && !Better(x, s[0]) {
      InsertLength(s[1..], x);
    }
  }

  function BonusAt(prizes: seq<real>, index: nat): real {
    if index < |prizes| then prizes[index] else 0.0
  }

  function Awards(ranked: seq<Score>, prizes: seq<real>): seq<Award> {
    seq(|ranked|, i requires 0 <= i < |ranked| => Award(ranked[i].worker, i + 1, BonusAt(prizes, i)))
  }

  /** What `RankBeauticians` and `RankRiders` return. */
  function RankAwards(scores: seq<Score>, prizes: seq<real>): seq<Award> {
    Awards(SortScores(scores), prizes)
  }

  method Rank(scores: seq<Score>, prizes: seq<real>) returns (awards: array<Award>)
    ensures fresh(awards) && awards[..] == RankAwards(scores, prizes)
  {
    var ranked := new Score[|scores|](i requires 0 <= i < |scores| => scores[i]);
    assert ranked[..] == scores;
    SortSlice(ranked);
    var index := 0;
    awards := new Award[ranked.Length](_ => Award(0, 0, 0.0));
    while index < ranked.Length
      invariant 0 <= index <= ranked.Length == awards.Length
      invariant ranked[..] == SortScores(scores)
      invariant awards[..index] == RankAwards(scores, prizes)[..index]
    {
      var bonus := 0.0;
      if index < |prizes| {
        bonus := prizes[index];
      }
      assert ranked[index] == ranked[..][index];
      awards[index] := Award(ranked[index].worker, index + 1, bonus);
      assert awards[..index + 1] == awards[..index] + [awards[index]];
      index := index + 1;
    }
    assert awards[..] == awards[..index];
  }

  /** Input order is irrelevant: equal bags of scores give equal awards. */
  lemma RankIgnoresInputOrder(s: seq<Score>, t: seq<Score>, prizes: seq<real>)
    requires multiset(s) == multiset(t)
    ensures RankAwards(s, prizes) == RankAwards(t, prizes)
  {
    SortRanks(s);
    SortRanks(t);
    SortBag(s);
    SortBag(t);
    RankedIsUnique(SortScores(s), SortScores(t));
  }

  function AwardWorkers(awards: seq<Award>): (ws: seq<Id>)
    ensures |ws| == |awards|
  {
    seq(|awards|, i requires 0 <= i < |awards| => awards[i].worker)
  }

  function ScoreWorkers(scores: seq<Score>): (ws: seq<Id>)
    ensures |ws| == |scores|
  {
    seq(|scores|, i requires 0 <= i < |scores| => scores[i].worker)
  }

  lemma {:induction false} InsertWorkers(s: seq<Score>, x: Score)
    ensures multiset(ScoreWorkers(Insert(s, x))) == multiset(ScoreWorkers(s)) + multiset{x.worker}
  {
    if s == [] {
      assert ScoreWorkers([x]) == [x.worker];
    } else if Better(x, s[0]) {
      assert ScoreWorkers([x] + s) == [x.worker] + ScoreWorkers(s);
    } else {
      InsertWorkers(s[1..], x);
      assert ScoreWorkers(s) == [s[0].worker] + ScoreWorkers(s[1..]);
      assert ScoreWorkers(Insert(s, x)) == [s[0].worker] + ScoreWorkers(Insert(s[1..], x));
    }
  }

  lemma {:induction false} SortWorkers(s: seq<Score>)
    ensures multiset(ScoreWorkers(SortScores(s))) == multiset(ScoreWorkers(s))
  {
    if s != [] {
      var n := |s| - 1;
      SortWorkers(s[..n]);
      InsertWorkers(SortScores(s[..n]), s[n]);
      assert ScoreWorkers(s) == ScoreWorkers(s[..n]) + [s[n].worker];
    }
  }

  /** The awards name the scored workers, each as often as it was scored. */
  lemma RankKeepsWorkers(scores: seq<Score>, prizes: seq<real>)
    ensures multiset(AwardWorkers(RankAwards(scores, prizes))) == multiset(ScoreWorkers(scores))
  {
    SortWorkers(scores);
    assert AwardWorkers(RankAwards(scores, prizes)) == ScoreWorkers(SortScores(scores));
  }

  function BonusTotal(awards: seq<Award>): real {
    if awards == [] then 0.0 else BonusTotal(awards[..|awards| - 1]) + awards[|awards| - 1].bonus
  }

  function PrizeTotal(prizes: seq<real>): real {
    if prizes == [] then 0.0 else PrizeTotal(prizes[..|prizes| - 1]) + prizes[|prizes| - 1]
  }

  lemma {:induction false} AwardsPayPrizes(ranked: seq<Score>, prizes: seq<real>)
    ensures BonusTotal(Awards(ranked, prizes)) == PrizeTotal(prizes[..Min(|ranked|, |prizes|)])
  {
    if ranked != [] {
      var n := |ranked| - 1;
      AwardsPayPrizes(ranked[..n], prizes);
      var awards := Awards(ranked, prizes);
      assert awards[..n] == Awards(ranked[..n], prizes);
      if n < |prizes| {
        assert prizes[..n + 1][..n] == prizes[..n];
      }
    }
  }

  // ----- boards by gender

  datatype Gender = Female | Male | Other
  const GENDERS: seq<Gender> := [Female, Male, Other]

  /** An optional switch read from the office document; the address is where Go decoded it. */
  datatype Flag = Flag(on: bool, address: nat)

  datatype GenderSetting = GenderSetting(bonusEnabled: Option<Flag>, prizes: seq<real>)
  datatype GenderSettings = GenderSettings(female: GenderSetting, male: GenderSetting, other: GenderSetting)

  datatype PrizeSchedule = PrizeSchedule(beautician: seq<real>, rider: seq<real>,
                                         beauticianByGender: GenderSettings, riderByGender: GenderSettings)

  datatype Board = BeauticianBoard | RiderBoard

  function SettingOf(settings: GenderSettings, gender: Gender): GenderSetting {
    match gender
    case Female => settings.female
    case Male => settings.male
    case Other => settings.other
  }

  /** `BeauticianPrizes` and `RiderPrizes`, with a disabled board paying nothing. */
  function BoardPrizes(schedule: PrizeSchedule, board: Board, gender: Gender): seq<real> {
    var common := if board == BeauticianBoard then schedule.beautician else schedule.rider;
    var settings := if board == BeauticianBoard then schedule.beauticianByGender else schedule.riderByGender;
    var setting := SettingOf(settings, gender);
    match setting.bonusEnabled
    case None => common
    case Some(flag) => if flag.on then setting.prizes else []
  }

  datatype Row = Row(score: Score, gender: Gender)

  function RowScores(rows: seq<Row>, gender: Gender): seq<Score> {
    if rows == [] then []
    else
      var r := rows[|rows| - 1];
      RowScores(rows[..|rows| - 1], gender) + (if r.gender == gender then [r.score] else [])
  }

  function BoardAwards(rows: seq<Row>, schedule: PrizeSchedule, board: Board): seq<Award> {
    RankAwards(RowScores(rows, Female), BoardPrizes(schedule, board, Female))
    + RankAwards(RowScores(rows, Male), BoardPrizes(schedule, board, Male))
    + RankAwards(RowScores(rows, Other), BoardPrizes(schedule, board, Other))
  }

  /** Rows go to the group of their gender, in the order they were read. */
  method GroupRows(rows: seq<Row>) returns (groups: map<Gender, seq<Score>>)
    ensures {Female, Male, Other} <= groups.Keys
    ensures forall g | g in groups :: groups[g] == RowScores(rows, g)
  {
    groups := map[Female := [], Male := [], Other := []];
    for i := 0 to |rows|
      invariant {Female, Male, Other} <= groups.Keys
      invariant forall g | g in groups :: groups[g] == RowScores(rows[..i], g)
    {
      assert rows[..i + 1][..i] == rows[..i];
      assert rows[i].gender == Female || rows[i].gender == Male || rows[i].gender == Other;
      groups := groups[rows[i].gender := groups[rows[i].gender] + [rows[i].score]];
    }
    assert rows[..|rows|] == rows;
  }

  /** The ranking loop of `processLeaderboards`: one board after the other. */
  method RankBoards(rows: seq<Row>, schedule: PrizeSchedule, board: Board) returns (awards: seq<Award>)
    ensures awards == BoardAwards(rows, schedule, board)
  {
    hide RankAwards, BoardPrizes, RowScores;
    var groups := GroupRows(rows);
    awards := [];
    for i := 0 to 3
      invariant awards == BoardsUpTo(rows, schedule, board, i)
    {
      var ranked := Rank(groups[GENDERS[i]], BoardPrizes(schedule, board, GENDERS[i]));
      awards := awards + ranked[..];
    }
    ThreeBoards(rows, schedule, board);
  }

  function BoardsUpTo(rows: seq<Row>, schedule: PrizeSchedule, board: Board, n: nat): seq<Award>
    requires n <= 3
  {
    if n == 0 then []
    else BoardsUpTo(rows, schedule, board, n - 1) + RankAwards(RowScores(rows, GENDERS[n - 1]), BoardPrizes(schedule, board, GENDERS[n - 1]))
  }

  lemma ThreeBoards(rows: seq<Row>, schedule: PrizeSchedule, board: Board)
    ensures BoardsUpTo(rows, schedule, board, 3) == BoardAwards(rows, schedule, board)
  {
    hide RankAwards, BoardPrizes, RowScores;
    var first := RankAwards(RowScores(rows, Female), BoardPrizes(schedule, board, Female));
    assert BoardsUpTo(rows, schedule, board, 1) == BoardsUpTo(rows, schedule, board, 0) + first == first;
    assert BoardsUpTo(rows, schedule, board, 2) == first + RankAwards(RowScores(rows, Male), BoardPrizes(schedule, board, Male));
  }

  lemma {:induction false} RowScoresCount(rows: seq<Row>, gender: Gender, s: Score)
    ensures multiset(RowScores(rows, gender))[s] == multiset(rows)[Row(s, gender)]
  {
    if rows != [] {
      var n := |rows| - 1;
      RowScoresCount(rows[..n], gender, s);
      assert rows == rows[..n] + [rows[n]];
    }
  }

  /** Boards depend only on the bag of rows the aggregation returned. */
  lemma BoardsIgnoreInputOrder(rows: seq<Row>, rows': seq<Row>, schedule: PrizeSchedule, board: Board)
    requires multiset(rows) == multiset(rows')
    ensures BoardAwards(rows, schedule, board) == BoardAwards(rows', schedule, board)
  {
    forall g: Gender ensures RankAwards(RowScores(rows, g), BoardPrizes(schedule, board, g))
                             == RankAwards(RowScores(rows', g), BoardPrizes(schedule, board, g))
    {
      var a, b := multiset(RowScores(rows, g)), multiset(RowScores(rows', g));
      forall s: Score ensures a[s] == b[s] {
        RowScoresCount(rows, g, s);
        RowScoresCount(rows', g, s);
      }
      assert a == b;
      RankIgnoresInputOrder(RowScores(rows, g), RowScores(rows', g), BoardPrizes(schedule, board, g));
    }
  }

  function RowWorkers(rows: seq<Row>): seq<Id> {
    if rows == [] then [] else RowWorkers(rows[..|rows| - 1]) + [rows[|rows| - 1].score.worker]
  }

  ghost function GroupBag(rows: seq<Row>, gender: Gender): multiset<Id> {
    multiset(ScoreWorkers(RowScores(rows, gender)))
  }

  lemma GroupStep(rows: seq<Row>, r: Row, gender: Gender)
    ensures GroupBag(rows + [r], gender) ==
            GroupBag(rows, gender) + (if r.gender == gender then multiset{r.score.worker} else multiset{})
  {
    assert (rows + [r])[..|rows|] == rows;
    var scores := RowScores(rows, gender);
    if r.gender == gender {
      assert RowScores(rows + [r], gender) == scores + [r.score];
      assert ScoreWorkers(scores + [r.score]) == ScoreWorkers(scores) + [r.score.worker];
    } else {
      assert RowScores(rows + [r], gender) == scores;
    }
  }

  lemma {:induction false} GroupsCoverRows(rows: seq<Row>)
    ensures multiset(RowWorkers(rows)) == GroupBag(rows, Female) + GroupBag(rows, Male) + GroupBag(rows, Other)
  {
    if rows != [] {
      var init, r := rows[..|rows| - 1], rows[|rows| - 1];
      GroupsCoverRows(init);
      assert rows == init + [r];
      GroupStep(init, r, Female);
      GroupStep(init, r, Male);
      GroupStep(init, r, Other);
    }
  }

  lemma AwardWorkersConcat(a: seq<Award>, b: seq<Award>)
    ensures AwardWorkers(a + b) == AwardWorkers(a) + AwardWorkers(b)
  {
  }

  /** Across the three boards every scored worker appears exactly as often as in the rows. */
  lemma BoardsCoverWorkers(rows: seq<Row>, schedule: PrizeSchedule, board: Board)
    ensures multiset(AwardWorkers(BoardAwards(rows, schedule, board))) == multiset(RowWorkers(rows))
  {
    var f := RankAwards(RowScores(rows, Female), BoardPrizes(schedule, board, Female));
    var m := RankAwards(RowScores(rows, Male), BoardPrizes(schedule, board, Male));
    var o := RankAwards(RowScores(rows, Other), BoardPrizes(schedule, board, Other));
    RankKeepsWorkers(RowScores(rows, Female), BoardPrizes(schedule, board, Female));
    RankKeepsWorkers(RowScores(rows, Male), BoardPrizes(schedule, board, Male));
    RankKeepsWorkers(RowScores(rows, Other), BoardPrizes(schedule, board, Other));
    GroupsCoverRows(rows);
    AwardWorkersConcat(f, m);
    AwardWorkersConcat(f + m, o);
  }

  /** One board: consecutive ranks in strict score order, paying exactly the leading prizes. */
  lemma BoardIsExact(scores: seq<Score>, prizes: seq<real>)
    requires forall i, j :: 0 <= i < j < |scores| ==> scores[i].worker != scores[j].worker
    ensures var awards := RankAwards(scores, prizes);
            && |awards| == |scores|
            && (forall i :: 0 <= i < |awards| ==> awards[i].rank == i + 1)
            && (forall i, j :: 0 <= i < j < |awards| ==>
                  exists a, b :: a in scores && b in scores && a.worker == awards[i].worker
                                 && b.worker == awards[j].worker && Better(a, b))
            && BonusTotal(awards) == PrizeTotal(prizes[..Min(|scores|, |prizes|)])
  {
    var sorted := SortScores(scores);
    var awards := RankAwards(scores, prizes);
    SortBag(scores);
    assert |multiset(sorted)| == |multiset(scores)|;
    SortRanks(scores);
    AwardsPayPrizes(sorted, prizes);
    forall i, j | 0 <= i < j < |awards|
      ensures exists a, b :: a in scores && b in scores && a.worker == awards[i].worker
                             && b.worker == awards[j].worker && Better(a, b)
    {
      hide Better, BonusTotal, PrizeTotal, SortScores, Min;
      SortedPair(scores, i, j);
      assert sorted[i] in scores && sorted[j] in scores && awards[i].worker == sorted[i].worker && awards[j].worker == sorted[j].worker;
    }
  }

  lemma SortedPair(scores: seq<Score>, i: nat, j: nat)
    requires forall p, q :: 0 <= p < q < |scores| ==> scores[p].worker != scores[q].worker
    requires i < j < |SortScores(scores)|
    ensures SortScores(scores)[i] in scores && SortScores(scores)[j] in scores
    ensures Better(SortScores(scores)[i], SortScores(scores)[j])
  {
    var sorted := SortScores(scores);
    SortBag(scores);
    assert sorted[i] in multiset(sorted) && sorted[j] in multiset(sorted);
    SortRanks(scores);
    SortedDistinct(scores, i, j);
  }

  lemma SortedDistinct(scores: seq<Score>, i: nat, j: nat)
    requires forall p, q :: 0 <= p < q < |scores| ==> scores[p].worker != scores[q].worker
    requires i < j < |SortScores(scores)|
    ensures SortScores(scores)[i].worker != SortScores(scores)[j].worker
  {
    var ws := ScoreWorkers(SortScores(scores));
    SortWorkers(scores);
    DistinctCount(ScoreWorkers(scores), ws[i]);
    RepeatCount(ws, i, j);
  }

  lemma RepeatCount(ws: seq<Id>, i: nat, j: nat)
    requires i < j < |ws|
    ensures ws[i] == ws[j] ==> multiset(ws)[ws[i]] >= 2
  {
    assert ws == ws[..j] + [ws[j]] + ws[j + 1..];
    assert ws[..j][i] == ws[i];
  }

  lemma {:induction false} DistinctCount(ws: seq<Id>, w: Id)
    requires forall p, q :: 0 <= p < q < |ws| ==> ws[p] != ws[q]
    ensures multiset(ws)[w] <= 1
  {
    if ws != [] {
      var n := |ws| - 1;
      DistinctCount(ws[..n], w);
      assert ws == ws[..n] + [ws[n]];
      assert ws[n] !in ws[..n];
    }
  }
}
