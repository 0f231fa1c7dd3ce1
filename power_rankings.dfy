/** Power ratings: a closed-form rating of a team from its scores so far and
    its record, and the week-by-week pass that pairs the two teams of each
    matchup, records scores, wins and losses, keeps cumulative lists and
    counters, re-rates every team after each week and finally adds summary
    statistics. */
module PowerRankings {
  import opened Wrappers
  import opened Stats
  import opened Matchups
  import Dicts

  // ---------------------------------------------------------------- the rating formula

  /** wins / (wins + losses), or 0 when no game was decided. */
  function WinPercentage(wins: nat, losses: nat): (p: real)
    ensures wins + losses == 0 ==> p == 0.0
    ensures wins + losses > 0 ==> p * (wins + losses) as real == wins as real
    ensures 0.0 <= p <= 1.0
  {
    var total := wins + losses;
    if total > 0 then
      var p := wins as real / total as real;
      DivideBounds(0.0, wins as real, 1.0, total as real);
      p
    else 0.0
  }

  /** The win percentage the rating uses: from the combined record when both
      of its counts are supplied, otherwise from the regular record. */
  function RecordPercentage(wins: nat, losses: nat, combinedWins: Option<nat>, combinedLosses: Option<nat>): (p: real)
    ensures combinedWins.Some? && combinedLosses.Some? ==> p == WinPercentage(combinedWins.value, combinedLosses.value)
    ensures combinedWins.None? || combinedLosses.None? ==> p == WinPercentage(wins, losses)
  {
    if combinedWins.Some? && combinedLosses.Some? then WinPercentage(combinedWins.value, combinedLosses.value)
    else WinPercentage(wins, losses)
  }

  /** The unrounded blend: six parts mean, two parts high plus low, and the
      win percentage scaled to 200 counted twice, all over ten. */
  function RawRating(scores: seq<real>, winPct: real): real
    requires |scores| > 0
  {
    (Mean(scores) * 6.0 + (MaxOf(scores) + MinOf(scores)) * 2.0 + (winPct * 200.0) * 2.0) / 10.0
  }

  /** The part of the rating that comes from the scores alone. */
  function ScoreRating(scores: seq<real>): real
    requires |scores| > 0
  {
    (Mean(scores) * 6.0 + (MaxOf(scores) + MinOf(scores)) * 2.0) / 10.0
  }

  /** The power rating of a team from its score list and record, rounded to
      one decimal; an empty score list rates exactly 0.0. */
  function PowerRating(scores: seq<real>, wins: nat, losses: nat,
                       combinedWins: Option<nat>, combinedLosses: Option<nat>): (r: real)
    ensures |scores| == 0 ==> r == 0.0
    ensures OneDecimal(r)
    ensures |scores| > 0 ==>
      -0.05 <= r - RawRating(scores, RecordPercentage(wins, losses, combinedWins, combinedLosses)) <= 0.05
  {
    if |scores| == 0 then 0.0
    else Round1(RawRating(scores, RecordPercentage(wins, losses, combinedWins, combinedLosses)))
  }

  /** The record adds exactly 40 × win percentage, between 0 and 40 points, to
      the score-only part. */
  lemma WinTerm(scores: seq<real>, winPct: real)
    requires |scores| > 0
    requires 0.0 <= winPct <= 1.0
    ensures RawRating(scores, winPct) == ScoreRating(scores) + 40.0 * winPct
    ensures ScoreRating(scores) <= RawRating(scores, winPct) <= ScoreRating(scores) + 40.0
  {
  }

  /** The score-only part lies between the lowest and the highest score. */
  lemma ScoreRatingBetween(scores: seq<real>)
    requires |scores| > 0
    ensures MinOf(scores) <= ScoreRating(scores) <= MaxOf(scores)
  {
    MeanBetween(scores);
  }

  /** A rating lies between the lowest score and the highest score plus 40,
      give or take the rounding. */
  lemma PowerRatingBounds(scores: seq<real>, wins: nat, losses: nat,
                          combinedWins: Option<nat>, combinedLosses: Option<nat>)
    requires |scores| > 0
    ensures MinOf(scores) - 0.05 <= PowerRating(scores, wins, losses, combinedWins, combinedLosses)
    ensures PowerRating(scores, wins, losses, combinedWins, combinedLosses) <= MaxOf(scores) + 40.05
  {
    var p := RecordPercentage(wins, losses, combinedWins, combinedLosses);
    WinTerm(scores, p);
    ScoreRatingBetween(scores);
  }

  /** With the same scores, a better win percentage never lowers the rating. */
  lemma PowerRatingMonotoneInRecord(scores: seq<real>, w1: nat, l1: nat, w2: nat, l2: nat)
    requires |scores| > 0
    requires WinPercentage(w1, l1) <= WinPercentage(w2, l2)
    ensures PowerRating(scores, w1, l1, None, None) <= PowerRating(scores, w2, l2, None, None)
  {
    Round1Monotone(RawRating(scores, WinPercentage(w1, l1)), RawRating(scores, WinPercentage(w2, l2)));
  }

  /** Scores 100, 120, 110 with a 2–1 record rate 136.7. */
  lemma PowerRatingExample()
    ensures PowerRating([100.0, 120.0, 110.0], 2, 1, None, None) == 136.7
  {
    var s := [100.0, 120.0, 110.0];
    assert Sum(s) == 330.0 by {
      assert [100.0][..0] == [];
      assert Sum([100.0]) == 100.0;
      assert [100.0, 120.0][..1] == [100.0];
      assert Sum([100.0, 120.0]) == 220.0;
      assert s[..2] == [100.0, 120.0];
    }
    assert MaxOf(s) == 120.0 && MinOf(s) == 100.0 by {
      assert s[..2] == [100.0, 120.0];
      assert s[..2][..1] == [100.0];
    }
    assert RawRating(s, WinPercentage(2, 1)) == 13667.0 / 100.0 - 1.0 / 300.0;
    assert (13667.0 / 100.0 - 1.0 / 300.0) * 10.0 == 1366.6 + 2.0 / 30.0;
  }

  // ---------------------------------------------------------------- one week's head-to-head results

  /** A team's line for one week: its score and whether it won or lost. */
  datatype WeekResult = WeekResult(score: real, win: bool, loss: bool)

  /** The two results of a pairing with the given points. */
  function PairResults(points1: real, points2: real): (r: (WeekResult, WeekResult))
  {
    (WeekResult(points1, points1 > points2, points1 < points2),
     WeekResult(points2, points2 > points1, points2 < points1))
  }

  /** The strictly higher scorer wins and the other loses; equal scores give
      neither a win nor a loss; no team both wins and loses. */
  lemma PairOutcome(points1: real, points2: real)
    ensures var (a, b) := PairResults(points1, points2);
      a.score == points1 && b.score == points2 &&
      (points1 > points2 ==> a.win && !a.loss && !b.win && b.loss) &&
      (points2 > points1 ==> !a.win && a.loss && b.win && !b.loss) &&
      (points1 == points2 ==> !a.win && !a.loss && !b.win && !b.loss) &&
      (a.win <==> b.loss) && (a.loss <==> b.win)
  {
  }

  /** The owners of two roster ids, scanning every roster: a roster with the
      first id sets the first owner, otherwise one with the second id sets the
      second; later rosters overwrite earlier ones; "" when none matched. */
  function ScanOwners(rosters: seq<Roster>, id1: int, id2: int): (owners: (string, string))
  {
    if |rosters| == 0 then ("", "")
    else
      var (u1, u2) := ScanOwners(rosters[..|rosters| - 1], id1, id2);
      var r := rosters[|rosters| - 1];
      if r.rosterId == id1 then (r.ownerId, u2)
      else if r.rosterId == id2 then (u1, r.ownerId)
      else (u1, u2)
  }

  /** Some roster has id `id` and owner `u`. */
  predicate OwnsRoster(rosters: seq<Roster>, u: string, id: int)
  {
    exists k :: 0 <= k < |rosters| && rosters[k].ownerId == u && rosters[k].rosterId == id
  }

  /** A resolved owner really owns the roster it was resolved for. */
  lemma {:induction false} ScanOwnersSound(rosters: seq<Roster>, id1: int, id2: int)
    ensures ScanOwners(rosters, id1, id2).0 != "" ==> OwnsRoster(rosters, ScanOwners(rosters, id1, id2).0, id1)
    ensures ScanOwners(rosters, id1, id2).1 != "" ==> OwnsRoster(rosters, ScanOwners(rosters, id1, id2).1, id2)
  {
    if |rosters| > 0 {
      var front := rosters[..|rosters| - 1];
      ScanOwnersSound(front, id1, id2);
      var (u1, u2) := ScanOwners(front, id1, id2);
      if u1 != "" && OwnsRoster(front, u1, id1) {
        var k :| 0 <= k < |front| && front[k].ownerId == u1 && front[k].rosterId == id1;
        assert rosters[k] == front[k];
      }
      if u2 != "" && OwnsRoster(front, u2, id2) {
        var k :| 0 <= k < |front| && front[k].ownerId == u2 && front[k].rosterId == id2;
        assert rosters[k] == front[k];
      }
    }
  }

  /** Records one matchup group: only a group of exactly two lines whose
      owners both resolve produces results, the second team's entry written
      after the first's. */
  function PairStep(results: map<string, WeekResult>, group: seq<Matchup>, rosters: seq<Roster>): map<string, WeekResult>
  {
    if |group| != 2 then results
    else
      var (u1, u2) := ScanOwners(rosters, group[0].rosterId, group[1].rosterId);
      if u1 == "" || u2 == "" then results
      else
        var (r1, r2) := PairResults(group[0].points, group[1].points);
        results[u1 := r1][u2 := r2]
  }

  /** The results of the groups `ids`, processed in order. */
  function GroupResults(ms: seq<Matchup>, ids: seq<int>, rosters: seq<Roster>): map<string, WeekResult>
  {
    if |ids| == 0 then map[]
    else PairStep(GroupResults(ms, ids[..|ids| - 1], rosters), GroupOf(ms, ids[|ids| - 1]), rosters)
  }

  /** The week's results by owner. */
  function WeekResults(ms: seq<Matchup>, rosters: seq<Roster>): map<string, WeekResult>
  {
    GroupResults(ms, GroupIds(ms), rosters)
  }

  /** `u` is an owner resolved for a two-line group of id `id`. */
  ghost predicate ResolvedIn(ms: seq<Matchup>, id: int, rosters: seq<Roster>, u: string)
  {
    var g := GroupOf(ms, id);
    |g| == 2 &&
    var (u1, u2) := ScanOwners(rosters, g[0].rosterId, g[1].rosterId);
    u1 != "" && u2 != "" && (u == u1 || u == u2)
  }

  /** A team gets a result only as a resolved owner of a two-line group with a
      truthy matchup id; a falsy id, a group of another size or an unresolved
      owner records nothing. Every result is a consistent win/loss line. */
  lemma {:induction false} GroupResultsOnlyResolved(ms: seq<Matchup>, ids: seq<int>, rosters: seq<Roster>, u: string)
    requires u in GroupResults(ms, ids, rosters)
    ensures exists id :: id in ids && ResolvedIn(ms, id, rosters, u)
    ensures var r := GroupResults(ms, ids, rosters)[u]; !(r.win && r.loss)
  {
    var front := ids[..|ids| - 1];
    var id := ids[|ids| - 1];
    var prev := GroupResults(ms, front, rosters);
    var g := GroupOf(ms, id);
    if u in prev && (|g| != 2 || u !in PairStep(prev, g, rosters) || PairStep(prev, g, rosters)[u] == prev[u]) {
      GroupResultsOnlyResolved(ms, front, rosters, u);
      var id' :| id' in front && ResolvedIn(ms, id', rosters, u);
      assert id' in ids;
    } else {
      assert ResolvedIn(ms, id, rosters, u);
    }
  }

  // ---------------------------------------------------------------- a team's week-by-week data

  /** The summary added after the last week. */
  datatype Trend = Improving | Declining
  datatype Summary = Summary(current: real, average: real, trend: Trend,
                             highest: real, lowest: real, totalWeeks: nat)

  /** One recorded week of a team: its score and its win and loss flags (1 or 0). */
  datatype WeekLine = WeekLine(score: real, win: nat, loss: nat)

  /** What is derived for a recorded week: the cumulative score list, wins
      and losses through that week, and the team's power rating on them. */
  datatype RatedWeek = RatedWeek(cumScores: seq<real>, cumWins: nat, cumLosses: nat, rating: real)

  /** A team's season: its name, the weeks in the order they were first
      recorded (the key order of its per-week dictionaries), the recorded
      lines and the derived values by week, and the summary once added. */
  datatype TeamPower = TeamPower(
    name: string,
    weeks: seq<int>,
    lines: map<int, WeekLine>,
    rated: map<int, RatedWeek>,
    summary: Option<Summary>)

  /** A team before any week. */
  function EmptyTeam(name: string): TeamPower
  {
    TeamPower(name, [], map[], map[], None)
  }

  function Flag(b: bool): nat { if b then 1 else 0 }

  /** The scores of the weeks `keys` that are at most `week`, in the order of `keys`. */
  function ScoresThrough(keys: seq<int>, lines: map<int, WeekLine>, week: int): (r: seq<real>)
    requires forall k :: k in keys ==> k in lines
    ensures |r| <= |keys|
  {
    if |keys| == 0 then []
    else
      var k := keys[|keys| - 1];
      ScoresThrough(keys[..|keys| - 1], lines, week) + (if k <= week then [lines[k].score] else [])
  }

  /** The sum of the win flags of the weeks `keys` that are at most `week`. */
  function WinsThrough(keys: seq<int>, lines: map<int, WeekLine>, week: int): nat
    requires forall k :: k in keys ==> k in lines
  {
    if |keys| == 0 then 0
    else
      var k := keys[|keys| - 1];
      WinsThrough(keys[..|keys| - 1], lines, week) + (if k <= week then lines[k].win else 0)
  }

  /** The sum of the loss flags of the weeks `keys` that are at most `week`. */
  function LossesThrough(keys: seq<int>, lines: map<int, WeekLine>, week: int): nat
    requires forall k :: k in keys ==> k in lines
  {
    if |keys| == 0 then 0
    else
      var k := keys[|keys| - 1];
      LossesThrough(keys[..|keys| - 1], lines, week) + (if k <= week then lines[k].loss else 0)
  }

  /** Wins and losses never exceed the games counted when no week holds both. */
  lemma {:induction false} ThroughBound(keys: seq<int>, lines: map<int, WeekLine>, week: int)
    requires forall k :: k in keys ==> k in lines && lines[k].win + lines[k].loss <= 1
    ensures WinsThrough(keys, lines, week) + LossesThrough(keys, lines, week) <= |ScoresThrough(keys, lines, week)|
  {
    if |keys| > 0 {
      ThroughBound(keys[..|keys| - 1], lines, week);
    }
  }

  /** A recorded week at most `week` contributes its score. */
  lemma {:induction false} ScoresThroughHas(keys: seq<int>, lines: map<int, WeekLine>, week: int, w: int)
    requires forall k :: k in keys ==> k in lines
    requires w in keys && w <= week
    ensures lines[w].score in ScoresThrough(keys, lines, week)
  {
    var front := keys[..|keys| - 1];
    if keys[|keys| - 1] != w {
      assert w in front;
      ScoresThroughHas(front, lines, week, w);
    }
  }

  /** The recorded week, at most `week`, whose score is the i-th of the
      cumulative list. */
  lemma {:induction false} ScoresThroughAt(keys: seq<int>, lines: map<int, WeekLine>, week: int, i: int) returns (k: int)
    requires forall k :: k in keys ==> k in lines
    requires 0 <= i < |ScoresThrough(keys, lines, week)|
    ensures k in keys && k <= week && ScoresThrough(keys, lines, week)[i] == lines[k].score
    decreases |keys|
  {
    var front := keys[..|keys| - 1];
    var last := keys[|keys| - 1];
    var fr := ScoresThrough(front, lines, week);
    assert ScoresThrough(keys, lines, week) == fr + if last <= week then [lines[last].score] else [];
    if i < |fr| {
      k := ScoresThroughAt(front, lines, week, i);
      assert k in keys;
    } else {
      k := last;
    }
  }

  /** `x` is the score of a recorded week at most `week`. */
  ghost predicate ScoreOfWeekThrough(keys: seq<int>, lines: map<int, WeekLine>, week: int, x: real)
  {
    exists k :: k in keys && k in lines && k <= week && x == lines[k].score
  }

  /** Conversely, every score in the cumulative list is the score of a
      recorded week at most `week`. */
  lemma ScoresThroughOnly(keys: seq<int>, lines: map<int, WeekLine>, week: int)
    requires forall k :: k in keys ==> k in lines
    ensures forall i :: 0 <= i < |ScoresThrough(keys, lines, week)| ==>
      ScoreOfWeekThrough(keys, lines, week, ScoresThrough(keys, lines, week)[i])
  {
    forall i | 0 <= i < |ScoresThrough(keys, lines, week)|
      ensures ScoreOfWeekThrough(keys, lines, week, ScoresThrough(keys, lines, week)[i])
    {
      var k := ScoresThroughAt(keys, lines, week, i);
    }
  }

  /** The derived values of week `week`: the recorded weeks up to `week` in
      ascending week order give the cumulative list and counters, and the
      rating uses the regular record (a team never carries a combined record
      here, so the combined-record branch of the rating is never taken). */
  function RateThrough(lines: map<int, WeekLine>, week: int): RatedWeek
  {
    var keys := SortedKeys(lines.Keys);
    SortedKeysSpec(lines.Keys);
    var cs := ScoresThrough(keys, lines, week);
    var cw := WinsThrough(keys, lines, week);
    var cl := LossesThrough(keys, lines, week);
    RatedWeek(cs, cw, cl, PowerRating(cs, cw, cl, None, None))
  }

  /** Records week `week` for a team: stores its line, then derives the
      cumulative values and rating through `week`. */
  function RecordWeek(t: TeamPower, week: int, res: WeekResult): TeamPower
  {
    var lines := t.lines[week := WeekLine(res.score, Flag(res.win), Flag(res.loss))];
    t.(weeks := if week in t.lines then t.weeks else t.weeks + [week],
       lines := lines,
       rated := t.rated[week := RateThrough(lines, week)])
  }

  /** A recorded week's derived values hold its own score, count no more
      wins plus losses than scores, and rate the team on them. */
  ghost predicate RatedOk(line: WeekLine, r: RatedWeek)
  {
    line.win + line.loss <= 1 &&
    line.score in r.cumScores &&
    r.cumWins + r.cumLosses <= |r.cumScores| &&
    r.rating == PowerRating(r.cumScores, r.cumWins, r.cumLosses, None, None)
  }

  /** Every stored rating has at most one decimal. */
  lemma RatedOneDecimal(line: WeekLine, r: RatedWeek)
    requires RatedOk(line, r)
    ensures OneDecimal(r.rating)
  {
    var p := PowerRating(r.cumScores, r.cumWins, r.cumLosses, None, None);
    assert OneDecimal(p);
  }

  /** The invariant every team's data keeps: its weeks are listed once each
      and are exactly the recorded weeks, every recorded week is rated, and
      every week's values are as RatedOk says. */
  ghost predicate Consistent(t: TeamPower)
  {
    (forall i, j :: 0 <= i < j < |t.weeks| ==> t.weeks[i] != t.weeks[j]) &&
    (forall w :: w in t.weeks <==> w in t.lines) &&
    t.rated.Keys == t.lines.Keys &&
    forall w :: w in t.lines ==> RatedOk(t.lines[w], t.rated[w])
  }

  lemma EmptyTeamConsistent(name: string)
    ensures Consistent(EmptyTeam(name))
  {
  }

  /** Rating a recorded week in which no week is both a win and a loss gives
      values that satisfy RatedOk. */
  lemma RateThroughOk(lines: map<int, WeekLine>, week: int)
    requires week in lines
    requires forall w :: w in lines ==> lines[w].win + lines[w].loss <= 1
    ensures RatedOk(lines[week], RateThrough(lines, week))
  {
    var keys := SortedKeys(lines.Keys);
    SortedKeysSpec(lines.Keys);
    ThroughBound(keys, lines, week);
    ScoresThroughHas(keys, lines, week, week);
  }

  /** Recording a week lists it, stores the result's score and flags under
      it, and leaves every other week's line and values as they were. */
  lemma RecordWeekFrame(t: TeamPower, week: int, res: WeekResult)
    requires forall w :: w in t.weeks <==> w in t.lines
    ensures var r := RecordWeek(t, week, res);
      week in r.weeks && r.lines[week] == WeekLine(res.score, Flag(res.win), Flag(res.loss)) &&
      r.rated.Keys == t.rated.Keys + {week} && r.lines.Keys == t.lines.Keys + {week} &&
      (forall w :: w in t.weeks ==> w in r.weeks) &&
      (forall w :: w in t.lines && w != week ==> r.lines[w] == t.lines[w]) &&
      (forall w :: w in t.rated && w != week ==> r.rated[w] == t.rated[w])
  {
  }

  /** Recording a week in which the team did not both win and lose keeps the invariant. */
  lemma RecordWeekConsistent(t: TeamPower, week: int, res: WeekResult)
    requires Consistent(t)
    requires !(res.win && res.loss)
    ensures Consistent(RecordWeek(t, week, res))
  {
    var r := RecordWeek(t, week, res);
    RecordWeekFrame(t, week, res);
    assert forall w :: w in r.weeks <==> w in r.lines;
    forall w | w in r.lines ensures r.lines[w].win + r.lines[w].loss <= 1 {
      if w != week {
        assert RatedOk(t.lines[w], t.rated[w]);
      }
    }
    RateThroughOk(r.lines, week);
    forall w | w in r.lines ensures RatedOk(r.lines[w], r.rated[w]) {
      if w != week {
        assert RatedOk(t.lines[w], t.rated[w]);
      }
    }
    if week !in t.lines {
      AppendDistinct(t.weeks, week);
    }
  }

  /** Appending a new week keeps the week list free of repeats. */
  lemma AppendDistinct(weeks: seq<int>, week: int)
    requires forall i, j :: 0 <= i < j < |weeks| ==> weeks[i] != weeks[j]
    requires week !in weeks
    ensures var r := weeks + [week]; forall i, j :: 0 <= i < j < |r| ==> r[i] != r[j]
  {
    var r := weeks + [week];
    forall i, j | 0 <= i < j < |r| ensures r[i] != r[j] {
      if j == |weeks| {
        assert r[i] == weeks[i];
      } else {
        assert r[i] == weeks[i] && r[j] == weeks[j];
      }
    }
  }

  // ---------------------------------------------------------------- the season pass

  /** The teams tracked: one empty entry per roster whose owner is set and
      known to the user directory, named by its display name. */
  function InitTeams(rosters: seq<Roster>, users: map<string, User>): map<string, TeamPower>
  {
    if |rosters| == 0 then map[]
    else
      var teams := InitTeams(rosters[..|rosters| - 1], users);
      var uid := rosters[|rosters| - 1].ownerId;
      if uid != "" && uid in users then teams[uid := EmptyTeam(DisplayName(users, uid))] else teams
  }

  /** One week applied to every team: a week without matchup lines changes
      nothing; otherwise each team with a result this week records it and
      every other team stays as it was. */
  function ApplyWeek(teams: map<string, TeamPower>, wk: WeekMatchups, rosters: seq<Roster>): map<string, TeamPower>
  {
    if |wk.matchups| == 0 then teams
    else
      RecordAll(teams, wk.week, WeekResults(wk.matchups, rosters))
  }

  /** Each team with a result records it for week `week`; the others stay as they were. */
  function RecordAll(teams: map<string, TeamPower>, week: int, results: map<string, WeekResult>): map<string, TeamPower>
  {
    map u | u in teams :: Recorded(teams[u], week, results, u)
  }

  /** Team `u` after recording its result for week `week`, if it has one. */
  function Recorded(t: TeamPower, week: int, results: map<string, WeekResult>, u: string): TeamPower
  {
    if u in results then RecordWeek(t, week, results[u]) else t
  }

  /** The weeks applied in dictionary order. */
  function ProcessWeeks(teams: map<string, TeamPower>, weeks: seq<WeekMatchups>, rosters: seq<Roster>): map<string, TeamPower>
  {
    if |weeks| == 0 then teams
    else ApplyWeek(ProcessWeeks(teams, weeks[..|weeks| - 1], rosters), weeks[|weeks| - 1], rosters)
  }

  ghost predicate AllConsistent(teams: map<string, TeamPower>)
  {
    forall u :: u in teams ==> Consistent(teams[u])
  }

  /** Every tracked team starts empty and consistent, and exactly the owners
      that are set and known are tracked. */
  lemma {:induction false} InitTeamsSpec(rosters: seq<Roster>, users: map<string, User>)
    ensures AllConsistent(InitTeams(rosters, users))
    ensures forall u :: u in InitTeams(rosters, users) ==>
      u != "" && u in users && InitTeams(rosters, users)[u] == EmptyTeam(DisplayName(users, u))
  {
    if |rosters| > 0 {
      InitTeamsSpec(rosters[..|rosters| - 1], users);
      var uid := rosters[|rosters| - 1].ownerId;
      if uid != "" && uid in users {
        EmptyTeamConsistent(DisplayName(users, uid));
      }
    }
  }

  /** No week result is both a win and a loss. */
  lemma WeekResultsNoDouble(ms: seq<Matchup>, rosters: seq<Roster>, u: string)
    requires u in WeekResults(ms, rosters)
    ensures !(WeekResults(ms, rosters)[u].win && WeekResults(ms, rosters)[u].loss)
  {
    GroupResultsOnlyResolved(ms, GroupIds(ms), rosters, u);
  }

  /** A week keeps every team consistent and tracks the same teams. */
  lemma ApplyWeekConsistent(teams: map<string, TeamPower>, wk: WeekMatchups, rosters: seq<Roster>)
    requires AllConsistent(teams)
    ensures ApplyWeek(teams, wk, rosters).Keys == teams.Keys
    ensures AllConsistent(ApplyWeek(teams, wk, rosters))
  {
    if |wk.matchups| > 0 {
      var res := WeekResults(wk.matchups, rosters);
      var next := ApplyWeek(teams, wk, rosters);
      forall u | u in next ensures Consistent(next[u]) {
        if u in res {
          WeekResultsNoDouble(wk.matchups, rosters, u);
          RecordWeekConsistent(teams[u], wk.week, res[u]);
        }
      }
    }
  }

  /** The whole season keeps every team consistent and tracks the same teams. */
  lemma {:induction false} ProcessWeeksConsistent(teams: map<string, TeamPower>, weeks: seq<WeekMatchups>, rosters: seq<Roster>)
    requires AllConsistent(teams)
    ensures ProcessWeeks(teams, weeks, rosters).Keys == teams.Keys
    ensures AllConsistent(ProcessWeeks(teams, weeks, rosters))
  {
    if |weeks| > 0 {
      ProcessWeeksConsistent(teams, weeks[..|weeks| - 1], rosters);
      ApplyWeekConsistent(ProcessWeeks(teams, weeks[..|weeks| - 1], rosters), weeks[|weeks| - 1], rosters);
    }
  }

  // ---------------------------------------------------------------- summaries

  /** The ratings of the listed weeks that are rated, in list order: for a
      team's weeks, the values of its rating dictionary in insertion order. */
  function RatingsOf(weeks: seq<int>, rated: map<int, RatedWeek>): seq<real>
  {
    if |weeks| == 0 then []
    else
      var last := weeks[|weeks| - 1];
      RatingsOf(weeks[..|weeks| - 1], rated) + (if last in rated then [rated[last].rating] else [])
  }

  /** When every listed week is rated, the list has one rating per week, in order. */
  lemma {:induction false} RatingsOfSpec(weeks: seq<int>, rated: map<int, RatedWeek>)
    requires forall w :: w in weeks ==> w in rated
    ensures |RatingsOf(weeks, rated)| == |weeks|
    ensures forall i :: 0 <= i < |weeks| ==> weeks[i] in rated && RatingsOf(weeks, rated)[i] == rated[weeks[i]].rating
  {
    if |weeks| > 0 {
      var front, last := weeks[..|weeks| - 1], weeks[|weeks| - 1];
      assert weeks == front + [last];
      RatingsOfSpec(front, rated);
    }
  }

  /** Adds the summary to a team with at least one rating: the rating of its
      latest week, the rounded mean rating, the trend from its first to its
      last rating, its highest and lowest rating, and the number of ratings.
      (For a consistent team the two emptiness tests agree.) */
  function WithSummary(t: TeamPower): TeamPower
  {
    var all := RatingsOf(t.weeks, t.rated);
    if |t.rated.Keys| == 0 || |all| == 0 then t
    else
      SortedKeysSpec(t.rated.Keys);
      var keys := SortedKeys(t.rated.Keys);
      var latest := keys[|keys| - 1];
      var trend := if |all| >= 2 && all[|all| - 1] > all[0] then Improving else Declining;
      t.(summary := Some(Summary(t.rated[latest].rating, Round1(Mean(all)), trend,
                                 MaxOf(all), MinOf(all), |all|)))
  }

  /** A team without ratings gets no summary. */
  lemma SummaryWithoutRatings(t: TeamPower)
    requires Consistent(t) && |t.weeks| == 0
    ensures WithSummary(t) == t
  {
    assert forall w :: w !in t.rated;
    assert t.rated.Keys <= {};
  }

  /** The current rating is that of the latest recorded week, and the week
      count is the number of ratings. */
  lemma SummaryCurrent(t: TeamPower)
    requires Consistent(t) && |t.weeks| > 0
    ensures WithSummary(t).summary.Some?
    ensures var s := WithSummary(t).summary.value;
      s.totalWeeks == |t.weeks| &&
      exists w :: w in t.lines && s.current == t.rated[w].rating && forall w' :: w' in t.lines ==> w' <= w
  {
    var w := LatestWeek(t);
    assert |RatingsOf(t.weeks, t.rated)| == |t.weeks| by {
      RatingsOfSpec(t.weeks, t.rated);
    }
    SummaryShape(t);
  }

  /** The last of a team's sorted rated weeks is its latest recorded week. */
  lemma LatestWeek(t: TeamPower) returns (w: int)
    requires Consistent(t) && |t.weeks| > 0
    ensures |t.rated.Keys| != 0 && |SortedKeys(t.rated.Keys)| > 0
    ensures w == SortedKeys(t.rated.Keys)[|SortedKeys(t.rated.Keys)| - 1]
    ensures w in t.lines && forall w' :: w' in t.lines ==> w' <= w
  {
    var keys := SortedKeys(t.rated.Keys);
    assert t.weeks[0] in t.weeks;
    SortedKeysSpec(t.rated.Keys);
    w := keys[|keys| - 1];
    forall w' | w' in t.lines ensures w' <= w {
      var i :| 0 <= i < |keys| && keys[i] == w';
    }
  }

  /** With ratings present, the summary is set, its current rating is that
      of the last sorted rated week and its count is the number of ratings. */
  lemma SummaryShape(t: TeamPower)
    requires |t.rated.Keys| != 0 && |RatingsOf(t.weeks, t.rated)| != 0
    ensures WithSummary(t).summary.Some?
    ensures var keys := SortedKeys(t.rated.Keys);
      |keys| > 0 && keys[|keys| - 1] in t.rated &&
      WithSummary(t).summary.value.current == t.rated[keys[|keys| - 1]].rating &&
      WithSummary(t).summary.value.totalWeeks == |RatingsOf(t.weeks, t.rated)|
  {
    SortedKeysSpec(t.rated.Keys);
  }

  /** The highest and lowest ratings are attained and bound every rating,
      the current rating among them; the rounded average lies between them
      (every rating already has one decimal); and the trend improves exactly
      when there are two or more ratings and the last exceeds the first. */
  lemma SummaryRange(t: TeamPower)
    requires Consistent(t) && |t.weeks| > 0
    ensures WithSummary(t).summary.Some?
    ensures var s := WithSummary(t).summary.value;
      var all := RatingsOf(t.weeks, t.rated);
      s.highest in all && s.lowest in all &&
      (forall w :: w in t.lines ==> s.lowest <= t.rated[w].rating <= s.highest) &&
      s.lowest <= s.current <= s.highest &&
      s.lowest <= s.average <= s.highest &&
      (s.trend == Improving <==> |all| >= 2 && all[|all| - 1] > all[0])
  {
    assert t.weeks[0] in t.weeks;
    RatingsOfSpec(t.weeks, t.rated);
    SortedKeysSpec(t.rated.Keys);
    var keys := SortedKeys(t.rated.Keys);
    var latest := keys[|keys| - 1];
    var all := RatingsOf(t.weeks, t.rated);
    var s := WithSummary(t).summary.value;
    MinOfSpec(all);
    MaxOfSpec(all);
    forall w | w in t.lines ensures s.lowest <= t.rated[w].rating <= s.highest {
      var j :| 0 <= j < |t.weeks| && t.weeks[j] == w;
      assert all[j] == t.rated[w].rating;
    }
    assert latest in t.lines;
    forall i | 0 <= i < |all| ensures OneDecimal(all[i]) {
      var w := t.weeks[i];
      assert w in t.weeks;
      RatedOneDecimal(t.lines[w], t.rated[w]);
    }
    Round1MeanBetween(all);
  }

  // ---------------------------------------------------------------- the whole pass

  /** The complete result: the tracked teams after every week in dictionary
      order, each with its summary. */
  function WeeklyPowerRatings(weeks: seq<WeekMatchups>, rosters: seq<Roster>, users: map<string, User>): map<string, TeamPower>
  {
    var init := InitTeams(rosters, users);
    InitTeamsSpec(rosters, users);
    var teams := ProcessWeeks(init, weeks, rosters);
    map u | u in teams :: WithSummary(teams[u])
  }

  /** A team's data changes in a week only when the week has matchup lines
      and the team is a resolved owner of a two-line group with a truthy
      matchup id. */
  lemma ApplyWeekOnlyResolved(teams: map<string, TeamPower>, wk: WeekMatchups, rosters: seq<Roster>, u: string)
    requires u in teams && u in ApplyWeek(teams, wk, rosters)
    requires ApplyWeek(teams, wk, rosters)[u] != teams[u]
    ensures |wk.matchups| > 0
    ensures exists id :: id != 0 && id in GroupIds(wk.matchups) && ResolvedIn(wk.matchups, id, rosters, u)
  {
    var ms := wk.matchups;
    GroupResultsOnlyResolved(ms, GroupIds(ms), rosters, u);
    GroupIdsSpec(ms);
  }

  /** The result tracks exactly the owners that are set and known to the
      directory, each under its display name and consistent, with a summary
      exactly when it has at least one rating. */
  lemma WeeklyPowerRatingsSpec(weeks: seq<WeekMatchups>, rosters: seq<Roster>, users: map<string, User>, u: string)
    ensures var r := WeeklyPowerRatings(weeks, rosters, users);
      r.Keys == InitTeams(rosters, users).Keys &&
      (u in r ==>
        u != "" && u in users && r[u].name == DisplayName(users, u) &&
        Consistent(r[u]) && (r[u].summary.Some? <==> |r[u].weeks| > 0))
  {
    var init := InitTeams(rosters, users);
    InitTeamsSpec(rosters, users);
    var teams := ProcessWeeks(init, weeks, rosters);
    var r := WeeklyPowerRatings(weeks, rosters, users);
    assert r.Keys == init.Keys by {
      ProcessWeeksNames(init, weeks, rosters);
    }
    if u in r {
      assert Consistent(teams[u]) && teams[u].summary.None? && teams[u].name == DisplayName(users, u) by {
        ProcessWeeksConsistent(init, weeks, rosters);
        ProcessWeeksNames(init, weeks, rosters);
        assert init[u] == EmptyTeam(DisplayName(users, u));
      }
      assert r[u] == WithSummary(teams[u]);
      SummaryKeeps(teams[u]);
    }
  }

  /** Adding the summary keeps everything else, and a summary appears exactly
      when the team has a recorded week. */
  lemma SummaryKeeps(t: TeamPower)
    requires Consistent(t) && t.summary.None?
    ensures WithSummary(t).(summary := None) == t
    ensures WithSummary(t).name == t.name && Consistent(WithSummary(t))
    ensures WithSummary(t).summary.Some? <==> |t.weeks| > 0
  {
    var s := WithSummary(t);
    assert s.weeks == t.weeks && s.lines == t.lines && s.rated == t.rated;
    if |t.weeks| == 0 {
      SummaryWithoutRatings(t);
    } else {
      SummaryCurrent(t);
    }
  }

  /** The weeks never rename a team, and a team without any recorded week
      has no summary yet. */
  lemma {:induction false} ProcessWeeksNames(teams: map<string, TeamPower>, weeks: seq<WeekMatchups>, rosters: seq<Roster>)
    requires forall u :: u in teams ==> teams[u].summary.None?
    ensures ProcessWeeks(teams, weeks, rosters).Keys == teams.Keys
    ensures forall u :: u in teams ==>
      ProcessWeeks(teams, weeks, rosters)[u].name == teams[u].name &&
      ProcessWeeks(teams, weeks, rosters)[u].summary.None?
  {
    if |weeks| > 0 {
      ProcessWeeksNames(teams, weeks[..|weeks| - 1], rosters);
    }
  }

  // ---------------------------------------------------------------- the pass, step by step

  /** Scans the rosters for the owners of a pairing's two roster ids. */
  method ResolveOwners(rosters: seq<Roster>, id1: int, id2: int) returns (u1: string, u2: string)
    ensures (u1, u2) == ScanOwners(rosters, id1, id2)
  {
    u1, u2 := "", "";
    var i := 0;
    while i < |rosters|
      invariant 0 <= i <= |rosters|
      invariant (u1, u2) == ScanOwners(rosters[..i], id1, id2)
    {
      assert rosters[..i + 1][..i] == rosters[..i];
      if rosters[i].rosterId == id1 {
        u1 := rosters[i].ownerId;
      } else if rosters[i].rosterId == id2 {
        u2 := rosters[i].ownerId;
      }
      i := i + 1;
    }
    assert rosters[..|rosters|] == rosters;
  }

  /** Groups a week's lines by matchup id and records the result of every
      resolved pairing. */
  method ComputeWeekResults(ms: seq<Matchup>, rosters: seq<Roster>) returns (results: map<string, WeekResult>)
    ensures results == WeekResults(ms, rosters)
  {
    var ids, groups := GroupByMatchup(ms);
    assert forall j :: 0 <= j < |ids| ==> ids[j] in ids;
    results := map[];
    var k := 0;
    while k < |ids|
      invariant 0 <= k <= |ids|
      invariant results == GroupResults(ms, ids[..k], rosters)
      invariant forall j :: 0 <= j < |ids| ==> ids[j] in groups && groups[ids[j]] == GroupOf(ms, ids[j])
    {
      assert ids[..k + 1][..k] == ids[..k];
      var group := groups[ids[k]];
      ghost var before := results;
      if |group| == 2 {
        var u1, u2 := ResolveOwners(rosters, group[0].rosterId, group[1].rosterId);
        if u1 != "" && u2 != "" {
          var p1, p2 := group[0].points, group[1].points;
          results := results[u1 := WeekResult(p1, p1 > p2, p1 < p2)];
          results := results[u2 := WeekResult(p2, p2 > p1, p2 < p1)];
        }
      }
      assert results == PairStep(before, group, rosters);
      k := k + 1;
    }
    assert ids[..|ids|] == ids;
  }

  /** Records this week's result for every tracked team that has one. */
  method RecordResults(teams: map<string, TeamPower>, week: int, results: map<string, WeekResult>)
    returns (next: map<string, TeamPower>)
    ensures next == RecordAll(teams, week, results)
  {
    next := Dicts.UpdateEach(teams, (u, t) => Recorded(t, week, results, u));
  }

  /** Adds the summary of every team. */
  method AddSummaries(teams: map<string, TeamPower>) returns (next: map<string, TeamPower>)
    ensures next == map u | u in teams :: WithSummary(teams[u])
  {
    next := Dicts.UpdateEach(teams, (u, t) => WithSummary(t));
  }

  /** The roster loop: an empty team for every roster owner that is set
      and known to the directory. */
  method TrackTeams(rosters: seq<Roster>, users: map<string, User>) returns (teams: map<string, TeamPower>)
    ensures teams == InitTeams(rosters, users)
  {
    teams := map[];
    var i := 0;
    while i < |rosters|
      invariant 0 <= i <= |rosters|
      invariant teams == InitTeams(rosters[..i], users)
    {
      assert rosters[..i + 1][..i] == rosters[..i];
      var uid := rosters[i].ownerId;
      if uid != "" && uid in users {
        teams := teams[uid := EmptyTeam(DisplayName(users, uid))];
      }
      i := i + 1;
    }
    assert rosters[..|rosters|] == rosters;
  }

  /** The week loop: each week with matchups records its results. */
  method PlayWeeks(init: map<string, TeamPower>, weeks: seq<WeekMatchups>, rosters: seq<Roster>)
    returns (teams: map<string, TeamPower>)
    ensures teams == ProcessWeeks(init, weeks, rosters)
  {
    teams := init;
    var k := 0;
    while k < |weeks|
      invariant 0 <= k <= |weeks|
      invariant teams == ProcessWeeks(init, weeks[..k], rosters)
    {
      assert weeks[..k + 1][..k] == weeks[..k];
      var wk := weeks[k];
      if |wk.matchups| > 0 {
        var results := ComputeWeekResults(wk.matchups, rosters);
        teams := RecordResults(teams, wk.week, results);
      }
      k := k + 1;
    }
    assert weeks[..|weeks|] == weeks;
  }

  /** The week-by-week power-rating pass over the whole season. */
  method CalculateWeeklyPowerRatings(weeks: seq<WeekMatchups>, rosters: seq<Roster>, users: map<string, User>)
    returns (teams: map<string, TeamPower>)
    ensures teams == WeeklyPowerRatings(weeks, rosters, users)
  {
    var init := TrackTeams(rosters, users);
    teams := PlayWeeks(init, weeks, rosters);
    teams := AddSummaries(teams);
  }
}
