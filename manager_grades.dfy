/** Manager grades: each manager with power or roster data gets a grade per
    week from 1 to 14, a 0–10 blend of the week's power and roster scores
    with the manager's trade, waiver and lineup scores, plus a win–loss
    record and an overall grade, the mean of the weekly grades. */
module ManagerGrades {
  import opened Wrappers
  import opened Stats
  import opened Matchups
  import Dicts
  import PowerRankings
  import opened Trades

  // ---------------------------------------------------------------- sub-scores

  /** A trade's score: 5 plus a quarter of its combined impact, kept in [0, 10]. */
  function TradeScore(c: real): real
  {
    Clamp(0.0, 10.0, 5.0 + c / 4.0)
  }

  /** A pickup's score: 5 plus a third of its combined impact, kept in [0, 10]. */
  function WaiverScore(c: real): real
  {
    Clamp(0.0, 10.0, 5.0 + c / 3.0)
  }

  /** A week's lineup score: 5 plus a twentieth of the rating's distance
      from the league average, kept in [0, 10]. */
  function LineupScore(rating: real, average: real): real
  {
    Clamp(0.0, 10.0, 5.0 + (rating - average) / 20.0)
  }

  /** Each score is 5.0 for a neutral input, lies in [0, 10], and never
      falls as its input rises. */
  lemma SubScoreSpec(c: real, d: real, average: real)
    ensures TradeScore(0.0) == 5.0 && WaiverScore(0.0) == 5.0 && LineupScore(average, average) == 5.0
    ensures 0.0 <= TradeScore(c) <= 10.0 && 0.0 <= WaiverScore(c) <= 10.0 && 0.0 <= LineupScore(c, average) <= 10.0
    ensures c <= d ==> (TradeScore(c) <= TradeScore(d) && WaiverScore(c) <= WaiverScore(d) &&
                        LineupScore(c, average) <= LineupScore(d, average))
  {
  }

  /** A transaction record reduced to what grading reads: its manager and combined impact. */
  function TradeEntries(trades: seq<TradeRecord>): (es: seq<(string, real)>)
    ensures |es| == |trades| && forall i :: 0 <= i < |trades| ==> es[i] == (trades[i].managerId, trades[i].impact.combined)
  {
    seq(|trades|, i requires 0 <= i < |trades| => (trades[i].managerId, trades[i].impact.combined))
  }

  function WaiverEntries(waivers: seq<WaiverRecord>): (es: seq<(string, real)>)
    ensures |es| == |waivers| && forall i :: 0 <= i < |waivers| ==> es[i] == (waivers[i].managerId, waivers[i].combined)
  {
    seq(|waivers|, i requires 0 <= i < |waivers| => (waivers[i].managerId, waivers[i].combined))
  }

  /** The scores of one manager's entries, in entry order. */
  function ScoresOf(entries: seq<(string, real)>, manager: string, score: real -> real): seq<real>
  {
    if |entries| == 0 then []
    else
      var last := entries[|entries| - 1];
      ScoresOf(entries[..|entries| - 1], manager, score) + if last.0 == manager then [score(last.1)] else []
  }

  /** `sum(xs) / len(xs)`, or `d` for an empty list. */
  function AverageOr(xs: seq<real>, d: real): real
  {
    if |xs| > 0 then Mean(xs) else d
  }

  /** Every element in [0, 10]. */
  predicate InRange(xs: seq<real>)
  {
    forall i :: 0 <= i < |xs| ==> 0.0 <= xs[i] <= 10.0
  }

  /** Scores drawn from a score function with values in [0, 10] lie in [0, 10]. */
  lemma {:induction false} ScoresOfInRange(entries: seq<(string, real)>, manager: string, score: real -> real)
    requires forall c :: 0.0 <= score(c) <= 10.0
    ensures InRange(ScoresOf(entries, manager, score))
  {
    if |entries| > 0 {
      ScoresOfInRange(entries[..|entries| - 1], manager, score);
    }
  }

  /** An average of scores in [0, 10], or a default in [0, 10], lies in [0, 10]. */
  lemma AverageOrInRange(xs: seq<real>, d: real)
    requires InRange(xs) && 0.0 <= d <= 10.0
    ensures 0.0 <= AverageOr(xs, d) <= 10.0
  {
    if |xs| > 0 {
      MeanBounds(xs, 0.0, 10.0);
    }
  }

  // ---------------------------------------------------------------- the league's ratings

  /** A team's weekly power ratings in the order its weeks were recorded. */
  function RatingList(t: PowerRankings.TeamPower): seq<real>
  {
    PowerRankings.RatingsOf(t.weeks, t.rated)
  }

  /** Per team among `us`: the sum and the number of its weekly ratings. */
  function TotalsOf(power: map<string, PowerRankings.TeamPower>, us: set<string>): map<string, real>
  {
    map u | u in us && u in power :: Sum(RatingList(power[u]))
  }

  function CountsOf(power: map<string, PowerRankings.TeamPower>, us: set<string>): map<string, real>
  {
    map u | u in us && u in power :: |RatingList(power[u])| as real
  }

  /** The total and the number of all teams' weekly ratings. */
  ghost function LeagueTotal(power: map<string, PowerRankings.TeamPower>): real
  {
    SumValues(TotalsOf(power, power.Keys))
  }

  ghost function LeagueCount(power: map<string, PowerRankings.TeamPower>): real
  {
    SumValues(CountsOf(power, power.Keys))
  }

  /** The mean of all weekly ratings of the league, when there are any. */
  ghost function LeagueAverage(power: map<string, PowerRankings.TeamPower>): Option<real>
  {
    if LeagueCount(power) > 0.0 then Some(LeagueTotal(power) / LeagueCount(power)) else None
  }

  // ---------------------------------------------------------------- one week

  /** A manager's sub-scores: trade scores, pickup scores, and the lineup
      scores when a league average exists and the manager has power data. */
  datatype SubScores = SubScores(trades: seq<real>, waivers: seq<real>, lineups: Option<seq<real>>)

  /** Lineup scores for each of a team's ratings, in order. */
  function LineupList(ratings: seq<real>, average: real): (ls: seq<real>)
    ensures |ls| == |ratings| && forall i :: 0 <= i < |ratings| ==> ls[i] == LineupScore(ratings[i], average)
  {
    seq(|ratings|, i requires 0 <= i < |ratings| => LineupScore(ratings[i], average))
  }

  function SubScoresFor(trades: seq<(string, real)>, waivers: seq<(string, real)>,
                        power: map<string, PowerRankings.TeamPower>, average: Option<real>, m: string): SubScores
  {
    SubScores(ScoresOf(trades, m, TradeScore), ScoresOf(waivers, m, WaiverScore),
              if average.Some? && m in power then Some(LineupList(RatingList(power[m]), average.value)) else None)
  }

  /** All sub-scores lie in [0, 10]. */
  ghost predicate SubScoresOk(sc: SubScores)
  {
    InRange(sc.trades) && InRange(sc.waivers) && (sc.lineups.Some? ==> InRange(sc.lineups.value))
  }

  lemma SubScoresForOk(trades: seq<(string, real)>, waivers: seq<(string, real)>,
                       power: map<string, PowerRankings.TeamPower>, average: Option<real>, m: string)
    ensures SubScoresOk(SubScoresFor(trades, waivers, power, average, m))
  {
    ScoresOfInRange(trades, m, TradeScore);
    ScoresOfInRange(waivers, m, WaiverScore);
  }

  /** The lineup score for week w: the w-th entry of the manager's lineup
      list (by position, not by week number), else 5.0. */
  function LineupAt(sc: SubScores, w: int): real
  {
    if sc.lineups.Some? && 1 <= w <= |sc.lineups.value| then sc.lineups.value[w - 1] else 5.0
  }

  /** The week's power and roster scores; a value of 0 counts as 5. */
  function PowerScore(p: real): real
  {
    if p != 0.0 then Clamp(0.0, 10.0, (p - 80.0) / 20.0) else 5.0
  }

  function RosterScore(g: real): real
  {
    if g != 0.0 then Clamp(0.0, 10.0, (g - 20.0) / 5.0) else 5.0
  }

  /** 40% the mean of power and roster scores, 25% the trade score, 20% the
      waiver score and 15% the lineup score, before clamping. */
  function WeeklyGrade(p: real, g: real, sc: SubScores, w: int): real
  {
    var base := (PowerScore(p) + RosterScore(g)) / 2.0;
    base * 0.4 + AverageOr(sc.trades, 5.0) * 0.25 + AverageOr(sc.waivers, 5.0) * 0.20 + LineupAt(sc, w) * 0.15
  }

  /** The weekly grade already lies in [0, 10] (the clamp never changes it),
      and it never falls when the trade or waiver average rises. */
  lemma WeeklyGradeSpec(p: real, g: real, sc: SubScores, w: int)
    requires SubScoresOk(sc)
    ensures 0.0 <= WeeklyGrade(p, g, sc, w) <= 10.0
    ensures Clamp(0.0, 10.0, WeeklyGrade(p, g, sc, w)) == WeeklyGrade(p, g, sc, w)
  {
    AverageOrInRange(sc.trades, 5.0);
    AverageOrInRange(sc.waivers, 5.0);
    assert 0.0 <= LineupAt(sc, w) <= 10.0;
  }

  /** A better trade or waiver average never lowers the weekly grade. */
  lemma WeeklyGradeMonotone(p: real, g: real, sc1: SubScores, sc2: SubScores, w: int)
    requires sc1.lineups == sc2.lineups
    requires AverageOr(sc1.trades, 5.0) <= AverageOr(sc2.trades, 5.0)
    requires AverageOr(sc1.waivers, 5.0) <= AverageOr(sc2.waivers, 5.0)
    ensures WeeklyGrade(p, g, sc1, w) <= WeeklyGrade(p, g, sc2, w)
  {
  }

  /** A win–loss record. */
  datatype WinLoss = WinLoss(wins: int, losses: int)

  /** A manager's grade card. */
  datatype ManagerCard = ManagerCard(name: string, weeklyGrades: map<int, real>,
                                     trade: real, waiver: real, lineup: real, overall: real,
                                     record: WinLoss, combined: WinLoss)

  function InitCard(name: string): ManagerCard
  {
    ManagerCard(name, map[], 0.0, 0.0, 0.0, 0.0, WinLoss(0, 0), WinLoss(0, 0))
  }

  /** A manager's power rating and roster grade in week w, when recorded. */
  function PowerAt(power: map<string, PowerRankings.TeamPower>, m: string, w: int): Option<real>
  {
    if m in power && w in power[m].rated then Some(power[m].rated[w].rating) else None
  }

  function GradeAt(grades: map<string, Series>, m: string, w: int): Option<real>
  {
    if m in grades && w in grades[m] then Some(grades[m][w]) else None
  }

  /** Week w for manager m, given the week's median power rating: skipped
      without a power rating and a roster grade; otherwise the weekly grade
      is stored and the record updated, from the team's cumulative record
      when it has power data and by a win above 5.5 otherwise. */
  function WeekStep(card: ManagerCard, m: string, w: int, median: real,
                    power: map<string, PowerRankings.TeamPower>, grades: map<string, Series>, sc: SubScores): ManagerCard
  {
    var p, g := PowerAt(power, m, w), GradeAt(grades, m, w);
    if p.None? && g.None? then card
    else
      var pd, gd := p.GetOr(100.0), g.GetOr(25.0);
      var weekly := WeeklyGrade(pd, gd, sc, w);
      var graded := card.(weeklyGrades := card.weeklyGrades[w := Clamp(0.0, 10.0, weekly)]);
      if m in power then
        var t := power[m];
        var wins := if w in t.rated then t.rated[w].cumWins else 0;
        var losses := if w in t.rated then t.rated[w].cumLosses else 0;
        var combinedWins := wins + (if pd > median then w else 0);
        graded.(record := WinLoss(wins, losses), combined := WinLoss(combinedWins, w * 2 - combinedWins))
      else if weekly > 5.5 then
        graded.(record := card.record.(wins := card.record.wins + 1), combined := card.combined.(wins := card.combined.wins + 1))
      else
        graded.(record := card.record.(losses := card.record.losses + 1),
                combined := card.combined.(losses := card.combined.losses + 1))
  }

  // ---------------------------------------------------------------- the season

  /** A manager is graded when they have at least one power rating or at
      least one roster grade. */
  predicate HasData(power: map<string, PowerRankings.TeamPower>, grades: map<string, Series>, m: string)
  {
    (m in power && |power[m].rated| > 0) || (m in grades && |grades[m]| > 0)
  }

  /** `order` is the key list of the user lookup, as a dictionary gives it:
      every key exactly once. */
  ghost predicate KeyOrder(users: map<string, User>, order: seq<string>)
  {
    (forall m :: m in users <==> m in order) &&
    forall i, j :: 0 <= i < j < |order| ==> order[i] != order[j]
  }

  /** The graded managers in the order of the user lookup's keys, `order`. */
  function GradedOrder(order: seq<string>, users: map<string, User>,
                       power: map<string, PowerRankings.TeamPower>, grades: map<string, Series>): (ms: seq<string>)
    ensures forall m :: m in ms <==> m in order && m in users && HasData(power, grades, m)
  {
    if |order| == 0 then []
    else
      var m := order[|order| - 1];
      GradedOrder(order[..|order| - 1], users, power, grades) + if m in users && HasData(power, grades, m) then [m] else []
  }

  /** Listing each key once lists each graded manager once, so no manager's
      rating is counted twice in a week's median. */
  lemma {:induction false} GradedOrderDistinct(order: seq<string>, users: map<string, User>,
                                               power: map<string, PowerRankings.TeamPower>, grades: map<string, Series>)
    requires forall i, j :: 0 <= i < j < |order| ==> order[i] != order[j]
    ensures forall i, j :: 0 <= i < j < |GradedOrder(order, users, power, grades)| ==>
      GradedOrder(order, users, power, grades)[i] != GradedOrder(order, users, power, grades)[j]
    decreases |order|
  {
    if |order| > 0 {
      var front := order[..|order| - 1];
      var m := order[|order| - 1];
      GradedOrderDistinct(front, users, power, grades);
      var fs := GradedOrder(front, users, power, grades);
      var ms := GradedOrder(order, users, power, grades);
      assert m !in front by {
        forall i | 0 <= i < |front| ensures front[i] != m {
          assert front[i] == order[i];
        }
      }
      assert m !in fs;
      forall i, j | 0 <= i < j < |ms| ensures ms[i] != ms[j] {
        if j < |fs| {
          assert ms[i] == fs[i] && ms[j] == fs[j];
        } else {
          assert ms[j] == m && ms[i] == fs[i];
        }
      }
    }
  }

  /** The week's power ratings of the listed managers that have one, in list order. */
  function WeekScores(managers: seq<string>, power: map<string, PowerRankings.TeamPower>, w: int): seq<real>
  {
    if |managers| == 0 then []
    else
      var p := PowerAt(power, managers[|managers| - 1], w);
      WeekScores(managers[..|managers| - 1], power, w) + if p.Some? then [p.value] else []
  }

  /** The upper median of the week's power ratings, or 100 when nobody has one. */
  function WeekMedian(managers: seq<string>, power: map<string, PowerRankings.TeamPower>, w: int): real
  {
    var scores := WeekScores(managers, power, w);
    if |scores| > 0 then UpperMedian(scores) else 100.0
  }

  /** The card after weeks 1 to k. */
  function CardThrough(card: ManagerCard, m: string, k: int, managers: seq<string>,
                       power: map<string, PowerRankings.TeamPower>, grades: map<string, Series>, sc: SubScores): ManagerCard
    decreases k
  {
    if k <= 0 then card
    else WeekStep(CardThrough(card, m, k - 1, managers, power, grades, sc), m, k, WeekMedian(managers, power, k), power, grades, sc)
  }

  /** The stored weekly grades of weeks 1 to k, in week order. */
  function WeekValues(g: map<int, real>, k: int): seq<real>
    decreases k
  {
    if k <= 0 then [] else WeekValues(g, k - 1) + if k in g then [g[k]] else []
  }

  /** With at least one graded week: the overall grade is the mean of the
      weekly grades, and each sub-score list that is not empty replaces its
      performance figure by its mean. */
  function Finish(card: ManagerCard, sc: SubScores): ManagerCard
  {
    if |card.weeklyGrades| == 0 then card
    else
      card.(overall := Sum(WeekValues(card.weeklyGrades, LastWeek)) / |card.weeklyGrades| as real,
            trade := AverageOr(sc.trades, card.trade), waiver := AverageOr(sc.waivers, card.waiver),
            lineup := if sc.lineups.Some? then AverageOr(sc.lineups.value, card.lineup) else card.lineup)
  }

  /** Every graded manager's final card, for a season of weeks 1 to 14. */
  ghost function ManagerGradesOf(trades: seq<TradeRecord>, waivers: seq<WaiverRecord>,
                                 power: map<string, PowerRankings.TeamPower>, grades: map<string, Series>,
                                 users: map<string, User>, order: seq<string>): map<string, ManagerCard>
  {
    var managers := GradedOrder(order, users, power, grades);
    map m | m in managers ::
      var sc := SubScoresFor(TradeEntries(trades), WaiverEntries(waivers), power, LeagueAverage(power), m);
      Finish(CardThrough(InitCard(ManagerName(users, m)), m, LastWeek, managers, power, grades, sc), sc)
  }

  // ---------------------------------------------------------------- properties

  /** Week w counts for manager m when they have a power rating or a roster grade for it. */
  predicate Active(power: map<string, PowerRankings.TeamPower>, grades: map<string, Series>, m: string, w: int)
  {
    PowerAt(power, m, w).Some? || GradeAt(grades, m, w).Some?
  }

  /** The week's scores are exactly the listed managers' power ratings for it. */
  lemma {:induction false} WeekScoresSpec(managers: seq<string>, power: map<string, PowerRankings.TeamPower>, w: int)
    ensures forall x :: x in WeekScores(managers, power, w) <==> exists m :: m in managers && PowerAt(power, m, w) == Some(x)
  {
    if |managers| > 0 {
      var front, last := managers[..|managers| - 1], managers[|managers| - 1];
      assert managers == front + [last];
      WeekScoresSpec(front, power, w);
    }
  }

  /** The median is 100 when no listed manager has a rating that week, and
      otherwise one of their ratings. */
  lemma WeekMedianSpec(managers: seq<string>, power: map<string, PowerRankings.TeamPower>, w: int)
    ensures (forall m :: m in managers ==> PowerAt(power, m, w).None?) ==> WeekMedian(managers, power, w) == 100.0
    ensures (exists m :: m in managers && PowerAt(power, m, w).Some?) ==>
              exists m :: m in managers && PowerAt(power, m, w) == Some(WeekMedian(managers, power, w))
  {
    WeekScoresSpec(managers, power, w);
    var scores := WeekScores(managers, power, w);
    if exists m :: m in managers && PowerAt(power, m, w).Some? {
      var m :| m in managers && PowerAt(power, m, w).Some?;
      assert PowerAt(power, m, w).value in scores;
    } else if |scores| > 0 {
      assert scores[0] in scores;
    }
  }

  /** One week: the name and performance figures never change; an inactive
      week changes nothing; an active one stores a weekly grade in [0, 10]
      for that week only, the unclamped weighted blend. */
  lemma WeekStepSpec(card: ManagerCard, m: string, w: int, median: real,
                     power: map<string, PowerRankings.TeamPower>, grades: map<string, Series>, sc: SubScores)
    requires SubScoresOk(sc)
    ensures var c := WeekStep(card, m, w, median, power, grades, sc);
      && c.name == card.name
      && c.trade == card.trade && c.waiver == card.waiver && c.lineup == card.lineup && c.overall == card.overall
      && (!Active(power, grades, m, w) ==> c == card)
      && (Active(power, grades, m, w) ==>
            && c.weeklyGrades.Keys == card.weeklyGrades.Keys + {w}
            && (forall v :: v in card.weeklyGrades && v != w ==> c.weeklyGrades[v] == card.weeklyGrades[v])
            && 0.0 <= c.weeklyGrades[w] <= 10.0
            && c.weeklyGrades[w] == WeeklyGrade(PowerAt(power, m, w).GetOr(100.0), GradeAt(grades, m, w).GetOr(25.0), sc, w))
  {
    if Active(power, grades, m, w) {
      WeeklyGradeSpec(PowerAt(power, m, w).GetOr(100.0), GradeAt(grades, m, w).GetOr(25.0), sc, w);
    }
  }

  /** The records after an active week: with power data, the record is the
      team's cumulative record and the combined record has 2w games, w of
      them extra wins exactly when the rating beats the median; without it,
      one win is added when the grade is above 5.5 and one loss otherwise,
      to both records alike. */
  lemma WeekStepRecord(card: ManagerCard, m: string, w: int, median: real,
                       power: map<string, PowerRankings.TeamPower>, grades: map<string, Series>, sc: SubScores)
    requires Active(power, grades, m, w)
    ensures var c := WeekStep(card, m, w, median, power, grades, sc);
      var weekly := WeeklyGrade(PowerAt(power, m, w).GetOr(100.0), GradeAt(grades, m, w).GetOr(25.0), sc, w);
      && (m in power ==>
            && c.record.wins == (if w in power[m].rated then power[m].rated[w].cumWins else 0)
            && c.record.losses == (if w in power[m].rated then power[m].rated[w].cumLosses else 0)
            && c.combined.wins + c.combined.losses == 2 * w
            && c.combined.wins == c.record.wins + (if PowerAt(power, m, w).GetOr(100.0) > median then w else 0))
      && (m !in power ==>
            && c.record.wins + c.record.losses == card.record.wins + card.record.losses + 1
            && (c.record.wins == card.record.wins + 1 <==> weekly > 5.5)
            && c.combined.wins - card.combined.wins == c.record.wins - card.record.wins
            && c.combined.losses - card.combined.losses == c.record.losses - card.record.losses)
  {
  }

  /** The weeks of g from 1 to k. */
  function WeeksUpTo(g: map<int, real>, k: int): set<int>
  {
    set w | w in g && 1 <= w <= k
  }

  /** There is one value per week of g from 1 to k. */
  lemma {:induction false} WeekValuesCount(g: map<int, real>, k: int)
    ensures |WeekValues(g, k)| == |WeeksUpTo(g, k)|
    decreases k
  {
    if k > 0 {
      WeekValuesCount(g, k - 1);
      if k in g {
        assert WeeksUpTo(g, k) == WeeksUpTo(g, k - 1) + {k};
        assert k !in WeeksUpTo(g, k - 1);
      } else {
        assert WeeksUpTo(g, k) == WeeksUpTo(g, k - 1);
      }
    } else {
      assert WeeksUpTo(g, k) == {};
    }
  }

  /** Values of g in [0, 10] give week values in [0, 10]. */
  lemma {:induction false} WeekValuesInRange(g: map<int, real>, k: int)
    requires forall w :: w in g ==> 0.0 <= g[w] <= 10.0
    ensures InRange(WeekValues(g, k))
    decreases k
  {
    if k > 0 {
      WeekValuesInRange(g, k - 1);
    }
  }

  /** Every card after weeks 1 to k, from a fresh card: its weekly grades are
      those of the active weeks, each in [0, 10], and its performance figures
      are still 0. */
  lemma {:induction false} CardThroughGrades(name: string, m: string, k: int, managers: seq<string>,
                                            power: map<string, PowerRankings.TeamPower>, grades: map<string, Series>, sc: SubScores)
    requires 0 <= k && SubScoresOk(sc)
    ensures var c := CardThrough(InitCard(name), m, k, managers, power, grades, sc);
      && c.name == name
      && c.trade == 0.0 && c.waiver == 0.0 && c.lineup == 0.0 && c.overall == 0.0
      && (forall w :: w in c.weeklyGrades <==> 1 <= w <= k && Active(power, grades, m, w))
      && (forall w :: w in c.weeklyGrades ==> 0.0 <= c.weeklyGrades[w] <= 10.0)
    decreases k
  {
    if k > 0 {
      CardThroughGrades(name, m, k - 1, managers, power, grades, sc);
      var prev := CardThrough(InitCard(name), m, k - 1, managers, power, grades, sc);
      GradesStep(prev, m, k, WeekMedian(managers, power, k), power, grades, sc);
    }
  }

  /** A week adds week w to the graded weeks exactly when it is active,
      keeps every grade in [0, 10] and leaves the name and figures alone. */
  lemma GradesStep(card: ManagerCard, m: string, w: int, median: real,
                   power: map<string, PowerRankings.TeamPower>, grades: map<string, Series>, sc: SubScores)
    requires SubScoresOk(sc) && forall v :: v in card.weeklyGrades ==> 0.0 <= card.weeklyGrades[v] <= 10.0
    ensures var c := WeekStep(card, m, w, median, power, grades, sc);
      && c.name == card.name
      && c.trade == card.trade && c.waiver == card.waiver && c.lineup == card.lineup && c.overall == card.overall
      && (forall v :: v in c.weeklyGrades <==> v in card.weeklyGrades || (v == w && Active(power, grades, m, w)))
      && (forall v :: v in c.weeklyGrades ==> 0.0 <= c.weeklyGrades[v] <= 10.0)
  {
    WeekStepSpec(card, m, w, median, power, grades, sc);
  }

  /** Without power data a week keeps the combined record equal to the
      record and adds one result exactly when it adds a weekly grade. */
  lemma FallbackStep(card: ManagerCard, m: string, w: int, median: real,
                     power: map<string, PowerRankings.TeamPower>, grades: map<string, Series>, sc: SubScores)
    requires m !in power && card.combined == card.record && w !in card.weeklyGrades
    requires card.record.wins + card.record.losses == |card.weeklyGrades|
    ensures var c := WeekStep(card, m, w, median, power, grades, sc);
      c.combined == c.record && c.record.wins + c.record.losses == |c.weeklyGrades|
  {
  }

  /** Without power data, after weeks 1 to k the combined record is the
      record, with one result per graded week. */
  lemma {:induction false} CardThroughRecord(name: string, m: string, k: int, managers: seq<string>,
                                            power: map<string, PowerRankings.TeamPower>, grades: map<string, Series>, sc: SubScores)
    requires 0 <= k && m !in power
    ensures var c := CardThrough(InitCard(name), m, k, managers, power, grades, sc);
      && c.combined == c.record && c.record.wins + c.record.losses == |c.weeklyGrades|
      && forall w :: w in c.weeklyGrades ==> w <= k
    decreases k
  {
    if k > 0 {
      var prev := CardThrough(InitCard(name), m, k - 1, managers, power, grades, sc);
      CardThroughRecord(name, m, k - 1, managers, power, grades, sc);
      FallbackStep(prev, m, k, WeekMedian(managers, power, k), power, grades, sc);
    }
  }

  /** With power data, after an active week k the combined record has 2k games. */
  lemma CardThroughPowerRecord(name: string, m: string, k: int, managers: seq<string>,
                               power: map<string, PowerRankings.TeamPower>, grades: map<string, Series>, sc: SubScores)
    requires 1 <= k && m in power && Active(power, grades, m, k)
    ensures var c := CardThrough(InitCard(name), m, k, managers, power, grades, sc);
      c.combined.wins + c.combined.losses == 2 * k
  {
    var prev := CardThrough(InitCard(name), m, k - 1, managers, power, grades, sc);
    WeekStepRecord(prev, m, k, WeekMedian(managers, power, k), power, grades, sc);
  }

  /** With weekly grades in [0, 10] for weeks within 1..14 and sub-scores in
      [0, 10], every figure of the finished card lies in [0, 10] when the
      card's own figures did; a card without weekly grades is left as it is. */
  lemma FinishSpec(card: ManagerCard, sc: SubScores)
    requires forall w :: w in card.weeklyGrades ==> 1 <= w <= LastWeek && 0.0 <= card.weeklyGrades[w] <= 10.0
    requires SubScoresOk(sc)
    requires 0.0 <= card.trade <= 10.0 && 0.0 <= card.waiver <= 10.0 && 0.0 <= card.lineup <= 10.0 && 0.0 <= card.overall <= 10.0
    ensures var f := Finish(card, sc);
      && (|card.weeklyGrades| == 0 ==> f == card)
      && 0.0 <= f.overall <= 10.0
      && 0.0 <= f.trade <= 10.0 && 0.0 <= f.waiver <= 10.0 && 0.0 <= f.lineup <= 10.0
      && f.weeklyGrades == card.weeklyGrades && f.record == card.record && f.combined == card.combined
  {
    var g := card.weeklyGrades;
    if |g| > 0 {
      WeekValuesCount(g, LastWeek);
      WeekValuesInRange(g, LastWeek);
      assert WeeksUpTo(g, LastWeek) == g.Keys;
      var vals := WeekValues(g, LastWeek);
      assert Sum(vals) / |g| as real == Mean(vals);
      MeanBounds(vals, 0.0, 10.0);
      AverageOrInRange(sc.trades, card.trade);
      AverageOrInRange(sc.waivers, card.waiver);
      if sc.lineups.Some? {
        AverageOrInRange(sc.lineups.value, card.lineup);
      }
    }
  }

  /** The number of weeks graded. */
  const LastWeek: int := 14

  /** One graded manager's final card after weeks 1 to k, under their
      display name: its weekly grades are those of the active weeks 1..k, and
      every grade and performance figure lies in [0, 10]; without power data
      it has one win or loss per active week, in both records alike. */
  lemma CardSpec(sc: SubScores, users: map<string, User>, managers: seq<string>, m: string, k: int,
                 power: map<string, PowerRankings.TeamPower>, grades: map<string, Series>)
    requires m in users && SubScoresOk(sc) && 0 <= k <= LastWeek
    ensures var f := Finish(CardThrough(InitCard(ManagerName(users, m)), m, k, managers, power, grades, sc), sc);
      && f.name == ManagerName(users, m)
      && (forall w :: w in f.weeklyGrades <==> 1 <= w <= k && Active(power, grades, m, w))
      && (forall w :: w in f.weeklyGrades ==> 0.0 <= f.weeklyGrades[w] <= 10.0)
      && 0.0 <= f.overall <= 10.0
      && 0.0 <= f.trade <= 10.0 && 0.0 <= f.waiver <= 10.0 && 0.0 <= f.lineup <= 10.0
      && (m !in power ==> f.combined == f.record && f.record.wins + f.record.losses == |f.weeklyGrades|)
  {
    var name := ManagerName(users, m);
    var c := CardThrough(InitCard(name), m, k, managers, power, grades, sc);
    CardThroughGrades(name, m, k, managers, power, grades, sc);
    if m !in power {
      CardThroughRecord(name, m, k, managers, power, grades, sc);
    }
    FinishSpec(c, sc);
  }

  /** The result holds a card for exactly the users with power or roster
      data, and none for an empty user lookup; each card is as `CardSpec` states. */
  lemma ManagerGradesSpec(trades: seq<TradeRecord>, waivers: seq<WaiverRecord>,
                          power: map<string, PowerRankings.TeamPower>, grades: map<string, Series>,
                          users: map<string, User>, order: seq<string>)
    requires KeyOrder(users, order)
    ensures var r := ManagerGradesOf(trades, waivers, power, grades, users, order);
      && (forall m :: m in r <==> m in users && HasData(power, grades, m))
      && (|users| == 0 ==> r == map[])
      && forall m :: m in r ==>
           && r[m].name == ManagerName(users, m)
           && (forall w :: w in r[m].weeklyGrades <==> 1 <= w <= LastWeek && Active(power, grades, m, w))
           && (forall w :: w in r[m].weeklyGrades ==> 0.0 <= r[m].weeklyGrades[w] <= 10.0)
           && 0.0 <= r[m].overall <= 10.0
           && 0.0 <= r[m].trade <= 10.0 && 0.0 <= r[m].waiver <= 10.0 && 0.0 <= r[m].lineup <= 10.0
           && (m !in power ==> r[m].combined == r[m].record && r[m].record.wins + r[m].record.losses == |r[m].weeklyGrades|)
  {
    var r := ManagerGradesOf(trades, waivers, power, grades, users, order);
    var managers := GradedOrder(order, users, power, grades);
    forall m | m in r
      ensures r[m].name == ManagerName(users, m)
      ensures forall w :: w in r[m].weeklyGrades <==> 1 <= w <= LastWeek && Active(power, grades, m, w)
      ensures forall w :: w in r[m].weeklyGrades ==> 0.0 <= r[m].weeklyGrades[w] <= 10.0
      ensures 0.0 <= r[m].overall <= 10.0
      ensures 0.0 <= r[m].trade <= 10.0 && 0.0 <= r[m].waiver <= 10.0 && 0.0 <= r[m].lineup <= 10.0
      ensures m !in power ==> r[m].combined == r[m].record && r[m].record.wins + r[m].record.losses == |r[m].weeklyGrades|
    {
      var sc := SubScoresFor(TradeEntries(trades), WaiverEntries(waivers), power, LeagueAverage(power), m);
      SubScoresForOk(TradeEntries(trades), WaiverEntries(waivers), power, LeagueAverage(power), m);
      CardSpec(sc, users, managers, m, LastWeek, power, grades);
    }
  }

  /** The lineup score of week w is taken by position in the rating list:
      for a team whose ratings begin in week 2, week 2 reads the score of
      the week-3 rating. */
  lemma LineupAtShift(r2: real, r3: real, average: real)
    ensures var t := PowerRankings.TeamPower("T", [2, 3], map[], map[2 := PowerRankings.RatedWeek([], 0, 0, r2),
                                                                   3 := PowerRankings.RatedWeek([], 0, 0, r3)], None);
      var sc := SubScoresFor([], [], map["m" := t], Some(average), "m");
      LineupAt(sc, 2) == LineupScore(r3, average) && LineupAt(sc, 3) == 5.0
  {
    var rated := map[2 := PowerRankings.RatedWeek([], 0, 0, r2), 3 := PowerRankings.RatedWeek([], 0, 0, r3)];
    assert [2, 3][..1] == [2];
    assert [2][..0] == [];
    assert PowerRankings.RatingsOf([], rated) == [];
    assert PowerRankings.RatingsOf([2], rated) == [r2];
    assert PowerRankings.RatingsOf([2, 3], rated) == [r2, r3];
  }

  /** For a team rated in every week 1..n, in order, the position is the
      week: the lineup score of week w is that of the week-w rating. */
  lemma LineupAtContiguous(t: PowerRankings.TeamPower, average: real, w: int)
    requires forall i :: 0 <= i < |t.weeks| ==> t.weeks[i] == i + 1
    requires forall x :: 1 <= x <= |t.weeks| ==> x in t.rated
    requires 1 <= w <= |t.weeks|
    ensures LineupAt(SubScoresFor([], [], map["m" := t], Some(average), "m"), w) == LineupScore(t.rated[w].rating, average)
  {
    assert forall x :: x in t.weeks ==> x in t.rated by {
      forall x | x in t.weeks ensures x in t.rated {
        var i :| 0 <= i < |t.weeks| && t.weeks[i] == x;
      }
    }
    PowerRankings.RatingsOfSpec(t.weeks, t.rated);
    assert t.weeks[w - 1] == w;
  }

  // ---------------------------------------------------------------- the computation

  /** The score list stored for a manager, or none. */
  function ListOr(d: map<string, seq<real>>, m: string): seq<real>
  {
    if m in d then d[m] else []
  }

  /** A manager's sub-scores as read from the three score dictionaries. */
  function SubScoresIn(tradeScores: map<string, seq<real>>, waiverScores: map<string, seq<real>>,
                       lineups: map<string, seq<real>>, m: string): SubScores
  {
    SubScores(ListOr(tradeScores, m), ListOr(waiverScores, m), if m in lineups then Some(lineups[m]) else None)
  }

  /** A fresh card for every user with power or roster data, in key order. */
  method InitCards(users: map<string, User>, order: seq<string>,
                   power: map<string, PowerRankings.TeamPower>, grades: map<string, Series>)
    returns (cards: map<string, ManagerCard>, managers: seq<string>)
    ensures managers == GradedOrder(order, users, power, grades)
    ensures forall m :: m in cards <==> m in managers
    ensures forall m :: m in cards ==> m in users && cards[m] == InitCard(ManagerName(users, m))
  {
    cards, managers := map[], [];
    for i := 0 to |order|
      invariant managers == GradedOrder(order[..i], users, power, grades)
      invariant forall m :: m in cards <==> m in managers
      invariant forall m :: m in cards ==> m in users && cards[m] == InitCard(ManagerName(users, m))
    {
      assert order[..i + 1][..i] == order[..i];
      var m := order[i];
      if m in users && HasData(power, grades, m) {
        cards := cards[m := InitCard(ManagerName(users, m))];
        managers := managers + [m];
      }
    }
    assert order[..|order|] == order;
  }

  /** Each graded manager's scores, in entry order; entries of other
      managers are ignored. */
  method CollectScores(entries: seq<(string, real)>, graded: set<string>, score: real -> real)
    returns (scores: map<string, seq<real>>)
    ensures scores.Keys <= graded
    ensures forall m :: m in graded ==> ListOr(scores, m) == ScoresOf(entries, m, score)
  {
    scores := map[];
    for i := 0 to |entries|
      invariant scores.Keys <= graded
      invariant forall m :: m in graded ==> ListOr(scores, m) == ScoresOf(entries[..i], m, score)
    {
      assert entries[..i + 1][..i] == entries[..i];
      var (m, c) := entries[i];
      if m in graded {
        scores := scores[m := ListOr(scores, m) + [score(c)]];
      }
    }
    assert entries[..|entries|] == entries;
  }

  /** `all` holds the ratings of the teams in `done`: their sum and number. */
  ghost predicate Gathered(all: seq<real>, power: map<string, PowerRankings.TeamPower>, done: set<string>)
  {
    Sum(all) == SumValues(TotalsOf(power, done)) && |all| as real == SumValues(CountsOf(power, done))
  }

  /** No team's ratings: an empty list. */
  lemma GatheredNone(power: map<string, PowerRankings.TeamPower>)
    ensures Gathered([], power, {})
  {
    assert TotalsOf(power, {}) == map[];
    assert CountsOf(power, {}) == map[];
  }

  /** Adding a team's ratings keeps the list gathered. */
  lemma GatheredStep(all: seq<real>, power: map<string, PowerRankings.TeamPower>, done: set<string>, u: string)
    requires Gathered(all, power, done) && u in power && u !in done
    ensures Gathered(all + RatingList(power[u]), power, done + {u})
  {
    var ratings := RatingList(power[u]);
    assert TotalsOf(power, done + {u}) == TotalsOf(power, done)[u := Sum(ratings)];
    assert CountsOf(power, done + {u}) == CountsOf(power, done)[u := |ratings| as real];
    SumValuesInsert(TotalsOf(power, done), u, Sum(ratings));
    SumValuesInsert(CountsOf(power, done), u, |ratings| as real);
    SumAppend(all, ratings);
  }

  /** All teams' weekly ratings, gathered team by team. */
  method GatherRatings(power: map<string, PowerRankings.TeamPower>) returns (all: seq<real>)
    ensures Sum(all) == LeagueTotal(power) && |all| as real == LeagueCount(power)
  {
    all := [];
    var todo := power.Keys;
    ghost var done: set<string> := {};
    GatheredNone(power);
    while todo != {}
      invariant todo !! done && todo + done == power.Keys
      invariant Gathered(all, power, done)
      decreases |todo|
    {
      var u :| u in todo;
      GatheredStep(all, power, done, u);
      all := all + RatingList(power[u]);
      todo, done := todo - {u}, done + {u};
    }
    assert done == power.Keys;
  }

  /** The mean of all teams' weekly ratings, when there are any. */
  method LeagueAverageOf(power: map<string, PowerRankings.TeamPower>) returns (average: Option<real>)
    ensures average == LeagueAverage(power)
  {
    var all := GatherRatings(power);
    if |all| > 0 {
      average := Some(Sum(all) / |all| as real);
    } else {
      average := None;
    }
  }

  /** A lineup score for each of a team's weekly ratings, in order. */
  method LineupScoresOf(ratings: seq<real>, average: real) returns (scores: seq<real>)
    ensures scores == LineupList(ratings, average)
  {
    scores := [];
    for i := 0 to |ratings|
      invariant scores == LineupList(ratings[..i], average)
    {
      scores := scores + [LineupScore(ratings[i], average)];
    }
    assert ratings[..|ratings|] == ratings;
  }

  /** The lineup scores of every listed manager with power data. */
  method LineupsOf(managers: seq<string>, power: map<string, PowerRankings.TeamPower>, average: real)
    returns (lineups: map<string, seq<real>>)
    ensures forall m :: m in lineups <==> m in managers && m in power
    ensures forall m :: m in lineups ==> lineups[m] == LineupList(RatingList(power[m]), average)
  {
    lineups := map[];
    for i := 0 to |managers|
      invariant forall m :: m in lineups <==> m in managers[..i] && m in power
      invariant forall m :: m in lineups ==> lineups[m] == LineupList(RatingList(power[m]), average)
    {
      assert managers[..i + 1] == managers[..i] + [managers[i]];
      var m := managers[i];
      if m in power {
        var scores := LineupScoresOf(RatingList(power[m]), average);
        lineups := lineups[m := scores];
      }
    }
    assert managers[..|managers|] == managers;
  }

  /** The week's median power rating over the graded managers. */
  method WeekMedianOf(managers: seq<string>, power: map<string, PowerRankings.TeamPower>, w: int) returns (median: real)
    ensures median == WeekMedian(managers, power, w)
  {
    var scores: seq<real> := [];
    for i := 0 to |managers|
      invariant scores == WeekScores(managers[..i], power, w)
    {
      assert managers[..i + 1][..i] == managers[..i];
      var p := PowerAt(power, managers[i], w);
      if p.Some? {
        scores := scores + [p.value];
      }
    }
    assert managers[..|managers|] == managers;
    median := if |scores| > 0 then UpperMedian(scores) else 100.0;
  }

  /** The trade, waiver and lineup score dictionaries of the graded managers. */
  method SubScoresOf(trades: seq<TradeRecord>, waivers: seq<WaiverRecord>,
                     power: map<string, PowerRankings.TeamPower>, managers: seq<string>)
    returns (tradeScores: map<string, seq<real>>, waiverScores: map<string, seq<real>>, lineups: map<string, seq<real>>)
    ensures forall m :: m in managers ==>
      SubScoresIn(tradeScores, waiverScores, lineups, m) ==
      SubScoresFor(TradeEntries(trades), WaiverEntries(waivers), power, LeagueAverage(power), m)
  {
    var graded := set m | m in managers;
    tradeScores := CollectScores(TradeEntries(trades), graded, TradeScore);
    waiverScores := CollectScores(WaiverEntries(waivers), graded, WaiverScore);
    lineups := map[];
    if |power| > 0 {
      var average := LeagueAverageOf(power);
      if average.Some? {
        lineups := LineupsOf(managers, power, average.value);
      }
    } else {
      assert CountsOf(power, power.Keys) == map[];
    }
  }

  /** Every card is its manager's card after weeks 1 to k. */
  ghost predicate GradedThrough(cards: map<string, ManagerCard>, k: int, managers: seq<string>,
                                power: map<string, PowerRankings.TeamPower>, grades: map<string, Series>,
                                users: map<string, User>, tradeScores: map<string, seq<real>>,
                                waiverScores: map<string, seq<real>>, lineups: map<string, seq<real>>)
  {
    forall m :: m in cards ==>
      (m in users &&
       cards[m] == CardThrough(InitCard(ManagerName(users, m)), m, k, managers, power, grades,
                               SubScoresIn(tradeScores, waiverScores, lineups, m)))
  }

  /** Week w for every graded manager: the week's median over all of them
      first, then the week applied to each card. */
  method GradeWeek(cards: map<string, ManagerCard>, w: int, managers: seq<string>,
                   power: map<string, PowerRankings.TeamPower>, grades: map<string, Series>,
                   users: map<string, User>, tradeScores: map<string, seq<real>>,
                   waiverScores: map<string, seq<real>>, lineups: map<string, seq<real>>)
    returns (next: map<string, ManagerCard>)
    requires w >= 1 && GradedThrough(cards, w - 1, managers, power, grades, users, tradeScores, waiverScores, lineups)
    ensures next.Keys == cards.Keys
    ensures GradedThrough(next, w, managers, power, grades, users, tradeScores, waiverScores, lineups)
  {
    var median := WeekMedianOf(managers, power, w);
    next := Dicts.UpdateEach(cards, (m, c) => WeekStep(c, m, w, median, power, grades, SubScoresIn(tradeScores, waiverScores, lineups, m)));
  }

  /** Weeks 1 to `weeks` for every graded manager, in order. */
  method GradeWeeks(cards0: map<string, ManagerCard>, weeks: int, managers: seq<string>,
                    power: map<string, PowerRankings.TeamPower>, grades: map<string, Series>,
                    users: map<string, User>, tradeScores: map<string, seq<real>>,
                    waiverScores: map<string, seq<real>>, lineups: map<string, seq<real>>)
    returns (cards: map<string, ManagerCard>)
    requires weeks >= 0
    requires forall m :: m in cards0 ==> m in users && cards0[m] == InitCard(ManagerName(users, m))
    ensures cards.Keys == cards0.Keys
    ensures GradedThrough(cards, weeks, managers, power, grades, users, tradeScores, waiverScores, lineups)
  {
    cards := cards0;
    for w := 1 to weeks + 1
      invariant cards.Keys == cards0.Keys
      invariant GradedThrough(cards, w - 1, managers, power, grades, users, tradeScores, waiverScores, lineups)
    {
      cards := GradeWeek(cards, w, managers, power, grades, users, tradeScores, waiverScores, lineups);
    }
  }

  /** Grades every user with power or roster data: fresh cards in key order,
      then the trade, waiver and lineup scores, then each week from 1 to 14
      for every manager against that week's median rating, then the overall
      grade and performance figures. */
  method CalculateManagerGrades(trades: seq<TradeRecord>, waivers: seq<WaiverRecord>,
                                power: map<string, PowerRankings.TeamPower>, grades: map<string, Series>,
                                users: map<string, User>, order: seq<string>)
    returns (cards: map<string, ManagerCard>)
    requires KeyOrder(users, order)
    ensures cards == ManagerGradesOf(trades, waivers, power, grades, users, order)
  {
    if |users| == 0 {
      assert ManagerGradesOf(trades, waivers, power, grades, users, order).Keys == {};
      return map[];
    }
    var managers;
    cards, managers := InitCards(users, order, power, grades);
    var tradeScores, waiverScores, lineups := SubScoresOf(trades, waivers, power, managers);
    cards := GradeWeeks(cards, LastWeek, managers, power, grades, users, tradeScores, waiverScores, lineups);
    cards := Dicts.UpdateEach(cards, (m, c) => Finish(c, SubScoresIn(tradeScores, waiverScores, lineups, m)));
    ghost var spec := ManagerGradesOf(trades, waivers, power, grades, users, order);
    assert cards.Keys == spec.Keys;
    forall m | m in cards
      ensures cards[m] == spec[m]
    {
      var sc := SubScoresIn(tradeScores, waiverScores, lineups, m);
      assert sc == SubScoresFor(TradeEntries(trades), WaiverEntries(waivers), power, LeagueAverage(power), m);
    }
    SameMaps(cards, spec);
  }

  lemma SameMaps<K, V>(a: map<K, V>, b: map<K, V>)
    requires a.Keys == b.Keys && forall k :: k in a ==> a[k] == b[k]
    ensures a == b
  {
  }
}
