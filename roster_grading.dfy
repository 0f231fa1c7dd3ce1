/** Player and roster grading: a fixed table of rank ranges per position
    drives a 1–10 grade for every ranked player; the rankings are built from
    league-leader lists; a roster is graded player by player and summarised
    by a weighted overall grade; and a few small classifiers describe grades,
    managers and roster construction. */
module RosterGrading {
  import opened Wrappers
  import opened Stats

  // ---------------------------------------------------------------- the tier table

  /** The tier labels a graded player can carry; `OtherTier` is the label of
      kickers, defences and every other ungraded position. */
  datatype Tier = Elite | Solid | Flex | Streamer | Unranked | OtherTier

  /** The ranks lo, lo+1, ..., hi. */
  function Range(lo: int, hi: int): (r: seq<int>)
    ensures |r| == if hi < lo then 0 else hi - lo + 1
    ensures forall i :: 0 <= i < |r| ==> r[i] == lo + i
  {
    if hi < lo then [] else seq(hi - lo + 1, i => lo + i)
  }

  /** The shape of a position's three-tier table: elite ranks 1..e, solid
      ranks e+1..s, then ranks s+1..d in a last tier. */
  datatype Layout = Layout(last: Tier, e: int, s: int, d: int)

  /** The table a layout describes, tiers in the table's order. */
  function Table(l: Layout): seq<(Tier, seq<int>)>
  {
    [(Elite, Range(1, l.e)), (Solid, Range(l.e + 1, l.s)), (l.last, Range(l.s + 1, l.d))]
  }

  /** A position with a tier table. */
  predicate Known(position: string)
  {
    position == "QB" || position == "RB" || position == "WR" || position == "TE"
  }

  /** The layouts of the four tables: QB elite 1-4, solid 5-16, streamer
      17-30; RB elite 1-8, solid 9-30, flex 31-60; WR elite 1-10, solid
      11-36, flex 37-70; TE elite 1-4, solid 5-18, streamer 19-30. */
  function LayoutOf(position: string): Layout
    requires Known(position)
  {
    if position == "QB" then Layout(Streamer, 4, 16, 30)
    else if position == "RB" then Layout(Flex, 8, 30, 60)
    else if position == "WR" then Layout(Flex, 10, 36, 70)
    else Layout(Streamer, 4, 18, 30)
  }

  /** The tier table of a position, or None for a position the table does not know. */
  function PositionTiers(position: string): Option<seq<(Tier, seq<int>)>>
  {
    if Known(position) then Some(Table(LayoutOf(position))) else None
  }

  /** `tiers.get(name, [])`. */
  function TierRanks(tiers: seq<(Tier, seq<int>)>, t: Tier): seq<int>
  {
    if |tiers| == 0 then [] else if tiers[0].0 == t then tiers[0].1 else TierRanks(tiers[1..], t)
  }

  /** Python's `list.index`: the first position of `x`. */
  function IndexIn(s: seq<int>, x: int): nat
    requires x in s
  {
    if s[0] == x then 0 else 1 + IndexIn(s[1..], x)
  }

  /** `max(lists, key=len)`: the first of the longest lists ([] for none). */
  function Longest(lists: seq<seq<int>>): seq<int>
  {
    if |lists| == 0 then []
    else
      var rest := Longest(lists[1..]);
      if |rest| > |lists[0]| then rest else lists[0]
  }

  /** The largest rank of a list (0 for an empty list, which the table never has). */
  function MaxRank(s: seq<int>): int
  {
    if |s| == 0 then 0
    else if |s| == 1 then s[0]
    else
      var rest := MaxRank(s[1..]);
      if s[0] >= rest then s[0] else rest
  }

  /** The rank lists of a table, in order (`tiers.values()`). */
  function TierLists(tiers: seq<(Tier, seq<int>)>): seq<seq<int>>
  {
    if |tiers| == 0 then [] else [tiers[0].1] + TierLists(tiers[1..])
  }

  /** The grade at the top of a tier's band and the width of the band. */
  function Top(t: Tier): real
  {
    match t
    case Elite => 10.0
    case Solid => 8.9
    case Flex => 6.9
    case Streamer => 5.9
    case _ => 4.0
  }

  function Span(t: Tier): real
  {
    if t == Elite then 1.0 else 1.9
  }

  /** A rank's grade within its tier: the band's top, less the band's width
      scaled by the rank's position in the tier's list. */
  function TierGrade(ranks: seq<int>, rank: int, t: Tier): real
    requires rank in ranks
  {
    Top(t) - (IndexIn(ranks, rank) as real / |ranks| as real) * Span(t)
  }

  /** The grade of a rank in no tier: falling by 0.05 a rank below 4.0 from
      the deepest rank of the longest tier, never below 1.0; 1.0 past rank 100. */
  function DeepGrade(tiers: seq<(Tier, seq<int>)>, rank: int): real
  {
    if rank <= 100 then
      var g := 4.0 - (rank - MaxRank(Longest(TierLists(tiers)))) as real * 0.05;
      if g > 1.0 then g else 1.0
    else 1.0
  }

  /** The numerical grade of a rank at a position; 5.0 for a position
      without a tier table. The tiers are tried in the order elite, solid,
      flex, streamer. */
  function PositionGrade(position: string, rank: int): real
  {
    match PositionTiers(position)
    case None => 5.0
    case Some(tiers) => TableGrade(tiers, rank)
  }

  /** The grade of a rank under a tier table. */
  function TableGrade(tiers: seq<(Tier, seq<int>)>, rank: int): real
  {
    var e, s, f, st := TierRanks(tiers, Elite), TierRanks(tiers, Solid), TierRanks(tiers, Flex), TierRanks(tiers, Streamer);
    if rank in e then TierGrade(e, rank, Elite)
    else if rank in s then TierGrade(s, rank, Solid)
    else if rank in f then TierGrade(f, rank, Flex)
    else if rank in st then TierGrade(st, rank, Streamer)
    else DeepGrade(tiers, rank)
  }

  /** The tier holding a rank, scanning the table in order; `Unranked` when
      none does or the position has no table. */
  function TierName(position: string, rank: int): Tier
  {
    match PositionTiers(position)
    case None => Unranked
    case Some(tiers) => FirstTierWith(tiers, rank)
  }

  function FirstTierWith(tiers: seq<(Tier, seq<int>)>, rank: int): Tier
  {
    if |tiers| == 0 then Unranked
    else if rank in tiers[0].1 then tiers[0].0
    else FirstTierWith(tiers[1..], rank)
  }


  // ---------------------------------------------------------------- the table in closed form

  /** A range holds exactly the ranks from lo to hi, the rank lo + k at position k. */
  lemma {:induction false} RangeSpec(lo: int, hi: int, x: int)
    ensures x in Range(lo, hi) <==> lo <= x <= hi
    ensures lo <= x <= hi ==> IndexIn(Range(lo, hi), x) == x - lo
    decreases x - lo
  {
    if lo <= x <= hi {
      var r := Range(lo, hi);
      assert r[x - lo] == x;
      if x > lo {
        assert r[1..] == Range(lo + 1, hi);
        RangeSpec(lo + 1, hi, x);
      }
    }
  }

  /** The largest rank of a non-empty range is its last. */
  lemma {:induction false} MaxRankRange(lo: int, hi: int)
    requires lo <= hi
    ensures MaxRank(Range(lo, hi)) == hi
    decreases hi - lo
  {
    if lo < hi {
      assert Range(lo, hi)[1..] == Range(lo + 1, hi);
      MaxRankRange(lo + 1, hi);
    }
  }

  /** The layouts the four tables share: a last tier that is flex or
      streamer, and an elite tier shorter than the solid one. */
  predicate Shaped(l: Layout)
  {
    (l.last == Flex || l.last == Streamer) && 1 <= l.e && l.e < l.s - l.e && l.s < l.d
  }

  /** The deepest rank of the longest tier: the last tier's last rank, unless
      the solid tier is at least as long. */
  function Deepest(l: Layout): int
  {
    if l.d - l.s > l.s - l.e then l.d else l.s
  }

  /** `max(1.0, x)`. */
  function AtLeastOne(x: real): real
  {
    if x > 1.0 then x else 1.0
  }

  /** The grade at offset k of a tier band n ranks long. */
  function Band(t: Tier, k: int, n: int): real
    requires n > 0
  {
    Top(t) - (k as real / n as real) * Span(t)
  }

  /** The grade of a rank in no tier, counted from the deepest rank of the longest tier. */
  function Deep(rank: int, deepest: int): real
  {
    if rank <= 100 then AtLeastOne(4.0 - (rank - deepest) as real * 0.05) else 1.0
  }

  /** The tier of a rank, read off the layout. */
  function ClosedTier(l: Layout, rank: int): Tier
  {
    if 1 <= rank <= l.e then Elite
    else if l.e < rank <= l.s then Solid
    else if l.s < rank <= l.d then l.last
    else Unranked
  }

  /** The grade of a rank, read off the layout. */
  function ClosedGrade(l: Layout, rank: int): real
    requires Shaped(l)
  {
    if 1 <= rank <= l.e then Band(Elite, rank - 1, l.e)
    else if l.e < rank <= l.s then Band(Solid, rank - l.e - 1, l.s - l.e)
    else if l.s < rank <= l.d then Band(l.last, rank - l.s - 1, l.d - l.s)
    else Deep(rank, Deepest(l))
  }

  /** `tiers.get(name, [])` on a shaped table. */
  lemma TableRanks(l: Layout)
    requires Shaped(l)
    ensures TierRanks(Table(l), Elite) == Range(1, l.e)
    ensures TierRanks(Table(l), Solid) == Range(l.e + 1, l.s)
    ensures TierRanks(Table(l), l.last) == Range(l.s + 1, l.d)
    ensures l.last == Flex ==> TierRanks(Table(l), Streamer) == []
    ensures l.last == Streamer ==> TierRanks(Table(l), Flex) == []
  {
    var t := Table(l);
    var t1 := t[1..];
    var t2 := t1[1..];
    assert t1[0] == t[1] && t2[0] == t[2] && t2[1..] == [];
    assert TierRanks(t2, l.last) == Range(l.s + 1, l.d);
    assert TierRanks(t1, l.last) == TierRanks(t2, l.last);
    assert TierRanks(t1, Solid) == Range(l.e + 1, l.s);
    assert l.last == Flex ==> TierRanks(t2, Streamer) == [];
    assert l.last == Streamer ==> TierRanks(t2, Flex) == [];
  }

  /** Scanning a shaped table for a rank finds the tier the layout gives. */
  lemma TableTier(l: Layout, rank: int)
    requires Shaped(l)
    ensures FirstTierWith(Table(l), rank) == ClosedTier(l, rank)
  {
    var t := Table(l);
    var t1 := t[1..];
    var t2 := t1[1..];
    assert t2[1..] == [];
    RangeSpec(1, l.e, rank);
    RangeSpec(l.e + 1, l.s, rank);
    RangeSpec(l.s + 1, l.d, rank);
    assert FirstTierWith(t2, rank) == if rank in t[2].1 then t[2].0 else Unranked;
    assert FirstTierWith(t1, rank) == if rank in t[1].1 then t[1].0 else FirstTierWith(t2, rank);
  }

  /** The deepest rank of the longest list of a shaped table. */
  lemma TableDeepest(l: Layout)
    requires Shaped(l)
    ensures MaxRank(Longest(TierLists(Table(l)))) == Deepest(l)
  {
    var t := Table(l);
    var (l0, l1, l2) := (t[0].1, t[1].1, t[2].1);
    assert TierLists(t) == [l0, l1, l2] by {
      var t1 := t[1..];
      var t2 := t1[1..];
      assert t1[0] == t[1] && t2[0] == t[2] && t2[1..] == [];
      assert TierLists(t2) == [l2];
      assert TierLists(t1) == [l1, l2];
    }
    assert Longest([l2]) == l2 by {
      assert [l2][1..] == [];
    }
    assert Longest([l1, l2]) == if |l2| > |l1| then l2 else l1 by {
      assert [l1, l2][1..] == [l2];
    }
    assert Longest([l0, l1, l2]) == if |l2| > |l1| then l2 else l1 by {
      assert [l0, l1, l2][1..] == [l1, l2];
    }
    if l.d - l.s > l.s - l.e {
      MaxRankRange(l.s + 1, l.d);
    } else {
      MaxRankRange(l.e + 1, l.s);
    }
  }

  /** A rank's grade in a tier whose list is a range. */
  lemma TierGradeRange(lo: int, hi: int, rank: int, t: Tier)
    requires lo <= rank <= hi
    ensures rank in Range(lo, hi)
    ensures TierGrade(Range(lo, hi), rank, t) == Band(t, rank - lo, hi - lo + 1)
  {
    RangeSpec(lo, hi, rank);
  }

  /** Grading a rank under a shaped table is the layout's closed form. */
  lemma TableGradeClosed(l: Layout, rank: int)
    requires Shaped(l)
    ensures TableGrade(Table(l), rank) == ClosedGrade(l, rank)
  {
    TableRanks(l);
    RangeSpec(1, l.e, rank);
    RangeSpec(l.e + 1, l.s, rank);
    RangeSpec(l.s + 1, l.d, rank);
    if 1 <= rank <= l.e {
      TierGradeRange(1, l.e, rank, Elite);
    } else if l.e < rank <= l.s {
      TierGradeRange(l.e + 1, l.s, rank, Solid);
    } else if l.s < rank <= l.d {
      TierGradeRange(l.s + 1, l.d, rank, l.last);
    } else {
      TableDeepest(l);
    }
  }

  // ---------------------------------------------------------------- bands, bounds and order

  /** A graded tier (not `Unranked` or `OtherTier`). */
  predicate Graded(t: Tier)
  {
    t == Elite || t == Solid || t == Flex || t == Streamer
  }

  /** Inside its band a grade lies in (top - span, top], reaching the top
      only at the tier's first rank. */
  lemma BandSpec(t: Tier, k: int, n: int)
    requires Graded(t) && 0 <= k < n
    ensures Top(t) - Span(t) < Band(t, k, n) <= Top(t)
    ensures Band(t, k, n) == Top(t) <==> k == 0
  {
    var q := k as real / n as real;
    assert 0.0 <= q < 1.0 by {
      assert q * n as real == k as real;
    }
    assert k != 0 ==> q > 0.0;
  }

  /** Further down a band, the grade is strictly lower. */
  lemma BandStrict(t: Tier, k1: int, k2: int, n: int)
    requires Graded(t) && 0 <= k1 < k2 < n
    ensures Band(t, k2, n) < Band(t, k1, n)
  {
    var q1, q2 := k1 as real / n as real, k2 as real / n as real;
    assert q2 - q1 == (k2 - k1) as real / n as real;
    assert q1 < q2;
  }

  /** Under a shaped layout every rank from 1 on is graded inside its tier's
      band, and below 4.0 (but never below 1.0) past the last tier. */
  lemma ClosedBands(l: Layout, rank: int)
    requires Shaped(l) && rank >= 1
    ensures Graded(ClosedTier(l, rank)) || ClosedTier(l, rank) == Unranked
    ensures ClosedTier(l, rank) != Unranked ==>
      Top(ClosedTier(l, rank)) - Span(ClosedTier(l, rank)) < ClosedGrade(l, rank) <= Top(ClosedTier(l, rank))
    ensures ClosedTier(l, rank) != Unranked ==> (ClosedGrade(l, rank) == Top(ClosedTier(l, rank)) <==>
      rank == 1 || rank == l.e + 1 || rank == l.s + 1)
    ensures ClosedTier(l, rank) == Unranked ==> 1.0 <= ClosedGrade(l, rank) < 4.0
  {
    if rank <= l.e {
      BandSpec(Elite, rank - 1, l.e);
    } else if rank <= l.s {
      BandSpec(Solid, rank - l.e - 1, l.s - l.e);
    } else if rank <= l.d {
      BandSpec(l.last, rank - l.s - 1, l.d - l.s);
    }
  }

  /** A better (smaller) rank never grades lower, and strictly higher while
      the worse rank is still in a tier. */
  lemma ClosedMonotone(l: Layout, r1: int, r2: int)
    requires Shaped(l) && 1 <= r1 <= r2
    ensures ClosedGrade(l, r2) <= ClosedGrade(l, r1)
    ensures r1 < r2 && ClosedTier(l, r2) != Unranked ==> ClosedGrade(l, r2) < ClosedGrade(l, r1)
  {
    ClosedBands(l, r1);
    ClosedBands(l, r2);
    var t1, t2 := ClosedTier(l, r1), ClosedTier(l, r2);
    if t1 == t2 && t1 != Unranked && r1 < r2 {
      if t1 == Elite {
        BandStrict(Elite, r1 - 1, r2 - 1, l.e);
      } else if t1 == Solid {
        BandStrict(Solid, r1 - l.e - 1, r2 - l.e - 1, l.s - l.e);
      } else {
        BandStrict(l.last, r1 - l.s - 1, r2 - l.s - 1, l.d - l.s);
      }
    }
  }

  /** Grading at a position is the closed form of its layout; a position
      without a table grades 5.0 and is unranked. */
  lemma PositionGradeClosed(position: string, rank: int)
    ensures !Known(position) ==> PositionGrade(position, rank) == 5.0 && TierName(position, rank) == Unranked
    ensures Known(position) ==> (Shaped(LayoutOf(position)) &&
      TierName(position, rank) == ClosedTier(LayoutOf(position), rank) &&
      PositionGrade(position, rank) == ClosedGrade(LayoutOf(position), rank))
  {
    if Known(position) {
      TableTier(LayoutOf(position), rank);
      TableGradeClosed(LayoutOf(position), rank);
    }
  }

  /** Every grade from rank 1 on lies between 1.0 and 10.0: inside the band
      of the rank's tier, below 4.0 past the table, and 10.0 exactly at the
      top of the elite tier. */
  lemma PositionGradeBands(position: string, rank: int)
    requires rank >= 1
    ensures 1.0 <= PositionGrade(position, rank) <= 10.0
    ensures TierName(position, rank) != Unranked ==>
      Top(TierName(position, rank)) - Span(TierName(position, rank)) < PositionGrade(position, rank) <= Top(TierName(position, rank))
    ensures Known(position) && TierName(position, rank) == Unranked ==> PositionGrade(position, rank) < 4.0
    ensures Known(position) ==> (TierName(position, rank) != Unranked <==> rank <= LayoutOf(position).d)
    ensures PositionGrade(position, rank) == 10.0 <==> Known(position) && rank == 1
  {
    PositionGradeClosed(position, rank);
    if Known(position) {
      ClosedBands(LayoutOf(position), rank);
    }
  }

  /** At a known position a better rank never grades lower, and strictly
      higher while the worse rank is still in a tier. */
  lemma PositionGradeMonotone(position: string, r1: int, r2: int)
    requires 1 <= r1 <= r2
    ensures PositionGrade(position, r2) <= PositionGrade(position, r1)
    ensures Known(position) && r1 < r2 && TierName(position, r2) != Unranked ==>
      PositionGrade(position, r2) < PositionGrade(position, r1)
  {
    PositionGradeClosed(position, r1);
    PositionGradeClosed(position, r2);
    if Known(position) {
      ClosedMonotone(LayoutOf(position), r1, r2);
    }
  }

  // ---------------------------------------------------------------- describing grades and managers

  /** The tier word for a numerical grade: Elite from 9.0, Solid from 7.0,
      Flex from 5.0, Streamer below. */
  function GradeTier(grade: real): Tier
  {
    if grade >= 9.0 then Elite
    else if grade >= 7.0 then Solid
    else if grade >= 5.0 then Flex
    else Streamer
  }

  /** The word for a ranked player's grade agrees with the player's tier for
      the elite, solid and flex tiers, and is Streamer for a rank past the
      table; a streamer-tier grade reads Flex from 5.0 up. */
  lemma GradeTierOfRank(position: string, rank: int)
    requires Known(position) && rank >= 1
    ensures var t := TierName(position, rank);
      (t == Elite || t == Solid || t == Flex) ==> GradeTier(PositionGrade(position, rank)) == t
    ensures TierName(position, rank) == Unranked ==> GradeTier(PositionGrade(position, rank)) == Streamer
    ensures TierName(position, rank) == Streamer ==>
      GradeTier(PositionGrade(position, rank)) == (if PositionGrade(position, rank) >= 5.0 then Flex else Streamer)
  {
    PositionGradeBands(position, rank);
  }

  /** A manager's verdict: no games yet, or how the win rate compares with
      the rate the roster grade leads one to expect. */
  datatype Verdict = NoGames | Overachieving | Meeting | Underperforming | FarBelow

  /** The win rate a roster grade leads one to expect: 70% from 8.0, 60%
      from 6.5, 50% from 5.5, 40% from 4.5 and 30% below. */
  function ExpectedWinRate(rosterGrade: real): real
  {
    if rosterGrade >= 8.0 then 0.70
    else if rosterGrade >= 6.5 then 0.60
    else if rosterGrade >= 5.5 then 0.50
    else if rosterGrade >= 4.5 then 0.40
    else 0.30
  }

  /** The manager grade: with games played, the win rate over the expected
      rate gives A from 1.2, B from 1.0, C from 0.8 and D below. A missing
      roster grade counts as 5.0. */
  function ManagerGrade(wins: int, losses: int, rosterGrade: Option<real>): Verdict
  {
    var total := wins + losses;
    if total == 0 then NoGames
    else
      var rate := wins as real / total as real;
      var ratio := rate / ExpectedWinRate(rosterGrade.GetOr(5.0));
      if ratio >= 1.2 then Overachieving
      else if ratio >= 1.0 then Meeting
      else if ratio >= 0.8 then Underperforming
      else FarBelow
  }

  /** Verdicts from best to worst. */
  function VerdictRank(v: Verdict): nat
  {
    match v
    case Overachieving => 0
    case Meeting => 1
    case Underperforming => 2
    case FarBelow => 3
    case NoGames => 4
  }

  /** The expected rate lies in [0.3, 0.7] and never falls as the roster grade rises. */
  lemma ExpectedWinRateMonotone(g1: real, g2: real)
    requires g1 <= g2
    ensures 0.3 <= ExpectedWinRate(g1) <= ExpectedWinRate(g2) <= 0.7
  {
  }

  /** The verdict for a win rate against an expected rate. */
  function VerdictOf(ratio: real): Verdict
  {
    if ratio >= 1.2 then Overachieving else if ratio >= 1.0 then Meeting else if ratio >= 0.8 then Underperforming else FarBelow
  }

  /** A larger ratio never gets a worse verdict. */
  lemma VerdictOfMonotone(x: real, y: real)
    requires x <= y
    ensures VerdictRank(VerdictOf(y)) <= VerdictRank(VerdictOf(x))
  {
  }

  /** With the games played fixed, more wins never give a worse verdict. */
  lemma ManagerGradeMoreWins(w1: int, w2: int, games: int, rosterGrade: Option<real>)
    requires games > 0 && w1 <= w2
    ensures VerdictRank(ManagerGrade(w2, games - w2, rosterGrade)) <= VerdictRank(ManagerGrade(w1, games - w1, rosterGrade))
    ensures ManagerGrade(w1, games - w1, rosterGrade) != NoGames
  {
    var e := ExpectedWinRate(rosterGrade.GetOr(5.0));
    var r1, r2 := w1 as real / games as real, w2 as real / games as real;
    assert r1 <= r2 by {
      assert r2 - r1 == (w2 - w1) as real / games as real;
    }
    assert r1 / e <= r2 / e by {
      assert r2 / e - r1 / e == (r2 - r1) / e;
    }
    assert ManagerGrade(w1, games - w1, rosterGrade) == VerdictOf(r1 / e);
    assert ManagerGrade(w2, games - w2, rosterGrade) == VerdictOf(r2 / e);
    VerdictOfMonotone(r1 / e, r2 / e);
  }

  /** With the record fixed, a better roster grade never gives a better
      verdict: more is expected of it. */
  lemma ManagerGradeBetterRoster(wins: int, losses: int, g1: real, g2: real)
    requires wins >= 0 && losses >= 0 && wins + losses > 0 && g1 <= g2
    ensures VerdictRank(ManagerGrade(wins, losses, Some(g1))) <= VerdictRank(ManagerGrade(wins, losses, Some(g2)))
  {
    var e1, e2 := ExpectedWinRate(g1), ExpectedWinRate(g2);
    ExpectedWinRateMonotone(g1, g2);
    var rate := wins as real / (wins + losses) as real;
    assert rate >= 0.0;
    assert rate / e2 <= rate / e1 by {
      assert rate / e1 - rate / e2 == rate * (e2 - e1) / (e1 * e2);
    }
    assert ManagerGrade(wins, losses, Some(g1)) == VerdictOf(rate / e1);
    assert ManagerGrade(wins, losses, Some(g2)) == VerdictOf(rate / e2);
    VerdictOfMonotone(rate / e2, rate / e1);
  }

  /** An unbeaten manager always overachieves; a winless one is always far below. */
  lemma ManagerGradeExtremes(games: int, rosterGrade: Option<real>)
    requires games > 0
    ensures ManagerGrade(games, 0, rosterGrade) == Overachieving
    ensures ManagerGrade(0, games, rosterGrade) == FarBelow
  {
    var e := ExpectedWinRate(rosterGrade.GetOr(5.0));
    assert games as real / games as real == 1.0;
    assert 1.0 / e >= 1.2 by {
      assert 1.2 * e <= 0.84;
    }
  }
}
