/** The fantasy analyzer's player rankings: built from league-leader lists
    (passing yards rank quarterbacks, rushing yards running backs, receiving
    yards receivers and tight ends), stored per position under the player's
    lower-cased name, and read back to grade single players and whole rosters. */
module Analyzer {
  import opened Wrappers
  import opened Stats
  import opened RosterGrading

  // ---------------------------------------------------------------- leader data

  /** An athlete's details as fetched for a leader entry, with the fetch's
      defaults already applied (an empty name or id, an 'Unknown' team). */
  datatype Athlete = Athlete(id: string, name: string, position: string, team: string)

  /** One entry of a leader list: the fetched athlete (None when the fetch
      failed) and the stat's display text. */
  datatype Leader = Leader(athlete: Option<Athlete>, statValue: string)

  /** One leader category: its display name and its leaders, best first. */
  datatype Category = Category(name: string, leaders: seq<Leader>)

  /** A ranked player's stored entry. */
  datatype Ranked = Ranked(rank: int, grade: real, espnId: string, statValue: string, position: string, team: string)

  /** Position -> lower-cased player name -> entry. */
  type Rankings = map<string, map<string, Ranked>>

  /** ASCII lower-casing of one character. */
  function LowerChar(c: char): char
  {
    if 'A' <= c <= 'Z' then (c as int + 32) as char else c
  }

  /** `s.lower()`, character by character. */
  function Lower(s: string): (r: string)
    ensures |r| == |s|
    ensures forall i :: 0 <= i < |s| ==> r[i] == LowerChar(s[i])
  {
    seq(|s|, i requires 0 <= i < |s| => LowerChar(s[i]))
  }

  /** `sub in s`: sub occurs in s at some offset. */
  function Contains(s: string, sub: string): bool
  {
    |sub| <= |s| && (s[..|sub|] == sub || Contains(s[1..], sub))
  }

  /** `leaders[:80]`. */
  function First80(leaders: seq<Leader>): seq<Leader>
  {
    if |leaders| <= 80 then leaders else leaders[..80]
  }

  /** The entry stored for a leader ranked `rank` at `position`. */
  function Entry(a: Athlete, l: Leader, position: string, rank: int): Ranked
  {
    Ranked(rank, PositionGrade(position, rank), a.id, l.statValue, a.position, a.team)
  }

  /** `rankings[position][key] = e`; when the position has no table the
      lookup fails, the failure is caught, and nothing is stored. */
  function Store(r: Rankings, position: string, key: string, e: Ranked): Rankings
  {
    if position in r then r[position := r[position][key := e]] else r
  }

  // ---------------------------------------------------------------- building the rankings

  /** Ranking the leaders of one list for one target position: a leader
      whose details are missing, or whose position fails a non-empty filter,
      is passed over; each leader at the target position takes the next
      rank, and the scan stops at the first one past `maxCount`. */
  function PositionLeaders(r: Rankings, leaders: seq<Leader>, target: string, maxCount: int,
                           filter: seq<string>, rank: int): Rankings
    decreases |leaders|
  {
    if |leaders| == 0 then r
    else
      var rest := leaders[1..];
      match leaders[0].athlete
      case None => PositionLeaders(r, rest, target, maxCount, filter, rank)
      case Some(a) =>
        if |filter| > 0 && a.position !in filter then PositionLeaders(r, rest, target, maxCount, filter, rank)
        else if a.position != target then PositionLeaders(r, rest, target, maxCount, filter, rank)
        else if rank + 1 > maxCount then r
        else
          var e := Entry(a, leaders[0], target, rank + 1);
          PositionLeaders(Store(r, target, Lower(a.name), e), rest, target, maxCount, filter, rank + 1)
  }

  /** Ranking receivers: wide receivers and tight ends are counted
      separately; the first 48 of the one and the first 24 of the other are
      stored, and the scan runs to the end of the list. */
  function ReceivingLeaders(r: Rankings, leaders: seq<Leader>, wr: int, te: int): Rankings
    decreases |leaders|
  {
    if |leaders| == 0 then r
    else
      var rest := leaders[1..];
      match leaders[0].athlete
      case None => ReceivingLeaders(r, rest, wr, te)
      case Some(a) =>
        if a.position == "WR" then
          var r' := if wr + 1 <= 48 then Store(r, "WR", Lower(a.name), Entry(a, leaders[0], "WR", wr + 1)) else r;
          ReceivingLeaders(r', rest, wr + 1, te)
        else if a.position == "TE" then
          var r' := if te + 1 <= 24 then Store(r, "TE", Lower(a.name), Entry(a, leaders[0], "TE", te + 1)) else r;
          ReceivingLeaders(r', rest, wr, te + 1)
        else ReceivingLeaders(r, rest, wr, te)
  }

  /** What one category contributes, chosen by the words in its lower-cased name. */
  function CategoryStep(r: Rankings, c: Category): Rankings
  {
    var n := Lower(c.name);
    if Contains(n, "passing") && Contains(n, "yards") then
      PositionLeaders(r, First80(c.leaders), "QB", 30, [], 0)
    else if Contains(n, "rushing") && Contains(n, "yards") then
      PositionLeaders(r, First80(c.leaders), "RB", 60, ["RB", "FB"], 0)
    else if Contains(n, "receiving") && Contains(n, "yards") then
      ReceivingLeaders(r, First80(c.leaders), 0, 0)
    else r
  }

  /** The categories' contributions, in order. */
  function Categories(r: Rankings, cats: seq<Category>): Rankings
    decreases |cats|
  {
    if |cats| == 0 then r else Categories(CategoryStep(r, cats[0]), cats[1..])
  }

  /** The four graded positions' tables, emptied. */
  function Reset(r: Rankings): Rankings
  {
    r["QB" := map[]]["RB" := map[]]["WR" := map[]]["TE" := map[]]
  }

  /** Building from the leader data: nothing happens without data (None
      stands for missing or empty data); otherwise the four tables are
      emptied and every category is processed. */
  function Build(r: Rankings, nfl: Option<seq<Category>>): Rankings
  {
    match nfl
    case None => r
    case Some(cats) => Categories(Reset(r), cats)
  }

  // ---------------------------------------------------------------- what building keeps

  /** Every stored entry is ranked from 1 and carries its rank's grade. */
  ghost predicate RankingsValid(r: Rankings)
  {
    forall p, n :: p in r && n in r[p] ==> r[p][n].rank >= 1 && r[p][n].grade == PositionGrade(p, r[p][n].rank)
  }

  /** An entry stored for `p` by a ranking pass capped at `cap`. */
  predicate Fresh(e: Ranked, p: string, cap: int)
  {
    1 <= e.rank <= cap && e.grade == PositionGrade(p, e.rank) && e.position == p
  }

  /** `r2` is `r` with entries added or replaced only in the tables `caps`
      names, each new entry fresh under its table's cap; every other table
      is untouched and no position is added or removed. */
  ghost predicate Grows(r: Rankings, r2: Rankings, caps: map<string, int>)
  {
    r2.Keys == r.Keys &&
    (forall p :: p in r && p !in caps ==> r2[p] == r[p]) &&
    (forall p, n :: p in r2 && n in r2[p] ==>
      (p in r && n in r[p] && r2[p][n] == r[p][n]) || (p in caps && Fresh(r2[p][n], p, caps[p])))
  }

  lemma GrowsTrans(r1: Rankings, r2: Rankings, r3: Rankings, caps: map<string, int>)
    requires Grows(r1, r2, caps) && Grows(r2, r3, caps)
    ensures Grows(r1, r3, caps)
  {
  }

  /** Storing a fresh entry under a capped table grows the rankings. */
  lemma StoreGrows(r: Rankings, p: string, key: string, e: Ranked, caps: map<string, int>)
    requires p in caps && Fresh(e, p, caps[p])
    ensures Grows(r, Store(r, p, key, e), caps)
  {
  }

  /** Growing under smaller caps is growing under larger ones. */
  lemma GrowsWiden(r: Rankings, r2: Rankings, c1: map<string, int>, c2: map<string, int>)
    requires Grows(r, r2, c1)
    requires forall p :: p in c1 ==> p in c2 && c1[p] <= c2[p]
    ensures Grows(r, r2, c2)
  {
  }

  /** Growing keeps the rankings valid. */
  lemma GrowsValid(r: Rankings, r2: Rankings, caps: map<string, int>)
    requires RankingsValid(r) && Grows(r, r2, caps)
    ensures RankingsValid(r2)
  {
  }

  /** One position-leader pass only adds fresh entries to the target's table. */
  lemma {:induction false} PositionLeadersGrows(r: Rankings, leaders: seq<Leader>, target: string, maxCount: int,
                                                filter: seq<string>, rank: int)
    requires rank >= 0
    ensures Grows(r, PositionLeaders(r, leaders, target, maxCount, filter, rank), map[target := maxCount])
    decreases |leaders|
  {
    var caps := map[target := maxCount];
    var res := PositionLeaders(r, leaders, target, maxCount, filter, rank);
    if |leaders| > 0 {
      var rest := leaders[1..];
      match leaders[0].athlete
      case None =>
        assert res == PositionLeaders(r, rest, target, maxCount, filter, rank);
        PositionLeadersGrows(r, rest, target, maxCount, filter, rank);
      case Some(a) =>
        if (|filter| > 0 && a.position !in filter) || a.position != target {
          assert res == PositionLeaders(r, rest, target, maxCount, filter, rank);
          PositionLeadersGrows(r, rest, target, maxCount, filter, rank);
        } else if rank + 1 <= maxCount {
          var e := Entry(a, leaders[0], target, rank + 1);
          var r1 := Store(r, target, Lower(a.name), e);
          assert res == PositionLeaders(r1, rest, target, maxCount, filter, rank + 1);
          assert Fresh(e, target, caps[target]);
          StoreGrows(r, target, Lower(a.name), e, caps);
          PositionLeadersGrows(r1, rest, target, maxCount, filter, rank + 1);
          GrowsTrans(r, r1, res, caps);
        } else {
          assert res == r;
        }
    } else {
      assert res == r;
    }
  }

  /** The caps of the receiving pass. */
  function ReceivingCaps(): map<string, int>
  {
    map["WR" := 48, "TE" := 24]
  }

  /** The receiving pass only adds fresh entries to the WR and TE tables. */
  lemma {:induction false} ReceivingLeadersGrows(r: Rankings, leaders: seq<Leader>, wr: int, te: int)
    requires wr >= 0 && te >= 0
    ensures Grows(r, ReceivingLeaders(r, leaders, wr, te), ReceivingCaps())
    decreases |leaders|
  {
    var caps := ReceivingCaps();
    if |leaders| > 0 {
      var rest := leaders[1..];
      match leaders[0].athlete
      case None =>
        ReceivingLeadersGrows(r, rest, wr, te);
      case Some(a) =>
        if a.position == "WR" {
          var r1 := if wr + 1 <= 48 then Store(r, "WR", Lower(a.name), Entry(a, leaders[0], "WR", wr + 1)) else r;
          if wr + 1 <= 48 {
            StoreGrows(r, "WR", Lower(a.name), Entry(a, leaders[0], "WR", wr + 1), caps);
          }
          ReceivingLeadersGrows(r1, rest, wr + 1, te);
          GrowsTrans(r, r1, ReceivingLeaders(r1, rest, wr + 1, te), caps);
        } else if a.position == "TE" {
          var r1 := if te + 1 <= 24 then Store(r, "TE", Lower(a.name), Entry(a, leaders[0], "TE", te + 1)) else r;
          if te + 1 <= 24 {
            StoreGrows(r, "TE", Lower(a.name), Entry(a, leaders[0], "TE", te + 1), caps);
          }
          ReceivingLeadersGrows(r1, rest, wr, te + 1);
          GrowsTrans(r, r1, ReceivingLeaders(r1, rest, wr, te + 1), caps);
        } else {
          ReceivingLeadersGrows(r, rest, wr, te);
        }
    }
  }

  /** The caps of a whole build: 30 quarterbacks, 60 running backs, 48 wide
      receivers and 24 tight ends. */
  function BuildCaps(): map<string, int>
  {
    map["QB" := 30, "RB" := 60, "WR" := 48, "TE" := 24]
  }

  /** One category only adds fresh entries within the build caps. */
  lemma CategoryStepGrows(r: Rankings, c: Category)
    ensures Grows(r, CategoryStep(r, c), BuildCaps())
  {
    var n := Lower(c.name);
    var ls := First80(c.leaders);
    if Contains(n, "passing") && Contains(n, "yards") {
      PositionLeadersGrows(r, ls, "QB", 30, [], 0);
      GrowsWiden(r, CategoryStep(r, c), map["QB" := 30], BuildCaps());
    } else if Contains(n, "rushing") && Contains(n, "yards") {
      PositionLeadersGrows(r, ls, "RB", 60, ["RB", "FB"], 0);
      GrowsWiden(r, CategoryStep(r, c), map["RB" := 60], BuildCaps());
    } else if Contains(n, "receiving") && Contains(n, "yards") {
      ReceivingLeadersGrows(r, ls, 0, 0);
      GrowsWiden(r, CategoryStep(r, c), ReceivingCaps(), BuildCaps());
    }
  }

  lemma {:induction false} CategoriesGrows(r: Rankings, cats: seq<Category>)
    ensures Grows(r, Categories(r, cats), BuildCaps())
    decreases |cats|
  {
    if |cats| > 0 {
      var r1 := CategoryStep(r, cats[0]);
      CategoryStepGrows(r, cats[0]);
      CategoriesGrows(r1, cats[1..]);
      GrowsTrans(r, r1, Categories(r1, cats[1..]), BuildCaps());
    }
  }

  /** Building keeps the rankings valid; with leader data, the four graded
      positions have tables, and each of their entries is a fresh entry under
      the build caps, so its rank lies inside one of the position's tiers. */
  lemma BuildSpec(r: Rankings, nfl: Option<seq<Category>>)
    requires RankingsValid(r)
    ensures RankingsValid(Build(r, nfl))
    ensures nfl.Some? ==> "QB" in Build(r, nfl) && "RB" in Build(r, nfl) && "WR" in Build(r, nfl) && "TE" in Build(r, nfl)
    ensures nfl.Some? ==> forall p, n :: p in BuildCaps() && n in Build(r, nfl)[p] ==>
      Fresh(Build(r, nfl)[p][n], p, BuildCaps()[p]) && TierName(p, Build(r, nfl)[p][n].rank) != Unranked
  {
    if nfl.Some? {
      var r0 := Reset(r);
      CategoriesGrows(r0, nfl.value);
      assert RankingsValid(r0);
      GrowsValid(r0, Build(r, nfl), BuildCaps());
      BuiltTiered(r0, Build(r, nfl));
    }
  }

  /** Entries grown from empty graded tables under the build caps all lie in
      one of their position's tiers. */
  lemma BuiltTiered(r0: Rankings, r: Rankings)
    requires Grows(r0, r, BuildCaps())
    requires forall p :: p in BuildCaps() ==> p in r0 && r0[p] == map[]
    ensures forall p, n :: p in BuildCaps() && n in r[p] ==> Fresh(r[p][n], p, BuildCaps()[p]) && TierName(p, r[p][n].rank) != Unranked
  {
    forall p, n | p in BuildCaps() && n in r[p]
      ensures Fresh(r[p][n], p, BuildCaps()[p]) && TierName(p, r[p][n].rank) != Unranked
    {
      PositionGradeBands(p, r[p][n].rank);
    }
  }

  // ---------------------------------------------------------------- which ranks the builders give

  /** The leaders a position pass counts, in list order: those whose details
      were fetched, whose position passes a non-empty filter and is the
      target, each with its leader entry. */
  function Matching(leaders: seq<Leader>, target: string, filter: seq<string>): seq<(Athlete, Leader)>
    decreases |leaders|
  {
    if |leaders| == 0 then []
    else
      var rest := Matching(leaders[1..], target, filter);
      match leaders[0].athlete
      case None => rest
      case Some(a) =>
        if (|filter| > 0 && a.position !in filter) || a.position != target then rest
        else [(a, leaders[0])] + rest
  }

  /** The first n elements, none when n is not positive. */
  function Take<T>(xs: seq<T>, n: int): (ys: seq<T>)
    ensures |ys| == if n <= 0 then 0 else if n < |xs| then n else |xs|
    ensures forall i :: 0 <= i < |ys| ==> ys[i] == xs[i]
  {
    if n <= 0 then [] else if n < |xs| then xs[..n] else xs
  }

  /** The key a matched leader is stored under. */
  function Key(x: (Athlete, Leader)): string
  {
    Lower(x.0.name)
  }

  /** Stores the matched leaders of `xs` at position p, one after another,
      the i-th with rank k + i. */
  function StoreRanked(r: Rankings, p: string, xs: seq<(Athlete, Leader)>, k: int): Rankings
    decreases |xs|
  {
    if |xs| == 0 then r
    else StoreRanked(Store(r, p, Key(xs[0]), Entry(xs[0].0, xs[0].1, p, k)), p, xs[1..], k + 1)
  }

  /** No later element of xs is stored under the same key as xs[i]. */
  predicate LastWith(xs: seq<(Athlete, Leader)>, i: int)
    requires 0 <= i < |xs|
  {
    forall j :: i < j < |xs| ==> Key(xs[j]) != Key(xs[i])
  }

  /** Storing ranked leaders touches only table p, and nothing without one. */
  lemma {:induction false} StoreRankedFrame(r: Rankings, p: string, xs: seq<(Athlete, Leader)>, k: int)
    ensures p !in r ==> StoreRanked(r, p, xs, k) == r
    ensures StoreRanked(r, p, xs, k).Keys == r.Keys
    ensures forall q :: q in r && q != p ==> StoreRanked(r, p, xs, k)[q] == r[q]
    decreases |xs|
  {
    if |xs| > 0 {
      StoreRankedFrame(Store(r, p, Key(xs[0]), Entry(xs[0].0, xs[0].1, p, k)), p, xs[1..], k + 1);
    }
  }

  /** The keys of table p after storing are the old ones plus every
      leader's key. */
  lemma {:induction false} StoreRankedKeys(r: Rankings, p: string, xs: seq<(Athlete, Leader)>, k: int)
    requires p in r
    ensures p in StoreRanked(r, p, xs, k)
    ensures forall n :: n in StoreRanked(r, p, xs, k)[p] <==>
      n in r[p] || exists i :: 0 <= i < |xs| && Key(xs[i]) == n
    decreases |xs|
  {
    StoreRankedFrame(r, p, xs, k);
    if |xs| > 0 {
      var r1 := Store(r, p, Key(xs[0]), Entry(xs[0].0, xs[0].1, p, k));
      var tail := xs[1..];
      StoreRankedKeys(r1, p, tail, k + 1);
      var res := StoreRanked(r, p, xs, k);
      assert res == StoreRanked(r1, p, tail, k + 1);
      forall n ensures n in res[p] <==> n in r[p] || exists i :: 0 <= i < |xs| && Key(xs[i]) == n {
        if exists i :: 0 <= i < |tail| && Key(tail[i]) == n {
          var i :| 0 <= i < |tail| && Key(tail[i]) == n;
          assert Key(xs[i + 1]) == n;
        }
        if exists i :: 0 <= i < |xs| && Key(xs[i]) == n {
          var i :| 0 <= i < |xs| && Key(xs[i]) == n;
          if i > 0 {
            assert Key(tail[i - 1]) == n;
          }
        }
      }
    }
  }

  /** Dropping the head keeps a later leader the last with its key. */
  lemma LastWithTail(xs: seq<(Athlete, Leader)>, i: int)
    requires 0 < i < |xs| && LastWith(xs, i)
    ensures xs[1..][i - 1] == xs[i] && LastWith(xs[1..], i - 1)
  {
  }

  /** When the head is the last with its key, no later leader has it. */
  lemma LastWithHead(xs: seq<(Athlete, Leader)>)
    requires 0 < |xs| && LastWith(xs, 0)
    ensures forall j :: 0 <= j < |xs[1..]| ==> Key(xs[1..][j]) != Key(xs[0])
  {
    forall j | 0 <= j < |xs[1..]| ensures Key(xs[1..][j]) != Key(xs[0]) {
      assert xs[1..][j] == xs[j + 1];
    }
  }

  /** A leader no later leader shares a key with keeps the entry of rank
      rk, which is k + i (passed whole so that the recursive call keeps the
      same rank term). */
  lemma {:induction false} StoreRankedLast(r: Rankings, p: string, xs: seq<(Athlete, Leader)>, k: int, i: int, rk: int)
    requires p in r && 0 <= i < |xs| && LastWith(xs, i) && rk == k + i
    ensures p in StoreRanked(r, p, xs, k)
    ensures Key(xs[i]) in StoreRanked(r, p, xs, k)[p]
    ensures StoreRanked(r, p, xs, k)[p][Key(xs[i])] == Entry(xs[i].0, xs[i].1, p, rk)
    decreases |xs|
  {
    if i > 0 {
      var r1 := Store(r, p, Key(xs[0]), Entry(xs[0].0, xs[0].1, p, k));
      assert p in r1;
      assert StoreRanked(r, p, xs, k) == StoreRanked(r1, p, xs[1..], k + 1);
      LastWithTail(xs, i);
      StoreRankedLast(r1, p, xs[1..], k + 1, i - 1, rk);
    } else {
      StoreRankedLastHead(r, p, xs, k);
    }
  }

  /** The first leader, when no later one shares its key, keeps rank k. */
  lemma StoreRankedLastHead(r: Rankings, p: string, xs: seq<(Athlete, Leader)>, k: int)
    requires p in r && 0 < |xs| && LastWith(xs, 0)
    ensures p in StoreRanked(r, p, xs, k)
    ensures Key(xs[0]) in StoreRanked(r, p, xs, k)[p]
    ensures StoreRanked(r, p, xs, k)[p][Key(xs[0])] == Entry(xs[0].0, xs[0].1, p, k)
  {
    var r1 := Store(r, p, Key(xs[0]), Entry(xs[0].0, xs[0].1, p, k));
    assert StoreRanked(r, p, xs, k) == StoreRanked(r1, p, xs[1..], k + 1);
    LastWithHead(xs);
    assert r1[p][Key(xs[0])] == Entry(xs[0].0, xs[0].1, p, k);
    StoreRankedUntouched(r1, p, xs[1..], k + 1, Key(xs[0]));
  }

  /** A key no leader has keeps its entry. */
  lemma {:induction false} StoreRankedUntouched(r: Rankings, p: string, xs: seq<(Athlete, Leader)>, k: int, n: string)
    requires p in r && n in r[p]
    requires forall i :: 0 <= i < |xs| ==> Key(xs[i]) != n
    ensures p in StoreRanked(r, p, xs, k)
    ensures n in StoreRanked(r, p, xs, k)[p]
    ensures StoreRanked(r, p, xs, k)[p][n] == r[p][n]
    decreases |xs|
  {
    StoreRankedFrame(r, p, xs, k);
    if |xs| > 0 {
      var r1 := Store(r, p, Key(xs[0]), Entry(xs[0].0, xs[0].1, p, k));
      var tail := xs[1..];
      assert StoreRanked(r, p, xs, k) == StoreRanked(r1, p, tail, k + 1);
      assert Key(xs[0]) != n;
      forall i | 0 <= i < |tail| ensures Key(tail[i]) != n {
        assert tail[i] == xs[i + 1];
      }
      StoreRankedUntouched(r1, p, tail, k + 1, n);
    }
  }

  /** Storing ranked leaders touches only table p: its keys are the old ones
      plus every leader's key; a leader stored under a key no later leader
      shares keeps the entry of rank k + i; keys no leader has keep their
      entry. Without a table for p nothing changes. */
  lemma StoreRankedSpec(r: Rankings, p: string, xs: seq<(Athlete, Leader)>, k: int)
    ensures p !in r ==> StoreRanked(r, p, xs, k) == r
    ensures StoreRanked(r, p, xs, k).Keys == r.Keys
    ensures forall q :: q in r && q != p ==> StoreRanked(r, p, xs, k)[q] == r[q]
    ensures p in r ==> forall n :: n in StoreRanked(r, p, xs, k)[p] <==>
      n in r[p] || exists i :: 0 <= i < |xs| && Key(xs[i]) == n
    ensures p in r ==> forall i :: 0 <= i < |xs| && LastWith(xs, i) ==>
      StoreRanked(r, p, xs, k)[p][Key(xs[i])] == Entry(xs[i].0, xs[i].1, p, k + i)
    ensures p in r ==> forall n :: n in r[p] && (forall i :: 0 <= i < |xs| ==> Key(xs[i]) != n) ==>
      StoreRanked(r, p, xs, k)[p][n] == r[p][n]
  {
    StoreRankedFrame(r, p, xs, k);
    if p in r {
      StoreRankedKeys(r, p, xs, k);
      forall i | 0 <= i < |xs| && LastWith(xs, i)
        ensures StoreRanked(r, p, xs, k)[p][Key(xs[i])] == Entry(xs[i].0, xs[i].1, p, k + i)
      {
        StoreRankedLast(r, p, xs, k, i, k + i);
      }
      forall n | n in r[p] && (forall i :: 0 <= i < |xs| ==> Key(xs[i]) != n)
        ensures StoreRanked(r, p, xs, k)[p][n] == r[p][n]
      {
        StoreRankedUntouched(r, p, xs, k, n);
      }
    }
  }

  /** Taking n + 1 from a list with a head is the head and n of the rest. */
  lemma TakeCons<T>(x: T, xs: seq<T>, n: int)
    requires n >= 0
    ensures Take([x] + xs, n + 1) == [x] + Take(xs, n)
  {
  }

  /** A position pass stores, in list order, the leaders that count, the
      i-th of them (from 0) with rank rank + 1 + i, and only the first
      maxCount − rank of them: the ranks are consecutive from rank + 1 and
      only leaders at the target position that pass the filter use one up. */
  lemma {:induction false} PositionLeadersRanks(r: Rankings, leaders: seq<Leader>, target: string, maxCount: int,
                                                filter: seq<string>, rank: int)
    ensures PositionLeaders(r, leaders, target, maxCount, filter, rank) ==
      StoreRanked(r, target, Take(Matching(leaders, target, filter), maxCount - rank), rank + 1)
    decreases |leaders|
  {
    if |leaders| > 0 {
      var rest := leaders[1..];
      PositionLeadersRanks(r, rest, target, maxCount, filter, rank);
      match leaders[0].athlete
      case None =>
      case Some(a) =>
        if (|filter| > 0 && a.position !in filter) || a.position != target {
        } else if rank + 1 > maxCount {
        } else {
          var x := (a, leaders[0]);
          var r1 := Store(r, target, Key(x), Entry(a, leaders[0], target, rank + 1));
          PositionLeadersRanks(r1, rest, target, maxCount, filter, rank + 1);
          TakeCons(x, Matching(rest, target, filter), maxCount - rank - 1);
          assert Matching(leaders, target, filter) == [x] + Matching(rest, target, filter);
          var ys := Take(Matching(rest, target, filter), maxCount - rank - 1);
          assert ([x] + ys)[1..] == ys;
        }
    }
  }

  /** Storing at one position commutes with storing ranked leaders at another. */
  lemma {:induction false} StoreRankedOther(r: Rankings, p: string, xs: seq<(Athlete, Leader)>, k: int,
                                            q: string, key: string, e: Ranked)
    requires q != p
    ensures StoreRanked(Store(r, q, key, e), p, xs, k) == Store(StoreRanked(r, p, xs, k), q, key, e)
    decreases |xs|
  {
    if |xs| > 0 {
      var e0 := Entry(xs[0].0, xs[0].1, p, k);
      assert Store(Store(r, q, key, e), p, Key(xs[0]), e0) == Store(Store(r, p, Key(xs[0]), e0), q, key, e);
      StoreRankedOther(Store(r, p, Key(xs[0]), e0), p, xs[1..], k + 1, q, key, e);
    }
  }

  /** A leader of the target position heads the unfiltered matches. */
  lemma MatchingHit(leaders: seq<Leader>, a: Athlete, target: string)
    requires |leaders| > 0 && leaders[0].athlete == Some(a) && a.position == target
    ensures Matching(leaders, target, []) == [(a, leaders[0])] + Matching(leaders[1..], target, [])
  {
  }

  /** A leader of another position is not an unfiltered match. */
  lemma MatchingMiss(leaders: seq<Leader>, target: string)
    requires |leaders| > 0
    requires leaders[0].athlete.None? || leaders[0].athlete.value.position != target
    ensures Matching(leaders, target, []) == Matching(leaders[1..], target, [])
  {
  }

  /** Storing a capped prefix that starts with x stores x first, with the
      first rank, and the rest of the prefix after it; with no room left,
      nothing is stored either way. */
  lemma StoreRankedStep(r: Rankings, p: string, x: (Athlete, Leader), m: seq<(Athlete, Leader)>, n: int, k: int)
    ensures StoreRanked(r, p, Take([x] + m, n), k) ==
      if n >= 1 then StoreRanked(Store(r, p, Key(x), Entry(x.0, x.1, p, k)), p, Take(m, n - 1), k + 1)
      else StoreRanked(r, p, Take(m, n - 1), k + 1)
  {
    if n >= 1 {
      TakeCons(x, m, n - 1);
      var ys := Take(m, n - 1);
      assert ([x] + ys)[1..] == ys;
    }
  }

  /** Two capped passes over the same list, one after the other: the first
      cp − kp leaders of position p stored with ranks from kp + 1, then the
      first cq − kq of position q with ranks from kq + 1. */
  function TwoPasses(r: Rankings, leaders: seq<Leader>, p: string, cp: int, kp: int, q: string, cq: int, kq: int): Rankings
  {
    StoreRanked(StoreRanked(r, p, Take(Matching(leaders, p, []), cp - kp), kp + 1),
                q, Take(Matching(leaders, q, []), cq - kq), kq + 1)
  }

  /** A leader of the first position at the head: stored with rank kp + 1
      while under its cap, and the passes continue with the rest. */
  lemma TwoPassesFirst(r: Rankings, leaders: seq<Leader>, a: Athlete, p: string, cp: int, kp: int, q: string, cq: int, kq: int)
    requires p != q
    requires |leaders| > 0 && leaders[0].athlete == Some(a) && a.position == p
    ensures TwoPasses(r, leaders, p, cp, kp, q, cq, kq) ==
      TwoPasses(if kp + 1 <= cp then Store(r, p, Lower(a.name), Entry(a, leaders[0], p, kp + 1)) else r,
                leaders[1..], p, cp, kp + 1, q, cq, kq)
  {
    MatchingHit(leaders, a, p);
    MatchingMiss(leaders, q);
    StoreRankedStep(r, p, (a, leaders[0]), Matching(leaders[1..], p, []), cp - kp, kp + 1);
  }

  /** A leader of the second position at the head: stored with rank kq + 1
      while under its cap, and the passes continue with the rest. */
  lemma TwoPassesSecond(r: Rankings, leaders: seq<Leader>, a: Athlete, p: string, cp: int, kp: int, q: string, cq: int, kq: int)
    requires p != q
    requires |leaders| > 0 && leaders[0].athlete == Some(a) && a.position == q
    ensures TwoPasses(r, leaders, p, cp, kp, q, cq, kq) ==
      TwoPasses(if kq + 1 <= cq then Store(r, q, Lower(a.name), Entry(a, leaders[0], q, kq + 1)) else r,
                leaders[1..], p, cp, kp, q, cq, kq + 1)
  {
    var x := (a, leaders[0]);
    var ps := Take(Matching(leaders[1..], p, []), cp - kp);
    MatchingHit(leaders, a, q);
    MatchingMiss(leaders, p);
    StoreRankedStep(StoreRanked(r, p, ps, kp + 1), q, x, Matching(leaders[1..], q, []), cq - kq, kq + 1);
    if kq + 1 <= cq {
      StoreRankedOther(r, p, ps, kp + 1, q, Key(x), Entry(a, leaders[0], q, kq + 1));
    }
  }

  /** A leader of neither position at the head counts for neither pass. */
  lemma TwoPassesSkip(r: Rankings, leaders: seq<Leader>, p: string, cp: int, kp: int, q: string, cq: int, kq: int)
    requires |leaders| > 0
    requires leaders[0].athlete.None? || (leaders[0].athlete.value.position != p && leaders[0].athlete.value.position != q)
    ensures TwoPasses(r, leaders, p, cp, kp, q, cq, kq) == TwoPasses(r, leaders[1..], p, cp, kp, q, cq, kq)
  {
    MatchingMiss(leaders, p);
    MatchingMiss(leaders, q);
  }

  /** The reference receiving pass: the first 48 − wr receivers stored with
      ranks from wr + 1, then the first 24 − te tight ends with ranks from
      te + 1, each in list order. */
  function ReceivingRef(r: Rankings, leaders: seq<Leader>, wr: int, te: int): Rankings
  {
    TwoPasses(r, leaders, "WR", 48, wr, "TE", 24, te)
  }

  /** The receiving pass ranks wide receivers and tight ends on separate
      counters: it equals the reference pass, whatever the interleaving of
      the two positions in the list. */
  lemma {:induction false} ReceivingLeadersRanks(r: Rankings, leaders: seq<Leader>, wr: int, te: int)
    ensures ReceivingLeaders(r, leaders, wr, te) == ReceivingRef(r, leaders, wr, te)
    decreases |leaders|
  {
    if |leaders| > 0 {
      var rest := leaders[1..];
      match leaders[0].athlete
      case None =>
        ReceivingLeadersRanks(r, rest, wr, te);
        TwoPassesSkip(r, leaders, "WR", 48, wr, "TE", 24, te);
        assert ReceivingLeaders(r, leaders, wr, te) == ReceivingLeaders(r, rest, wr, te);
      case Some(a) =>
        if a.position == "WR" {
          var r1 := if wr + 1 <= 48 then Store(r, "WR", Lower(a.name), Entry(a, leaders[0], "WR", wr + 1)) else r;
          assert ReceivingLeaders(r, leaders, wr, te) == ReceivingLeaders(r1, rest, wr + 1, te);
          ReceivingLeadersRanks(r1, rest, wr + 1, te);
          TwoPassesFirst(r, leaders, a, "WR", 48, wr, "TE", 24, te);
          assert ReceivingRef(r, leaders, wr, te) == ReceivingRef(r1, rest, wr + 1, te);
        } else if a.position == "TE" {
          var r1 := if te + 1 <= 24 then Store(r, "TE", Lower(a.name), Entry(a, leaders[0], "TE", te + 1)) else r;
          assert ReceivingLeaders(r, leaders, wr, te) == ReceivingLeaders(r1, rest, wr, te + 1);
          ReceivingLeadersRanks(r1, rest, wr, te + 1);
          TwoPassesSecond(r, leaders, a, "WR", 48, wr, "TE", 24, te);
          assert ReceivingRef(r, leaders, wr, te) == ReceivingRef(r1, rest, wr, te + 1);
        } else {
          assert ReceivingLeaders(r, leaders, wr, te) == ReceivingLeaders(r, rest, wr, te);
          ReceivingLeadersRanks(r, rest, wr, te);
          TwoPassesSkip(r, leaders, "WR", 48, wr, "TE", 24, te);
        }
    } else {
      assert Matching(leaders, "WR", []) == [] && Matching(leaders, "TE", []) == [];
    }
  }

  /** Table p of r2 holds the leaders xs ranked 1, 2, 3, … on top of table
      p of r: its names are the old ones plus the leaders' names, and the
      i-th leader (from 0), when no later one shares its name, holds rank
      i + 1 with that rank's grade. */
  ghost predicate RanksFromOne(r: Rankings, r2: Rankings, p: string, xs: seq<(Athlete, Leader)>)
  {
    p in r && p in r2 &&
    (forall n :: n in r2[p] <==> n in r[p] || exists i :: 0 <= i < |xs| && Key(xs[i]) == n) &&
    (forall i :: 0 <= i < |xs| && LastWith(xs, i) ==> r2[p][Key(xs[i])] == Entry(xs[i].0, xs[i].1, p, 1 + i))
  }

  /** Storing leaders from rank 1 ranks them 1, 2, 3, …. */
  lemma StoreRankedFromOne(r: Rankings, p: string, xs: seq<(Athlete, Leader)>)
    requires p in r
    ensures RanksFromOne(r, StoreRanked(r, p, xs, 1), p, xs)
  {
    StoreRankedSpec(r, p, xs, 1);
  }

  /** The ranking of table p depends on table p alone. */
  lemma RanksFromOneSame(r: Rankings, r1: Rankings, r0: Rankings, r2: Rankings, p: string, xs: seq<(Athlete, Leader)>)
    requires RanksFromOne(r, r1, p, xs)
    requires p in r0 && r0[p] == r[p] && p in r2 && r2[p] == r1[p]
    ensures RanksFromOne(r0, r2, p, xs)
  {
  }

  /** A position pass from rank 0 ranks the leaders it counts 1, 2, 3, …
      in list order, up to the cap: the target's table gains exactly the
      names of the first maxCount matching leaders, and the i-th of them
      (from 0), when no later one of them shares its name, holds rank i + 1
      with that rank's grade. */
  lemma PositionLeadersConsecutive(r: Rankings, leaders: seq<Leader>, target: string, maxCount: int, filter: seq<string>)
    requires target in r
    ensures RanksFromOne(r, PositionLeaders(r, leaders, target, maxCount, filter, 0), target,
                         Take(Matching(leaders, target, filter), maxCount))
  {
    var xs := Take(Matching(leaders, target, filter), maxCount);
    PositionLeadersRanks(r, leaders, target, maxCount, filter, 0);
    assert PositionLeaders(r, leaders, target, maxCount, filter, 0) == StoreRanked(r, target, xs, 1);
    StoreRankedFromOne(r, target, xs);
  }

  /** The receiving pass ranks receivers and tight ends on their own
      counters, each 1, 2, 3, … in list order: the WR table gains exactly
      the names of the first 48 receivers and the TE table those of the
      first 24 tight ends, and the i-th of either (from 0), when no later one
      of its kind shares its name, holds rank i + 1. */
  lemma ReceivingLeadersConsecutive(r: Rankings, leaders: seq<Leader>)
    requires "WR" in r && "TE" in r
    ensures RanksFromOne(r, ReceivingLeaders(r, leaders, 0, 0), "WR", Take(Matching(leaders, "WR", []), 48))
    ensures RanksFromOne(r, ReceivingLeaders(r, leaders, 0, 0), "TE", Take(Matching(leaders, "TE", []), 24))
  {
    var ws := Take(Matching(leaders, "WR", []), 48);
    var ts := Take(Matching(leaders, "TE", []), 24);
    var r1 := StoreRanked(r, "WR", ws, 1);
    var r2 := StoreRanked(r1, "TE", ts, 1);
    ReceivingLeadersRanks(r, leaders, 0, 0);
    assert ReceivingLeaders(r, leaders, 0, 0) == r2;
    StoreRankedFrame(r, "WR", ws, 1);
    StoreRankedFrame(r1, "TE", ts, 1);
    StoreRankedFromOne(r, "WR", ws);
    StoreRankedFromOne(r1, "TE", ts);
    RanksFromOneSame(r, r1, r, r2, "WR", ws);
    RanksFromOneSame(r1, r2, r, r2, "TE", ts);
  }

  // ---------------------------------------------------------------- grading players

  /** A player's grade card. */
  datatype PlayerGrade = PlayerGrade(name: string, position: string, rank: Option<int>, grade: real, tier: Tier,
                                     espnId: Option<string>, statValue: Option<string>, team: string)

  /** Grading one player at one position: 5.0 and unranked when the
      position has no table, 3.0 and unranked when the lower-cased name is
      not in it, and otherwise the stored rank and grade with the rank's tier. */
  function GradePlayer(r: Rankings, name: string, position: string): PlayerGrade
  {
    if position !in r then PlayerGrade(name, position, None, 5.0, Unranked, None, None, "Unknown")
    else
      var key := Lower(name);
      if key in r[position] then
        var e := r[position][key];
        PlayerGrade(name, position, Some(e.rank), e.grade, TierName(position, e.rank), Some(e.espnId), Some(e.statValue), e.team)
      else PlayerGrade(name, position, None, 3.0, Unranked, None, None, "Unknown")
  }

  /** Tier names are never `OtherTier`. */
  lemma TierNameNotOther(position: string, rank: int)
    ensures TierName(position, rank) != OtherTier
  {
    PositionGradeClosed(position, rank);
  }

  /** With valid rankings a card is ranked exactly when the lower-cased name
      is in the position's table, a ranked card carries the grade and tier
      of its rank, every grade lies in [1, 10], and a card in a tier is
      graded inside that tier's band. */
  lemma GradePlayerSpec(r: Rankings, name: string, position: string)
    requires RankingsValid(r)
    ensures GradePlayer(r, name, position).name == name && GradePlayer(r, name, position).position == position
    ensures GradePlayer(r, name, position).rank.Some? <==> position in r && Lower(name) in r[position]
    ensures GradePlayer(r, name, position).rank.Some? ==>
      GradePlayer(r, name, position).grade == PositionGrade(position, GradePlayer(r, name, position).rank.value) &&
      GradePlayer(r, name, position).tier == TierName(position, GradePlayer(r, name, position).rank.value)
    ensures 1.0 <= GradePlayer(r, name, position).grade <= 10.0
    ensures GradePlayer(r, name, position).tier != OtherTier
    ensures GradePlayer(r, name, position).tier != Unranked ==>
      Top(GradePlayer(r, name, position).tier) - Span(GradePlayer(r, name, position).tier) < GradePlayer(r, name, position).grade <=
      Top(GradePlayer(r, name, position).tier)
  {
    if position in r && Lower(name) in r[position] {
      var e := r[position][Lower(name)];
      PositionGradeBands(position, e.rank);
      TierNameNotOther(position, e.rank);
    }
  }

  /** Lower-casing twice is lower-casing once. */
  lemma LowerIdempotent(s: string)
    ensures Lower(Lower(s)) == Lower(s)
  {
    assert forall i :: 0 <= i < |s| ==> Lower(Lower(s))[i] == Lower(s)[i];
  }

  /** Lookups ignore case: grading a name and its lower-cased form give the
      same card apart from the name. */
  lemma GradePlayerIgnoresCase(r: Rankings, name: string, position: string)
    ensures GradePlayer(r, Lower(name), position) == GradePlayer(r, name, position).(name := Lower(name))
  {
    LowerIdempotent(name);
  }

  // ---------------------------------------------------------------- grading rosters

  /** The grading slots a roster's players fall into. */
  datatype Slot = QB | RB | WR | TE | Other

  /** A roster entry: a player's name and fantasy position. */
  datatype Player = Player(name: string, position: string)

  /** QB, RB or FB, WR and TE are graded; every other position is `Other`. */
  function SlotOf(position: string): Slot
  {
    if position == "QB" then QB
    else if position == "RB" || position == "FB" then RB
    else if position == "WR" then WR
    else if position == "TE" then TE
    else Other
  }

  function SlotName(s: Slot): string
  {
    match s
    case QB => "QB"
    case RB => "RB"
    case WR => "WR"
    case TE => "TE"
    case Other => "Other"
  }

  /** The slots in the report's order. */
  const Slots: seq<Slot> := [QB, RB, WR, TE, Other]

  const AllSlots: set<Slot> := {QB, RB, WR, TE, Other}

  /** Each slot's share of the overall grade; the shares add up to 1. */
  function Weight(s: Slot): real
  {
    match s
    case QB => 0.15
    case RB => 0.30
    case WR => 0.35
    case TE => 0.15
    case Other => 0.05
  }

  /** A player's card: graded players are graded at their slot's position;
      kickers, defences and the like get a flat 5.0 in the `OtherTier`. */
  function CardOf(r: Rankings, p: Player): PlayerGrade
  {
    var s := SlotOf(p.position);
    if s != Other then GradePlayer(r, p.name, SlotName(s))
    else PlayerGrade(p.name, p.position, None, 5.0, OtherTier, None, None, "Unknown")
  }

  /** The cards of a roster, in roster order. */
  function Cards(r: Rankings, ps: seq<Player>): seq<PlayerGrade>
  {
    if |ps| == 0 then [] else Cards(r, ps[..|ps| - 1]) + [CardOf(r, ps[|ps| - 1])]
  }

  /** The grades of the roster's players in one slot, in roster order. */
  function SlotGrades(r: Rankings, ps: seq<Player>, s: Slot): seq<real>
  {
    if |ps| == 0 then []
    else if SlotOf(ps[|ps| - 1].position) == s then SlotGrades(r, ps[..|ps| - 1], s) + [CardOf(r, ps[|ps| - 1]).grade]
    else SlotGrades(r, ps[..|ps| - 1], s)
  }

  /** How many graded (non-`Other`) players carry tier t. */
  function TierCount(r: Rankings, ps: seq<Player>, t: Tier): nat
  {
    if |ps| == 0 then 0
    else
      var last := ps[|ps| - 1];
      TierCount(r, ps[..|ps| - 1], t) + if SlotOf(last.position) != Other && CardOf(r, last).tier == t then 1 else 0
  }

  /** The tiers the distribution counts. */
  const CountedTiers: set<Tier> := {Elite, Solid, Flex, Streamer, Unranked}

  /** The tier distribution. */
  function TierCounts(r: Rankings, ps: seq<Player>): map<Tier, nat>
  {
    map t | t in CountedTiers :: TierCount(r, ps, t)
  }

  /** A slot's average: the mean rounded to one decimal, 0.0 for an empty slot. */
  function Average(gs: seq<real>): real
  {
    if |gs| > 0 then Round1(Mean(gs)) else 0.0
  }

  /** The averages of the given slots, in order. */
  function Averages(r: Rankings, ps: seq<Player>, slots: seq<Slot>): seq<(Slot, real)>
  {
    if |slots| == 0 then []
    else Averages(r, ps, slots[..|slots| - 1]) + [(slots[|slots| - 1], Average(SlotGrades(r, ps, slots[|slots| - 1])))]
  }

  /** The weighted sum of the positive averages. */
  function Weighted(avgs: seq<(Slot, real)>): real
  {
    if |avgs| == 0 then 0.0
    else
      var last := avgs[|avgs| - 1];
      Weighted(avgs[..|avgs| - 1]) + if last.1 > 0.0 then last.1 * Weight(last.0) else 0.0
  }

  /** The first card of highest grade (Python's `max` with a key). */
  function BestCard(cs: seq<PlayerGrade>): PlayerGrade
    requires |cs| > 0
  {
    if |cs| == 1 then cs[0]
    else
      var best := BestCard(cs[..|cs| - 1]);
      if cs[|cs| - 1].grade > best.grade then cs[|cs| - 1] else best
  }

  /** The first card of lowest grade (Python's `min` with a key). */
  function WorstCard(cs: seq<PlayerGrade>): PlayerGrade
    requires |cs| > 0
  {
    if |cs| == 1 then cs[0]
    else
      var worst := WorstCard(cs[..|cs| - 1]);
      if cs[|cs| - 1].grade < worst.grade then cs[|cs| - 1] else worst
  }

  /** A roster's grading report. */
  datatype RosterReport = RosterReport(overall: real, positionGrades: seq<(Slot, real)>, playerGrades: seq<PlayerGrade>,
                                       totalPlayers: nat, tierCounts: map<Tier, nat>, positionCounts: map<Slot, nat>,
                                       highest: Option<PlayerGrade>, lowest: Option<PlayerGrade>)

  /** The report for a roster; an empty roster reports 0.0 and nothing else. */
  function RosterReportOf(r: Rankings, ps: seq<Player>): RosterReport
  {
    if |ps| == 0 then RosterReport(0.0, [], [], 0, map[], map[], None, None)
    else
      ReportFrom(Averages(r, ps, Slots), Cards(r, ps), |ps|, TierCounts(r, ps), map s | s in AllSlots :: |SlotGrades(r, ps, s)|)
  }

  /** A report from the slot averages, the cards and the counts: the
      overall grade is the rounded weighted average. */
  function ReportFrom(avgs: seq<(Slot, real)>, cards: seq<PlayerGrade>, n: nat, tierCounts: map<Tier, nat>,
                      counts: map<Slot, nat>): RosterReport
    requires |cards| > 0
  {
    RosterReport(Round1(Weighted(avgs)), avgs, cards, n, tierCounts, counts, Some(BestCard(cards)), Some(WorstCard(cards)))
  }

  // ---------------------------------------------------------------- what a roster report says

  /** With valid rankings every card is graded in [1, 10]; `Other` cards are
      graded 5.0 in the `OtherTier`, and every other card in a tier or unranked. */
  lemma CardSpec(r: Rankings, p: Player)
    requires RankingsValid(r)
    ensures 1.0 <= CardOf(r, p).grade <= 10.0
    ensures SlotOf(p.position) == Other ==> CardOf(r, p).grade == 5.0 && CardOf(r, p).tier == OtherTier
    ensures SlotOf(p.position) != Other ==> Graded(CardOf(r, p).tier) || CardOf(r, p).tier == Unranked
  {
    var s := SlotOf(p.position);
    if s != Other {
      GradePlayerSpec(r, p.name, SlotName(s));
      var g := GradePlayer(r, p.name, SlotName(s));
      assert g.tier != OtherTier;
    }
  }

  /** A slot's grades all lie in [1, 10], and are all 5.0 in the `Other` slot. */
  lemma {:induction false} SlotGradesBounds(r: Rankings, ps: seq<Player>, s: Slot)
    requires RankingsValid(r)
    ensures forall i :: 0 <= i < |SlotGrades(r, ps, s)| ==> 1.0 <= SlotGrades(r, ps, s)[i] <= 10.0
    ensures s == Other ==> forall i :: 0 <= i < |SlotGrades(r, ps, s)| ==> SlotGrades(r, ps, s)[i] == 5.0
  {
    if |ps| > 0 {
      SlotGradesBounds(r, ps[..|ps| - 1], s);
      CardSpec(r, ps[|ps| - 1]);
    }
  }

  /** Every player lands in exactly one slot, and every graded player in
      exactly one of the five counted tiers. */
  lemma RosterCounts(r: Rankings, ps: seq<Player>)
    ensures |Cards(r, ps)| == |ps|
    ensures |SlotGrades(r, ps, QB)| + |SlotGrades(r, ps, RB)| + |SlotGrades(r, ps, WR)| + |SlotGrades(r, ps, TE)| +
      |SlotGrades(r, ps, Other)| == |ps|
    ensures TierCount(r, ps, Elite) + TierCount(r, ps, Solid) + TierCount(r, ps, Flex) + TierCount(r, ps, Streamer) +
      TierCount(r, ps, Unranked) == |ps| - |SlotGrades(r, ps, Other)|
  {
    SlotCounts(r, ps);
    TierCounted(r, ps);
  }

  lemma {:induction false} SlotCounts(r: Rankings, ps: seq<Player>)
    ensures |Cards(r, ps)| == |ps|
    ensures |SlotGrades(r, ps, QB)| + |SlotGrades(r, ps, RB)| + |SlotGrades(r, ps, WR)| + |SlotGrades(r, ps, TE)| +
      |SlotGrades(r, ps, Other)| == |ps|
  {
    if |ps| > 0 {
      SlotCounts(r, ps[..|ps| - 1]);
    }
  }

  lemma {:induction false} TierCounted(r: Rankings, ps: seq<Player>)
    ensures TierCount(r, ps, Elite) + TierCount(r, ps, Solid) + TierCount(r, ps, Flex) + TierCount(r, ps, Streamer) +
      TierCount(r, ps, Unranked) == |ps| - |SlotGrades(r, ps, Other)|
  {
    if |ps| > 0 {
      var p := ps[|ps| - 1];
      TierCounted(r, ps[..|ps| - 1]);
      if SlotOf(p.position) != Other {
        var s := SlotOf(p.position);
        GradePlayerTier(r, p.name, SlotName(s));
      }
    }
  }

  /** A graded card's tier is one of the five counted ones. */
  lemma GradePlayerTier(r: Rankings, name: string, position: string)
    ensures Graded(GradePlayer(r, name, position).tier) || GradePlayer(r, name, position).tier == Unranked
  {
    if position in r && Lower(name) in r[position] {
      var rank := r[position][Lower(name)].rank;
      PositionGradeClosed(position, rank);
    }
  }

  /** An average of grades in [lo, hi] (one-decimal bounds) lies in [lo, hi];
      only an empty slot averages 0.0 when lo is positive. */
  lemma AverageBounds(gs: seq<real>, lo: real, hi: real)
    requires OneDecimal(lo) && OneDecimal(hi) && 0.0 < lo <= hi
    requires forall i :: 0 <= i < |gs| ==> lo <= gs[i] <= hi
    ensures |gs| > 0 ==> lo <= Average(gs) <= hi
    ensures Average(gs) == 0.0 <==> |gs| == 0
  {
    if |gs| > 0 {
      MeanBounds(gs, lo, hi);
      Round1Between(lo, Mean(gs), hi);
    }
  }

  /** The report's averages, slot by slot. */
  lemma AveragesOfSlots(r: Rankings, ps: seq<Player>)
    ensures Averages(r, ps, Slots) == [(QB, Average(SlotGrades(r, ps, QB))), (RB, Average(SlotGrades(r, ps, RB))),
      (WR, Average(SlotGrades(r, ps, WR))), (TE, Average(SlotGrades(r, ps, TE))), (Other, Average(SlotGrades(r, ps, Other)))]
  {
    assert [QB][..0] == [];
    assert [QB, RB][..1] == [QB];
    assert [QB, RB, WR][..2] == [QB, RB];
    assert [QB, RB, WR, TE][..3] == [QB, RB, WR];
    assert Slots[..4] == [QB, RB, WR, TE];
    assert Averages(r, ps, [QB]) == [(QB, Average(SlotGrades(r, ps, QB)))];
    assert Averages(r, ps, [QB, RB]) == Averages(r, ps, [QB]) + [(RB, Average(SlotGrades(r, ps, RB)))];
    assert Averages(r, ps, [QB, RB, WR]) == Averages(r, ps, [QB, RB]) + [(WR, Average(SlotGrades(r, ps, WR)))];
    assert Averages(r, ps, [QB, RB, WR, TE]) == Averages(r, ps, [QB, RB, WR]) + [(TE, Average(SlotGrades(r, ps, TE)))];
  }

  /** The weighted sum of five slot averages. */
  lemma WeightedFive(a: real, b: real, c: real, d: real, e: real)
    ensures Weighted([(QB, a), (RB, b), (WR, c), (TE, d), (Other, e)]) ==
      (if a > 0.0 then a * 0.15 else 0.0) + (if b > 0.0 then b * 0.30 else 0.0) + (if c > 0.0 then c * 0.35 else 0.0) +
      (if d > 0.0 then d * 0.15 else 0.0) + (if e > 0.0 then e * 0.05 else 0.0)
  {
    var s := [(QB, a), (RB, b), (WR, c), (TE, d), (Other, e)];
    assert s[..4] == s[..4];
    assert s[..4][..3] == s[..3] && s[..3][..2] == s[..2] && s[..2][..1] == s[..1] && s[..1][..0] == [];
    assert Weighted(s[..1]) == if a > 0.0 then a * 0.15 else 0.0;
    assert Weighted(s[..2]) == Weighted(s[..1]) + if b > 0.0 then b * 0.30 else 0.0;
    assert Weighted(s[..3]) == Weighted(s[..2]) + if c > 0.0 then c * 0.35 else 0.0;
    assert Weighted(s[..4]) == Weighted(s[..3]) + if d > 0.0 then d * 0.15 else 0.0;
  }

  /** With valid rankings every slot average is 0.0 (an empty slot) or lies
      in [1, 10]; the `Other` average is 0.0 or 5.0. */
  lemma SlotAverage(r: Rankings, ps: seq<Player>, s: Slot)
    requires RankingsValid(r)
    ensures Average(SlotGrades(r, ps, s)) == 0.0 <==> |SlotGrades(r, ps, s)| == 0
    ensures |SlotGrades(r, ps, s)| > 0 ==> 1.0 <= Average(SlotGrades(r, ps, s)) <= 10.0
    ensures s == Other && |SlotGrades(r, ps, s)| > 0 ==> Average(SlotGrades(r, ps, s)) == 5.0
  {
    SlotGradesBounds(r, ps, s);
    assert OneDecimal(1.0) && OneDecimal(10.0) && OneDecimal(5.0) by {
      assert (1.0 * 10.0).Floor == 10 && (10.0 * 10.0).Floor == 100 && (5.0 * 10.0).Floor == 50;
    }
    AverageBounds(SlotGrades(r, ps, s), 1.0, 10.0);
    if s == Other {
      AverageBounds(SlotGrades(r, ps, s), 5.0, 5.0);
    }
  }

  /** With valid rankings the weighted average of a non-empty roster lies
      in [0.15, 10]: some slot has a card, and each weight is at least 0.05. */
  lemma WeightedBounds(r: Rankings, ps: seq<Player>)
    requires RankingsValid(r) && |ps| > 0
    ensures 0.15 <= Weighted(Averages(r, ps, Slots)) <= 10.0
  {
    AveragesOfSlots(r, ps);
    var a, b, c := Average(SlotGrades(r, ps, QB)), Average(SlotGrades(r, ps, RB)), Average(SlotGrades(r, ps, WR));
    var d, e := Average(SlotGrades(r, ps, TE)), Average(SlotGrades(r, ps, Other));
    WeightedFive(a, b, c, d, e);
    SlotAverage(r, ps, QB);
    SlotAverage(r, ps, RB);
    SlotAverage(r, ps, WR);
    SlotAverage(r, ps, TE);
    SlotAverage(r, ps, Other);
    var last := ps[|ps| - 1];
    assert |SlotGrades(r, ps, SlotOf(last.position))| > 0;
  }

  /** With valid rankings the overall grade lies in [0, 10]: 0.0 for an
      empty roster and above 0.0 for any other. */
  lemma RosterOverallBounds(r: Rankings, ps: seq<Player>)
    requires RankingsValid(r)
    ensures 0.0 <= RosterReportOf(r, ps).overall <= 10.0
    ensures RosterReportOf(r, ps).overall == 0.0 <==> |ps| == 0
  {
    if |ps| > 0 {
      WeightedBounds(r, ps);
      var w := Weighted(Averages(r, ps, Slots));
      assert OneDecimal(0.0) && OneDecimal(10.0) by {
        assert (0.0 * 10.0).Floor == 0 && (10.0 * 10.0).Floor == 100;
      }
      Round1Between(0.0, w, 10.0);
    }
  }

  /** The highest card is a card of the roster, graded at least as high as
      every card and strictly higher than every card before it. */
  lemma {:induction false} BestCardSpec(cs: seq<PlayerGrade>)
    requires |cs| > 0
    ensures forall j :: 0 <= j < |cs| ==> cs[j].grade <= BestCard(cs).grade
    ensures exists i :: 0 <= i < |cs| && cs[i] == BestCard(cs) && forall j :: 0 <= j < i ==> cs[j].grade < BestCard(cs).grade
  {
    if |cs| > 1 {
      var front := cs[..|cs| - 1];
      BestCardSpec(front);
      var i :| 0 <= i < |front| && front[i] == BestCard(front) && forall j :: 0 <= j < i ==> front[j].grade < BestCard(front).grade;
      assert forall j :: 0 <= j < |cs| - 1 ==> cs[j] == front[j];
      if cs[|cs| - 1].grade > BestCard(front).grade {
        assert cs[|cs| - 1] == BestCard(cs);
      } else {
        assert cs[i] == BestCard(cs);
      }
    } else {
      assert cs[0] == BestCard(cs);
    }
  }

  /** The lowest card is a card of the roster, graded at most as high as
      every card and strictly lower than every card before it. */
  lemma {:induction false} WorstCardSpec(cs: seq<PlayerGrade>)
    requires |cs| > 0
    ensures forall j :: 0 <= j < |cs| ==> WorstCard(cs).grade <= cs[j].grade
    ensures exists i :: 0 <= i < |cs| && cs[i] == WorstCard(cs) && forall j :: 0 <= j < i ==> WorstCard(cs).grade < cs[j].grade
  {
    if |cs| > 1 {
      var front := cs[..|cs| - 1];
      WorstCardSpec(front);
      var i :| 0 <= i < |front| && front[i] == WorstCard(front) && forall j :: 0 <= j < i ==> WorstCard(front).grade < front[j].grade;
      assert forall j :: 0 <= j < |cs| - 1 ==> cs[j] == front[j];
      if cs[|cs| - 1].grade < WorstCard(front).grade {
        assert cs[|cs| - 1] == WorstCard(cs);
      } else {
        assert cs[i] == WorstCard(cs);
      }
    } else {
      assert cs[0] == WorstCard(cs);
    }
  }

  /** `slotGrades` holds, for every slot, that slot's grades of the roster `ps`. */
  ghost predicate SlotsMatch(slotGrades: map<Slot, seq<real>>, r: Rankings, ps: seq<Player>)
  {
    slotGrades.Keys == AllSlots && forall s :: s in slotGrades ==> slotGrades[s] == SlotGrades(r, ps, s)
  }

  /** `tierCounts` holds, for every counted tier, its count over the roster `ps`. */
  ghost predicate TiersMatch(tierCounts: map<Tier, nat>, r: Rankings, ps: seq<Player>)
  {
    tierCounts.Keys == CountedTiers && forall t :: t in tierCounts ==> tierCounts[t] == TierCount(r, ps, t)
  }

  /** Appending player i's grade to its slot extends the slot grades by one player. */
  lemma SlotsStep(slotGrades: map<Slot, seq<real>>, r: Rankings, ps: seq<Player>, i: int)
    requires 0 <= i < |ps| && SlotsMatch(slotGrades, r, ps[..i])
    ensures SlotsMatch(slotGrades[SlotOf(ps[i].position) := slotGrades[SlotOf(ps[i].position)] + [CardOf(r, ps[i]).grade]],
      r, ps[..i + 1])
  {
    assert ps[..i + 1][..i] == ps[..i];
  }

  /** Counting player i's tier, when the player is graded, extends the tier
      counts by one player. */
  lemma TiersStep(tierCounts: map<Tier, nat>, r: Rankings, ps: seq<Player>, i: int)
    requires 0 <= i < |ps| && TiersMatch(tierCounts, r, ps[..i])
    ensures SlotOf(ps[i].position) != Other ==> (CardOf(r, ps[i]).tier in tierCounts &&
      TiersMatch(tierCounts[CardOf(r, ps[i]).tier := tierCounts[CardOf(r, ps[i]).tier] + 1], r, ps[..i + 1]))
    ensures SlotOf(ps[i].position) == Other ==> TiersMatch(tierCounts, r, ps[..i + 1])
  {
    assert ps[..i + 1][..i] == ps[..i];
    var s := SlotOf(ps[i].position);
    if s != Other {
      GradePlayerTier(r, ps[i].name, SlotName(s));
    }
  }

  /** One player's card: graded at the slot's position, or a flat 5.0 for
      kickers, defences and the like. */
  method GradeOne(r: Rankings, p: Player) returns (card: PlayerGrade)
    ensures card == CardOf(r, p)
  {
    var s := SlotOf(p.position);
    if s != Other {
      card := GradePlayer(r, p.name, SlotName(s));
    } else {
      card := PlayerGrade(p.name, p.position, None, 5.0, OtherTier, None, None, "Unknown");
    }
  }

  lemma CardsStep(r: Rankings, ps: seq<Player>, i: int)
    requires 0 <= i < |ps|
    ensures Cards(r, ps[..i + 1]) == Cards(r, ps[..i]) + [CardOf(r, ps[i])]
  {
    assert ps[..i + 1][..i] == ps[..i];
  }

  /** `tier_counts[tier] += 1` for a graded player i. */
  method Tally(tierCounts: map<Tier, nat>, r: Rankings, ps: seq<Player>, i: int, card: PlayerGrade)
    returns (next: map<Tier, nat>)
    requires 0 <= i < |ps| && TiersMatch(tierCounts, r, ps[..i]) && card == CardOf(r, ps[i])
    ensures TiersMatch(next, r, ps[..i + 1])
  {
    TiersStep(tierCounts, r, ps, i);
    next := tierCounts;
    if SlotOf(ps[i].position) != Other {
      next := tierCounts[card.tier := tierCounts[card.tier] + 1];
    }
  }

  /** `position_grades[slot].append(grade)` for player i. */
  method AddGrade(slotGrades: map<Slot, seq<real>>, r: Rankings, ps: seq<Player>, i: int, card: PlayerGrade)
    returns (next: map<Slot, seq<real>>)
    requires 0 <= i < |ps| && SlotsMatch(slotGrades, r, ps[..i]) && card == CardOf(r, ps[i])
    ensures SlotsMatch(next, r, ps[..i + 1])
  {
    SlotsStep(slotGrades, r, ps, i);
    var s := SlotOf(ps[i].position);
    next := slotGrades[s := slotGrades[s] + [card.grade]];
  }

  /** The per-player pass's state after the players `ps`. */
  ghost predicate Tallied(cards: seq<PlayerGrade>, slotGrades: map<Slot, seq<real>>, tierCounts: map<Tier, nat>,
                          r: Rankings, ps: seq<Player>)
  {
    cards == Cards(r, ps) && SlotsMatch(slotGrades, r, ps) && TiersMatch(tierCounts, r, ps)
  }

  /** Grades player i and records the card, its grade and its tier. */
  method GradeNext(cards: seq<PlayerGrade>, slotGrades: map<Slot, seq<real>>, tierCounts: map<Tier, nat>,
                   r: Rankings, ps: seq<Player>, i: int)
    returns (cards': seq<PlayerGrade>, slotGrades': map<Slot, seq<real>>, tierCounts': map<Tier, nat>)
    requires 0 <= i < |ps| && Tallied(cards, slotGrades, tierCounts, r, ps[..i])
    ensures Tallied(cards', slotGrades', tierCounts', r, ps[..i + 1])
  {
    var card := GradeOne(r, ps[i]);
    tierCounts' := Tally(tierCounts, r, ps, i, card);
    slotGrades' := AddGrade(slotGrades, r, ps, i, card);
    CardsStep(r, ps, i);
    cards' := cards + [card];
  }

  /** The per-player pass of grading a roster: each player's card, the
      grades collected per slot, and the tier distribution of the graded players. */
  method GradePlayers(r: Rankings, players: seq<Player>)
    returns (cards: seq<PlayerGrade>, slotGrades: map<Slot, seq<real>>, tierCounts: map<Tier, nat>)
    ensures Tallied(cards, slotGrades, tierCounts, r, players)
  {
    cards := [];
    slotGrades := map[QB := [], RB := [], WR := [], TE := [], Other := []];
    tierCounts := map[Elite := 0, Solid := 0, Flex := 0, Streamer := 0, Unranked := 0];
    var i := 0;
    while i < |players|
      invariant 0 <= i <= |players|
      invariant Tallied(cards, slotGrades, tierCounts, r, players[..i])
    {
      cards, slotGrades, tierCounts := GradeNext(cards, slotGrades, tierCounts, r, players, i);
      i := i + 1;
    }
    assert players[..i] == players;
  }

  lemma AveragesStep(r: Rankings, ps: seq<Player>, k: int)
    requires 0 <= k < |Slots|
    ensures Averages(r, ps, Slots[..k + 1]) == Averages(r, ps, Slots[..k]) + [(Slots[k], Average(SlotGrades(r, ps, Slots[k])))]
  {
    assert Slots[..k + 1][..k] == Slots[..k];
  }

  lemma WeightedStep(avgs: seq<(Slot, real)>, k: int)
    requires 0 <= k < |avgs|
    ensures Weighted(avgs[..k + 1]) == Weighted(avgs[..k]) + if avgs[k].1 > 0.0 then avgs[k].1 * Weight(avgs[k].0) else 0.0
  {
    assert avgs[..k + 1][..k] == avgs[..k];
  }

  /** Each slot's average, in the report's slot order. */
  method AverageSlots(r: Rankings, players: seq<Player>, slotGrades: map<Slot, seq<real>>) returns (avgs: seq<(Slot, real)>)
    requires SlotsMatch(slotGrades, r, players)
    ensures avgs == Averages(r, players, Slots)
  {
    avgs := [];
    var k := 0;
    while k < |Slots|
      invariant 0 <= k <= |Slots|
      invariant avgs == Averages(r, players, Slots[..k])
    {
      var grades := slotGrades[Slots[k]];
      var avg := if |grades| > 0 then Round1(Mean(grades)) else 0.0;
      AveragesStep(r, players, k);
      avgs := avgs + [(Slots[k], avg)];
      k := k + 1;
    }
    assert Slots[..k] == Slots;
  }

  /** The weighted sum of the positive averages. */
  method WeighAverages(avgs: seq<(Slot, real)>) returns (overall: real)
    ensures overall == Weighted(avgs)
  {
    overall := 0.0;
    var k := 0;
    while k < |avgs|
      invariant 0 <= k <= |avgs|
      invariant overall == Weighted(avgs[..k])
    {
      WeightedStep(avgs, k);
      if avgs[k].1 > 0.0 {
        overall := overall + avgs[k].1 * Weight(avgs[k].0);
      }
      k := k + 1;
    }
    assert avgs[..k] == avgs;
  }

  /** A report assembled from the passes' results is the roster's report. */
  lemma ReportOfParts(cards: seq<PlayerGrade>, slotGrades: map<Slot, seq<real>>, tierCounts: map<Tier, nat>,
                      r: Rankings, ps: seq<Player>)
    requires |ps| > 0 && Tallied(cards, slotGrades, tierCounts, r, ps)
    ensures |cards| > 0
    ensures RosterReportOf(r, ps) == ReportFrom(Averages(r, ps, Slots), cards, |ps|, tierCounts, map s | s in slotGrades :: |slotGrades[s]|)
  {
    MatchedMaps(cards, slotGrades, tierCounts, r, ps);
  }

  /** The state the per-player pass leaves is the report's cards and distributions. */
  lemma MatchedMaps(cards: seq<PlayerGrade>, slotGrades: map<Slot, seq<real>>, tierCounts: map<Tier, nat>,
                    r: Rankings, ps: seq<Player>)
    requires Tallied(cards, slotGrades, tierCounts, r, ps)
    ensures cards == Cards(r, ps)
    ensures tierCounts == TierCounts(r, ps)
    ensures (map s | s in slotGrades :: |slotGrades[s]|) == map s | s in AllSlots :: |SlotGrades(r, ps, s)|
  {
  }

  // ---------------------------------------------------------------- roster construction notes

  /** Names joined with a separator (Python's `sep.join(parts)`). */
  function Join(parts: seq<string>, sep: string): string
  {
    if |parts| == 0 then ""
    else if |parts| == 1 then parts[0]
    else Join(parts[..|parts| - 1], sep) + sep + parts[|parts| - 1]
  }

  /** The names of the non-`Other` slots whose average passes `keep`, in report order. */
  function Picked(avgs: seq<(Slot, real)>, keep: real -> bool): seq<string>
  {
    if |avgs| == 0 then []
    else
      var last := avgs[|avgs| - 1];
      Picked(avgs[..|avgs| - 1], keep) + if last.0 != Other && keep(last.1) then [SlotName(last.0)] else []
  }

  /** A slot is named exactly when it is not `Other` and one of its averages passes `keep`. */
  lemma {:induction false} PickedSpec(avgs: seq<(Slot, real)>, keep: real -> bool, s: Slot)
    ensures SlotName(s) in Picked(avgs, keep) <==> s != Other && exists i :: 0 <= i < |avgs| && avgs[i].0 == s && keep(avgs[i].1)
  {
    if |avgs| > 0 {
      var init, last := avgs[..|avgs| - 1], avgs[|avgs| - 1];
      PickedSpec(init, keep, s);
      SlotNameInjective(s);
      if exists i :: 0 <= i < |init| && init[i].0 == s && keep(init[i].1) {
        var i :| 0 <= i < |init| && init[i].0 == s && keep(init[i].1);
        assert avgs[i] == init[i];
      }
      if exists i :: 0 <= i < |avgs| && avgs[i].0 == s && keep(avgs[i].1) {
        var i :| 0 <= i < |avgs| && avgs[i].0 == s && keep(avgs[i].1);
        if i < |init| {
          assert init[i] == avgs[i];
        }
      }
    }
  }

  /** Distinct slots have distinct names. */
  lemma SlotNameInjective(s: Slot)
    ensures forall t :: SlotName(t) == SlotName(s) ==> t == s
  {
  }

  function IsStrong(g: real): bool { g >= 7.0 }

  function IsWeak(g: real): bool { g < 5.0 }

  /** `d.get(t, 0)`. */
  function CountOf(m: map<Tier, nat>, t: Tier): nat
  {
    if t in m then m[t] else 0
  }

  const Balanced := "Balanced roster construction"

  /** The notes for a roster report other than the balanced one: its strong
      positions (average 7.0 or more), its weak ones (below 5.0), then three
      or more elite players, six or more solid ones and five or more
      unranked ones. */
  function RawNotes(report: RosterReport): seq<string>
  {
    var strong := Picked(report.positionGrades, IsStrong);
    var weak := Picked(report.positionGrades, IsWeak);
    var tiers := report.tierCounts;
    (if |strong| > 0 then ["Strong at: " + Join(strong, ", ")] else []) +
    (if |weak| > 0 then ["Weak at: " + Join(weak, ", ")] else []) +
    (if CountOf(tiers, Elite) >= 3 then ["Elite-heavy roster"] else []) +
    (if CountOf(tiers, Solid) >= 6 then ["Deep and consistent"] else []) +
    (if CountOf(tiers, Unranked) >= 5 then ["Many unproven players"] else [])
  }

  /** The notes, or a single note that the roster is balanced when there are none. */
  function ConstructionNotes(report: RosterReport): seq<string>
  {
    var notes := RawNotes(report);
    if |notes| > 0 then notes else [Balanced]
  }

  /** There is at least one note and at most five, and the roster is called
      balanced exactly when no position is strong or weak and no tier count
      reaches its threshold. */
  lemma NotesSpec(report: RosterReport)
    ensures 1 <= |ConstructionNotes(report)| <= 5
    ensures ConstructionNotes(report) == [Balanced] <==>
      (|Picked(report.positionGrades, IsStrong)| == 0 && |Picked(report.positionGrades, IsWeak)| == 0 &&
       CountOf(report.tierCounts, Elite) < 3 && CountOf(report.tierCounts, Solid) < 6 &&
       CountOf(report.tierCounts, Unranked) < 5)
  {
    var raw := RawNotes(report);
    if |raw| > 0 {
      assert raw[0][0] != 'B';
    }
  }

  /** The average a five-slot report gives slot s. */
  function AverageAt(avgs: seq<(Slot, real)>, s: Slot): real
    requires |avgs| == 5
  {
    match s case QB => avgs[0].1 case RB => avgs[1].1 case WR => avgs[2].1 case TE => avgs[3].1 case Other => avgs[4].1
  }

  /** In a report of the five slots in order, a slot is named exactly when it
      is not `Other` and its average passes `keep`. */
  lemma PickedFive(a: real, b: real, c: real, d: real, e: real, keep: real -> bool, s: Slot)
    ensures var avgs := [(QB, a), (RB, b), (WR, c), (TE, d), (Other, e)];
      SlotName(s) in Picked(avgs, keep) <==> s != Other && keep(AverageAt(avgs, s))
  {
    var avgs := [(QB, a), (RB, b), (WR, c), (TE, d), (Other, e)];
    PickedSpec(avgs, keep, s);
    var i := match s case QB => 0 case RB => 1 case WR => 2 case TE => 3 case Other => 4;
    assert avgs[i].0 == s && avgs[i].1 == AverageAt(avgs, s);
    assert forall j :: 0 <= j < |avgs| && avgs[j].0 == s ==> j == i;
  }

  /** A graded position the roster has no player at averages 0.0 and is
      therefore listed as weak. */
  lemma EmptySlotIsWeak(r: Rankings, ps: seq<Player>, s: Slot)
    requires |ps| > 0 && s != Other && |SlotGrades(r, ps, s)| == 0
    ensures SlotName(s) in Picked(RosterReportOf(r, ps).positionGrades, IsWeak)
  {
    AveragesOfSlots(r, ps);
    PickedFive(Average(SlotGrades(r, ps, QB)), Average(SlotGrades(r, ps, RB)), Average(SlotGrades(r, ps, WR)),
               Average(SlotGrades(r, ps, TE)), Average(SlotGrades(r, ps, Other)), IsWeak, s);
  }

  /** A position is listed as strong exactly when it is graded and its
      players average 7.0 or more, and as weak exactly when it is graded
      and they average below 5.0. */
  lemma StrongWeakSlots(r: Rankings, ps: seq<Player>, s: Slot)
    requires |ps| > 0
    ensures SlotName(s) in Picked(RosterReportOf(r, ps).positionGrades, IsStrong) <==>
      s != Other && Average(SlotGrades(r, ps, s)) >= 7.0
    ensures SlotName(s) in Picked(RosterReportOf(r, ps).positionGrades, IsWeak) <==>
      s != Other && Average(SlotGrades(r, ps, s)) < 5.0
  {
    AveragesOfSlots(r, ps);
    var a, b, c := Average(SlotGrades(r, ps, QB)), Average(SlotGrades(r, ps, RB)), Average(SlotGrades(r, ps, WR));
    var d, e := Average(SlotGrades(r, ps, TE)), Average(SlotGrades(r, ps, Other));
    PickedFive(a, b, c, d, e, IsStrong, s);
    PickedFive(a, b, c, d, e, IsWeak, s);
  }

  // ---------------------------------------------------------------- the analyzer

  /** The analyzer and the rankings it builds. */
  class FantasyAnalyzer {
    var positionRankings: Rankings

    constructor ()
      ensures positionRankings == map[]
    {
      positionRankings := map[];
    }

    /** Ranks the first 80 leaders for `target` into its table. */
    method ProcessPositionLeaders(leaders: seq<Leader>, target: string, maxCount: int, filter: seq<string>)
      modifies this
      ensures positionRankings == PositionLeaders(old(positionRankings), First80(leaders), target, maxCount, filter, 0)
    {
      var todo := First80(leaders);
      var rank := 0;
      var i := 0;
      while i < |todo|
        invariant 0 <= i <= |todo|
        invariant PositionLeaders(positionRankings, todo[i..], target, maxCount, filter, rank) ==
          PositionLeaders(old(positionRankings), todo, target, maxCount, filter, 0)
      {
        assert todo[i..][1..] == todo[i + 1..];
        var leader := todo[i];
        match leader.athlete {
          case None =>
          case Some(a) =>
            if |filter| > 0 && a.position !in filter {
            } else if a.position == target {
              rank := rank + 1;
              if rank > maxCount {
                break;
              }
              if target in positionRankings {
                positionRankings := positionRankings[target := positionRankings[target][Lower(a.name) := Entry(a, leader, target, rank)]];
              }
            }
        }
        i := i + 1;
      }
    }

    /** Ranks the first 80 receiving leaders into the WR and TE tables. */
    method ProcessReceivingLeaders(leaders: seq<Leader>)
      modifies this
      ensures positionRankings == ReceivingLeaders(old(positionRankings), First80(leaders), 0, 0)
    {
      var todo := First80(leaders);
      var wr, te := 0, 0;
      var i := 0;
      while i < |todo|
        invariant 0 <= i <= |todo|
        invariant ReceivingLeaders(positionRankings, todo[i..], wr, te) == ReceivingLeaders(old(positionRankings), todo, 0, 0)
      {
        assert todo[i..][1..] == todo[i + 1..];
        var leader := todo[i];
        match leader.athlete {
          case None =>
          case Some(a) =>
            if a.position == "WR" {
              wr := wr + 1;
              if wr <= 48 && "WR" in positionRankings {
                positionRankings := positionRankings["WR" := positionRankings["WR"][Lower(a.name) := Entry(a, leader, "WR", wr)]];
              }
            } else if a.position == "TE" {
              te := te + 1;
              if te <= 24 && "TE" in positionRankings {
                positionRankings := positionRankings["TE" := positionRankings["TE"][Lower(a.name) := Entry(a, leader, "TE", te)]];
              }
            }
        }
        i := i + 1;
      }
    }

    /** Rebuilds the four graded positions' tables from the leader data. */
    method BuildPositionRankings(nfl: Option<seq<Category>>)
      modifies this
      ensures positionRankings == Build(old(positionRankings), nfl)
    {
      if nfl.None? {
        return;
      }
      positionRankings := Reset(positionRankings);
      var cats := nfl.value;
      var i := 0;
      while i < |cats|
        invariant 0 <= i <= |cats|
        invariant Categories(positionRankings, cats[i..]) == Build(old(positionRankings), nfl)
      {
        assert cats[i..][1..] == cats[i + 1..];
        var n := Lower(cats[i].name);
        if Contains(n, "passing") && Contains(n, "yards") {
          ProcessPositionLeaders(cats[i].leaders, "QB", 30, []);
        } else if Contains(n, "rushing") && Contains(n, "yards") {
          ProcessPositionLeaders(cats[i].leaders, "RB", 60, ["RB", "FB"]);
        } else if Contains(n, "receiving") && Contains(n, "yards") {
          ProcessReceivingLeaders(cats[i].leaders);
        }
        i := i + 1;
      }
    }
  
    /** Grades a roster player by player, then averages each slot, weighs
        the averages into the overall grade and picks the extreme cards. */
    method GradeRoster(players: seq<Player>) returns (report: RosterReport)
      ensures report == RosterReportOf(positionRankings, players)
    {
      if |players| == 0 {
        return RosterReport(0.0, [], [], 0, map[], map[], None, None);
      }
      var r := positionRankings;
      var cards, slotGrades, tierCounts := GradePlayers(r, players);
      var avgs := AverageSlots(r, players, slotGrades);
      var overall := WeighAverages(avgs);
      var counts := map s | s in slotGrades :: |slotGrades[s]|;
      ReportOfParts(cards, slotGrades, tierCounts, r, players);
      report := RosterReport(Round1(overall), avgs, cards, |players|, tierCounts, counts,
                             Some(BestCard(cards)), Some(WorstCard(cards)));
    }
  }
}
