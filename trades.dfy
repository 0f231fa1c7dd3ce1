/** Transaction analysis: player names, the effect of a transaction on a
    manager's weekly power ratings and roster grades, how significant a
    trade is, and the passes over a season's transactions that produce one
    record per trading party and one per waiver or free-agent pickup. */
module Trades {
  import opened Wrappers
  import opened Stats
  import opened Dicts
  import opened Matchups
  import PowerRankings

  // ---------------------------------------------------------------- player names

  /** A player database entry; a missing name part is "". */
  datatype PlayerInfo = PlayerInfo(firstName: string, lastName: string)

  /** The characters Python's `str.strip()` removes, those `str.isspace()`
      accepts: the ASCII controls tab to carriage return, the four
      separators U+1C to U+1F, the space, U+85, the no-break space and the
      Unicode space separators and line and paragraph separators. */
  predicate IsSpace(c: char)
  {
    ('\t' <= c <= '\r') || ('\U{1C}' <= c <= ' ') || c == '\U{85}' || c == '\U{A0}' || c == '\U{1680}' ||
    ('\U{2000}' <= c <= '\U{200A}') || c == '\U{2028}' || c == '\U{2029}' || c == '\U{202F}' ||
    c == '\U{205F}' || c == '\U{3000}'
  }

  /** `s` without its leading whitespace. */
  function StripFront(s: string): (r: string)
    ensures |r| <= |s| && r == s[|s| - |r|..]
    ensures |r| > 0 ==> !IsSpace(r[0])
    ensures forall k :: 0 <= k < |s| - |r| ==> IsSpace(s[k])
  {
    if |s| > 0 && IsSpace(s[0]) then StripFront(s[1..]) else s
  }

  /** `s` without its trailing whitespace. */
  function StripBack(s: string): (r: string)
    ensures |r| <= |s| && r == s[..|r|]
    ensures |r| > 0 ==> !IsSpace(r[|r| - 1])
    ensures forall k :: |r| <= k < |s| ==> IsSpace(s[k])
  {
    if |s| > 0 && IsSpace(s[|s| - 1]) then StripBack(s[..|s| - 1]) else s
  }

  /** Nothing but whitespace. */
  predicate Blank(s: string)
  {
    forall k :: 0 <= k < |s| ==> IsSpace(s[k])
  }

  /** `s.strip()`: neither starts nor ends with whitespace, and is empty
      exactly when `s` is all whitespace. */
  function Strip(s: string): (r: string)
    ensures |r| <= |s|
    ensures |r| == 0 || (!IsSpace(r[0]) && !IsSpace(r[|r| - 1]))
    ensures |r| == 0 <==> Blank(s)
  {
    var f := StripFront(s);
    var r := StripBack(f);
    assert |r| > 0 ==> r[0] == f[0];
    assert |r| > 0 ==> !IsSpace(s[|s| - |f|]);
    assert |r| == 0 ==> |f| == 0;
    r
  }

  /** A player's display name: "Unknown Player" for an empty id, the
      database's "first last" when that is not blank, else "Player_<id>". */
  function PlayerName(id: string, players: map<string, PlayerInfo>): string
  {
    if id == "" then "Unknown Player"
    else
      var full := if id in players then Strip(players[id].firstName + " " + players[id].lastName) else "";
      if full != "" then full else "Player_" + id
  }

  /** A player's name is never empty: "Unknown Player" without an id, the
      database's name trimmed when it is known and not blank, and
      "Player_<id>" otherwise. */
  lemma PlayerNameSpec(id: string, players: map<string, PlayerInfo>)
    ensures PlayerName(id, players) != ""
    ensures id == "" ==> PlayerName(id, players) == "Unknown Player"
    ensures id != "" && id !in players ==> PlayerName(id, players) == "Player_" + id
    ensures id != "" && id in players && Blank(players[id].firstName + " " + players[id].lastName) ==>
      PlayerName(id, players) == "Player_" + id
    ensures id != "" && id in players && !Blank(players[id].firstName + " " + players[id].lastName) ==>
      var n := PlayerName(id, players);
      |n| <= |players[id].firstName + " " + players[id].lastName| && !IsSpace(n[0]) && !IsSpace(n[|n| - 1])
  {
  }

  // ---------------------------------------------------------------- impacts around a week

  /** A weekly series: week number → value. */
  type Series = map<int, real>

  /** A team's weekly power ratings, as the power rankings store them. */
  function Ratings(t: PowerRankings.TeamPower): Series
  {
    map w | w in t.rated :: t.rated[w].rating
  }

  /** The values of the given weeks of a series, in order. */
  function ValuesAt(s: Series, ws: seq<int>): (vs: seq<real>)
    requires forall i :: 0 <= i < |ws| ==> ws[i] in s
    ensures |vs| == |ws| && forall i :: 0 <= i < |ws| ==> vs[i] == s[ws[i]]
  {
    if |ws| == 0 then [] else ValuesAt(s, ws[..|ws| - 1]) + [s[ws[|ws| - 1]]]
  }

  /** The series' weeks before `week` and after it, each in ascending order. */
  function Before(s: Series, week: int): seq<int>
  {
    SortedKeys(set w | w in s && w < week)
  }

  function After(s: Series, week: int): seq<int>
  {
    SortedKeys(set w | w in s && w > week)
  }

  function MinNat(a: nat, b: nat): nat { if a < b then a else b }

  /** The last `window` weeks before `week` (fewer when there are fewer). */
  function RecentBefore(s: Series, week: int, window: nat): seq<int>
  {
    var b := Before(s, week);
    b[|b| - MinNat(window, |b|)..]
  }

  /** The first `window` weeks after `week` (fewer when there are fewer). */
  function RecentAfter(s: Series, week: int, window: nat): seq<int>
  {
    var a := After(s, week);
    a[..MinNat(window, |a|)]
  }

  /** The mean of the first `window` weeks after `week` minus the mean of the
      last `window` weeks before it; 0.0 with fewer than `need` weeks on
      either side. */
  function WindowImpact(s: Series, week: int, window: nat, need: nat): real
    requires window >= 1 && need >= 1
  {
    var b, a := Before(s, week), After(s, week);
    if |b| < need || |a| < need then 0.0
    else
      WindowWeeks(s, week, window);
      Mean(ValuesAt(s, RecentAfter(s, week, window))) - Mean(ValuesAt(s, RecentBefore(s, week, window)))
  }

  /** In a strictly ascending list, every element outside a tail is below
      every element of the tail. */
  lemma TailAbove(b: seq<int>, k: nat)
    requires k <= |b|
    requires forall i, j :: 0 <= i < j < |b| ==> b[i] < b[j]
    ensures forall i, w :: 0 <= i < |b| - k && w in b && w !in b[k..] ==> w < b[k..][i]
  {
    forall i, w | 0 <= i < |b| - k && w in b && w !in b[k..] ensures w < b[k..][i] {
      var j :| 0 <= j < |b| && b[j] == w;
      assert j < k;
    }
  }

  /** In a strictly ascending list, every element outside a head is above
      every element of the head. */
  lemma HeadBelow(a: seq<int>, k: nat)
    requires k <= |a|
    requires forall i, j :: 0 <= i < j < |a| ==> a[i] < a[j]
    ensures forall i, w :: 0 <= i < k && w in a && w !in a[..k] ==> a[..k][i] < w
  {
    forall i, w | 0 <= i < k && w in a && w !in a[..k] ensures a[..k][i] < w {
      var j :| 0 <= j < |a| && a[j] == w;
      assert j >= k;
    }
  }

  /** The earlier window holds min(window, n) of the n weeks before `week`,
      and they are the latest of them. */
  lemma BeforeWeeks(s: Series, week: int, window: nat)
    ensures |Before(s, week)| == |set w | w in s && w < week|
    ensures var rb := RecentBefore(s, week, window);
      |rb| == MinNat(window, |Before(s, week)|) &&
      (forall i :: 0 <= i < |rb| ==> rb[i] in s && rb[i] < week) &&
      forall i, w :: 0 <= i < |rb| && w in s && w < week && w !in rb ==> w < rb[i]
  {
    var bs := set w | w in s && w < week;
    SortedKeysSpec(bs);
    var b := Before(s, week);
    var kb := |b| - MinNat(window, |b|);
    TailAbove(b, kb);
    assert forall i :: 0 <= i < |b[kb..]| ==> b[kb..][i] in b;
  }

  /** The later window holds min(window, n) of the n weeks after `week`, and
      they are the earliest of them. */
  lemma AfterWeeks(s: Series, week: int, window: nat)
    ensures |After(s, week)| == |set w | w in s && w > week|
    ensures var ra := RecentAfter(s, week, window);
      |ra| == MinNat(window, |After(s, week)|) &&
      (forall i :: 0 <= i < |ra| ==> ra[i] in s && ra[i] > week) &&
      forall i, w :: 0 <= i < |ra| && w in s && w > week && w !in ra ==> ra[i] < w
  {
    var as_ := set w | w in s && w > week;
    SortedKeysSpec(as_);
    var a := After(s, week);
    var ka := MinNat(window, |a|);
    HeadBelow(a, ka);
    assert forall i :: 0 <= i < ka ==> a[..ka][i] in a;
  }

  lemma WindowWeeks(s: Series, week: int, window: nat)
    ensures |Before(s, week)| == |set w | w in s && w < week|
    ensures |After(s, week)| == |set w | w in s && w > week|
    ensures |RecentBefore(s, week, window)| == MinNat(window, |Before(s, week)|)
    ensures |RecentAfter(s, week, window)| == MinNat(window, |After(s, week)|)
    ensures forall i :: 0 <= i < |RecentBefore(s, week, window)| ==>
      RecentBefore(s, week, window)[i] in s && RecentBefore(s, week, window)[i] < week
    ensures forall i :: 0 <= i < |RecentAfter(s, week, window)| ==>
      RecentAfter(s, week, window)[i] in s && RecentAfter(s, week, window)[i] > week
  {
    BeforeWeeks(s, week, window);
    AfterWeeks(s, week, window);
  }

  /** The waiver power impact: a three-week window needing two weeks on each side. */
  function PowerImpact(power: map<string, PowerRankings.TeamPower>, manager: string, week: int): real
  {
    if manager !in power then 0.0 else WindowImpact(Ratings(power[manager]), week, 3, 2)
  }

  /** The waiver roster-grade impact: a two-week window needing one week on each side. */
  function GradeImpact(grades: map<string, Series>, manager: string, week: int): real
  {
    if manager !in grades then 0.0 else WindowImpact(grades[manager], week, 2, 1)
  }

  /** With fewer than `need` weeks on either side the impact is 0.0; a
      series whose values lie in [lo, hi] has an impact of at most hi − lo
      either way. */
  lemma WindowImpactBounds(s: Series, week: int, window: nat, need: nat, lo: real, hi: real)
    requires window >= 1 && need >= 1 && lo <= hi
    requires forall w :: w in s ==> lo <= s[w] <= hi
    ensures |set w | w in s && w < week| < need || |set w | w in s && w > week| < need ==>
      WindowImpact(s, week, window, need) == 0.0
    ensures lo - hi <= WindowImpact(s, week, window, need) <= hi - lo
  {
    WindowWeeks(s, week, window);
    var b, a := Before(s, week), After(s, week);
    if |b| >= need && |a| >= need {
      var vb := ValuesAt(s, RecentBefore(s, week, window));
      var va := ValuesAt(s, RecentAfter(s, week, window));
      MeanBounds(vb, lo, hi);
      MeanBounds(va, lo, hi);
    }
  }

  /** A series that steps from x before `week` to y after it, with enough
      weeks on both sides, has impact y − x. */
  lemma WindowImpactStep(s: Series, week: int, window: nat, need: nat, x: real, y: real)
    requires window >= 1 && need >= 1
    requires |set w | w in s && w < week| >= need && |set w | w in s && w > week| >= need
    requires forall w :: w in s && w < week ==> s[w] == x
    requires forall w :: w in s && w > week ==> s[w] == y
    ensures WindowImpact(s, week, window, need) == y - x
  {
    WindowWeeks(s, week, window);
    var vb := ValuesAt(s, RecentBefore(s, week, window));
    var va := ValuesAt(s, RecentAfter(s, week, window));
    MeanBounds(vb, x, x);
    MeanBounds(va, y, y);
  }

  // ---------------------------------------------------------------- the impact of a trade

  /** The change of a series from the week before `week` to `week`; 0.0
      when either week is missing. */
  function WeekDelta(s: Series, week: int): real
  {
    if week - 1 in s && week in s then s[week] - s[week - 1] else 0.0
  }

  /** The record impact of a performance change c: ±0.5 from |c| = 10,
      ±0.25 from |c| = 5, c·0.05 below. */
  function RecordImpact(c: real): real
  {
    var m := if c < 0.0 then -c else c;
    if m >= 10.0 then (if c > 0.0 then 0.5 else -0.5)
    else if m >= 5.0 then (if c > 0.0 then 0.25 else -0.25)
    else c * 0.05
  }

  /** The record impact has c's sign, lies in [−0.5, 0.5], is odd, and never
      falls as c rises. */
  lemma RecordImpactSpec(c: real, d: real)
    ensures -0.5 <= RecordImpact(c) <= 0.5
    ensures (RecordImpact(c) > 0.0 <==> c > 0.0) && (RecordImpact(c) < 0.0 <==> c < 0.0)
    ensures RecordImpact(-c) == -RecordImpact(c)
    ensures c <= d ==> RecordImpact(c) <= RecordImpact(d)
  {
  }

  /** A trade's impact on one manager: the raw power, grade and record
      changes, their scaled versions, and the equal-thirds combination. */
  datatype TradeImpact = TradeImpact(power: real, grade: real, record: real,
                                     normalizedPower: real, normalizedGrade: real, normalizedRecord: real,
                                     combined: real)

  /** The impact of power and grade changes p and g. */
  function CombineImpacts(p: real, g: real): TradeImpact
  {
    var record := RecordImpact((p + g) / 2.0);
    var np, ng, nr := p * 0.5, g * 2.0, record * 20.0;
    TradeImpact(p, g, record, np, ng, nr, (np + ng + nr) / 3.0)
  }

  /** A manager's trade impact in `week`: the one-week changes of the power
      rating and of the roster grade, each 0.0 when missing. */
  function ImprovedTradeImpact(power: map<string, PowerRankings.TeamPower>, grades: map<string, Series>,
                               manager: string, week: int): TradeImpact
  {
    var p := if manager in power then WeekDelta(Ratings(power[manager]), week) else 0.0;
    var g := if manager in grades then WeekDelta(grades[manager], week) else 0.0;
    CombineImpacts(p, g)
  }

  /** The combined impact never falls when power and grade changes rise, is
      odd, is positive when both changes are non-negative and one positive,
      and is 0.0 when nothing changed. */
  lemma CombineImpactsSpec(p1: real, g1: real, p2: real, g2: real)
    ensures p1 <= p2 && g1 <= g2 ==> CombineImpacts(p1, g1).combined <= CombineImpacts(p2, g2).combined
    ensures CombineImpacts(-p1, -g1).combined == -CombineImpacts(p1, g1).combined
    ensures p1 >= 0.0 && g1 >= 0.0 && p1 + g1 > 0.0 ==> CombineImpacts(p1, g1).combined > 0.0
    ensures CombineImpacts(0.0, 0.0) == TradeImpact(0.0, 0.0, 0.0, 0.0, 0.0, 0.0, 0.0)
  {
    RecordImpactSpec((p1 + g1) / 2.0, (p2 + g2) / 2.0);
    assert (-p1 + -g1) / 2.0 == -((p1 + g1) / 2.0);
  }

  /** A manager without data in either series, or trading in a week whose
      predecessor is missing from both, has no impact at all. */
  lemma TradeImpactMissing(power: map<string, PowerRankings.TeamPower>, grades: map<string, Series>,
                           manager: string, week: int)
    requires manager !in power || week - 1 !in Ratings(power[manager])
    requires manager !in grades || week - 1 !in grades[manager]
    ensures ImprovedTradeImpact(power, grades, manager, week) == TradeImpact(0.0, 0.0, 0.0, 0.0, 0.0, 0.0, 0.0)
  {
    assert RecordImpact(0.0) == 0.0;
  }

  /** How significant a trade is, by the size of its impact. */
  datatype Significance = Critical | Major | Moderate | Minor | Minimal

  /** Critical from |x| = 15, Major from 8, Moderate from 3, Minor from 1. */
  function CategorizeTradeSignificance(x: real): Significance
  {
    var m := if x < 0.0 then -x else x;
    if m >= 15.0 then Critical
    else if m >= 8.0 then Major
    else if m >= 3.0 then Moderate
    else if m >= 1.0 then Minor
    else Minimal
  }

  function SignificanceRank(s: Significance): nat
  {
    match s
    case Minimal => 0
    case Minor => 1
    case Moderate => 2
    case Major => 3
    case Critical => 4
  }

  /** The category depends only on the size of the impact, and a larger
      impact is never less significant. */
  lemma SignificanceSpec(x: real, y: real)
    ensures CategorizeTradeSignificance(-x) == CategorizeTradeSignificance(x)
    ensures (if x < 0.0 then -x else x) <= (if y < 0.0 then -y else y) ==>
      SignificanceRank(CategorizeTradeSignificance(x)) <= SignificanceRank(CategorizeTradeSignificance(y))
  {
  }

  // ---------------------------------------------------------------- transactions

  /** One transaction: its type (None when the key is missing), the players
      added and dropped (player id → roster id, in dictionary order), and
      the roster ids involved. */
  datatype Transaction = Transaction(kind: Option<string>, adds: seq<(string, int)>, drops: seq<(string, int)>,
                                     rosterIds: seq<int>)

  /** One entry of the week → transactions dictionary, its key already read
      as a week number; a null or non-dictionary transaction is None. */
  datatype WeekTransactions = WeekTransactions(week: int, transactions: seq<Option<Transaction>>)

  /** What both passes look up: the weekly power data, the weekly roster
      grades, the roster → manager map, the user directory and the player
      database. */
  datatype League = League(power: map<string, PowerRankings.TeamPower>, grades: map<string, Series>,
                           rosterToManager: map<int, string>, users: map<string, User>,
                           players: map<string, PlayerInfo>)

  /** A manager's display name, else "Manager <id>". */
  function ManagerName(users: map<string, User>, manager: string): string
    requires manager in users
  {
    users[manager].displayName.GetOr("Manager " + manager)
  }

  /** The manager of a roster, when the roster maps to a user of the directory. */
  function Resolve(league: League, rosterId: int): (m: Option<string>)
    ensures m.Some? ==> m.value in league.users
  {
    if rosterId in league.rosterToManager && league.rosterToManager[rosterId] in league.users
    then Some(league.rosterToManager[rosterId]) else None
  }

  /** The names of the players an add or drop list moves to or from roster
      `rosterId`, in list order. */
  function PlayersFor(moves: seq<(string, int)>, rosterId: int, players: map<string, PlayerInfo>): seq<string>
  {
    if |moves| == 0 then []
    else
      var last := moves[|moves| - 1];
      PlayersFor(moves[..|moves| - 1], rosterId, players) + if last.1 == rosterId then [PlayerName(last.0, players)] else []
  }

  /** How many moves name roster `rosterId`. */
  function MovesFor(moves: seq<(string, int)>, rosterId: int): nat
  {
    if |moves| == 0 then 0
    else MovesFor(moves[..|moves| - 1], rosterId) + if moves[|moves| - 1].1 == rosterId then 1 else 0
  }

  /** A roster's list names one player per move to it, each the name of a
      move's player; and when every move goes to one of two rosters, the two
      lists together name every move once. */
  lemma {:induction false} PlayersForSpec(moves: seq<(string, int)>, a: int, b: int, players: map<string, PlayerInfo>)
    ensures |PlayersFor(moves, a, players)| == MovesFor(moves, a)
    ensures forall n :: n in PlayersFor(moves, a, players) ==>
      exists k :: 0 <= k < |moves| && moves[k].1 == a && n == PlayerName(moves[k].0, players)
    ensures a != b && (forall k :: 0 <= k < |moves| ==> moves[k].1 == a || moves[k].1 == b) ==>
      MovesFor(moves, a) + MovesFor(moves, b) == |moves|
  {
    if |moves| > 0 {
      var init := moves[..|moves| - 1];
      PlayersForSpec(init, a, b, players);
      forall n | n in PlayersFor(moves, a, players)
        ensures exists k :: 0 <= k < |moves| && moves[k].1 == a && n == PlayerName(moves[k].0, players)
      {
        if n in PlayersFor(init, a, players) {
          var k :| 0 <= k < |init| && init[k].1 == a && n == PlayerName(init[k].0, players);
          assert moves[k] == init[k];
        } else {
          assert moves[|moves| - 1].1 == a && n == PlayerName(moves[|moves| - 1].0, players);
        }
      }
      if a != b && (forall k :: 0 <= k < |moves| ==> moves[k].1 == a || moves[k].1 == b) {
        assert forall k :: 0 <= k < |init| ==> init[k] == moves[k];
      }
    }
  }

  /** What one side of a trade got and gave up. */
  datatype Party = Party(name: string, rosterId: int, acquired: seq<string>, gaveUp: seq<string>)

  function PartyOf(t: Transaction, rosterId: int, manager: string, league: League): Party
    requires manager in league.users
  {
    Party(ManagerName(league.users, manager), rosterId,
          PlayersFor(t.adds, rosterId, league.players), PlayersFor(t.drops, rosterId, league.players))
  }

  /** The parties of a trade, keyed by manager id in the order first met; a
      manager met twice keeps the later roster's party. Rosters that do not
      resolve are passed over. */
  function Parties(t: Transaction, ids: seq<int>, league: League): seq<(string, Party)>
  {
    if |ids| == 0 then []
    else
      var ps := Parties(t, ids[..|ids| - 1], league);
      var id := ids[|ids| - 1];
      match Resolve(league, id)
      case None => ps
      case Some(m) => Put(ps, m, PartyOf(t, id, m, league))
  }

  /** One record per trading party. */
  datatype TradeRecord = TradeRecord(week: int, managerId: string, managerName: string, otherManager: string,
                                     acquired: seq<string>, gaveUp: seq<string>,
                                     otherAcquired: seq<string>, otherGaveUp: seq<string>, impact: TradeImpact)

  function TradeRecordOf(me: (string, Party), other: (string, Party), week: int, league: League): TradeRecord
  {
    TradeRecord(week, me.0, me.1.name, other.1.name, me.1.acquired, me.1.gaveUp, other.1.acquired, other.1.gaveUp,
                ImprovedTradeImpact(league.power, league.grades, me.0, week))
  }

  /** Whether a transaction is a two-team trade, before its managers are resolved. */
  predicate TwoTeamTrade(t: Transaction)
  {
    t.kind == Some("trade") && |t.rosterIds| == 2
  }

  /** The records of one transaction: none unless it is a two-team trade
      whose rosters resolve to two different managers; then one record per
      party, naming the other party. */
  function TradeRecords(t: Transaction, week: int, league: League): seq<TradeRecord>
  {
    if !TwoTeamTrade(t) then []
    else
      var ps := Parties(t, t.rosterIds, league);
      if |ps| != 2 then [] else [TradeRecordOf(ps[0], ps[1], week, league), TradeRecordOf(ps[1], ps[0], week, league)]
  }

  function TradesInWeek(ts: seq<Option<Transaction>>, week: int, league: League): seq<TradeRecord>
  {
    if |ts| == 0 then []
    else
      TradesInWeek(ts[..|ts| - 1], week, league) +
      match ts[|ts| - 1] case None => [] case Some(t) => TradeRecords(t, week, league)
  }

  /** The trade records of a season, week by week in dictionary order. */
  function RealTrades(data: seq<WeekTransactions>, league: League): seq<TradeRecord>
  {
    if |data| == 0 then []
    else RealTrades(data[..|data| - 1], league) + TradesInWeek(data[|data| - 1].transactions, data[|data| - 1].week, league)
  }

  /** For a two-team trade the parties are its two rosters' managers in
      roster order, and there are two of them exactly when both rosters
      resolve, to different managers. */
  lemma PartiesOfTwo(t: Transaction, league: League)
    requires |t.rosterIds| == 2
    ensures var ps := Parties(t, t.rosterIds, league);
      var m0, m1 := Resolve(league, t.rosterIds[0]), Resolve(league, t.rosterIds[1]);
      (|ps| == 2 <==> m0.Some? && m1.Some? && m0.value != m1.value) &&
      (|ps| == 2 ==> ps[0] == (m0.value, PartyOf(t, t.rosterIds[0], m0.value, league)) &&
                     ps[1] == (m1.value, PartyOf(t, t.rosterIds[1], m1.value, league)))
  {
    var ids := t.rosterIds;
    assert ids[..1][..0] == [] && ids[..2][..1] == ids[..1] && ids[..2] == ids;
    var m0, m1 := Resolve(league, ids[0]), Resolve(league, ids[1]);
    var p1 := Parties(t, ids[..1], league);
    var p2 := Parties(t, ids, league);
    assert ids[..1][0] == ids[0] && Parties(t, ids[..1][..0], league) == [];
    if m0.Some? {
      var q0 := PartyOf(t, ids[0], m0.value, league);
      assert !HasKey<Party>([], m0.value);
      assert Put([], m0.value, q0) == [(m0.value, q0)];
    }
    assert p1 == if m0.Some? then [(m0.value, PartyOf(t, ids[0], m0.value, league))] else [];
    if m1.Some? {
      var q := (m1.value, PartyOf(t, ids[1], m1.value, league));
      assert p2 == Put(p1, m1.value, q.1);
      if m0.Some? && m0.value == m1.value {
        assert HasKey(p1, m1.value) by { assert p1[0].0 == m1.value; }
      } else {
        assert !HasKey(p1, m1.value);
        assert p2 == p1 + [q];
      }
    } else {
      assert p2 == p1;
    }
  }

  /** Two records are partners: the same week, different managers, each
      naming the other and listing the other's moves. */
  predicate Partners(a: TradeRecord, b: TradeRecord)
  {
    a.week == b.week && a.managerId != b.managerId &&
    a.otherManager == b.managerName && b.otherManager == a.managerName &&
    a.otherAcquired == b.acquired && a.otherGaveUp == b.gaveUp &&
    b.otherAcquired == a.acquired && b.otherGaveUp == a.gaveUp
  }

  /** Records come in partner pairs. */
  ghost predicate Paired(rs: seq<TradeRecord>)
  {
    |rs| % 2 == 0 && forall k :: 0 <= k < |rs| / 2 ==> Partners(rs[2 * k], rs[2 * k + 1])
  }

  /** A transaction yields two partner records exactly when it is a two-team
      trade whose rosters resolve to different managers, and none otherwise;
      each record lists what its manager's roster received and sent. */
  lemma TradeRecordsSpec(t: Transaction, week: int, league: League)
    ensures var rs := TradeRecords(t, week, league);
      (|rs| == 2 <==> TwoTeamTrade(t) && Resolve(league, t.rosterIds[0]).Some? && Resolve(league, t.rosterIds[1]).Some? &&
                      Resolve(league, t.rosterIds[0]) != Resolve(league, t.rosterIds[1])) &&
      (|rs| == 0 || |rs| == 2) && Paired(rs)
    ensures var rs := TradeRecords(t, week, league);
      |rs| == 2 ==>
        rs[0].acquired == PlayersFor(t.adds, t.rosterIds[0], league.players) &&
        rs[0].gaveUp == PlayersFor(t.drops, t.rosterIds[0], league.players) &&
        rs[1].acquired == PlayersFor(t.adds, t.rosterIds[1], league.players) &&
        rs[1].gaveUp == PlayersFor(t.drops, t.rosterIds[1], league.players)
  {
    if TwoTeamTrade(t) {
      PartiesOfTwo(t, league);
    }
  }

  /** Joining paired record lists keeps them paired. */
  lemma PairedAppend(a: seq<TradeRecord>, b: seq<TradeRecord>)
    requires Paired(a) && Paired(b)
    ensures Paired(a + b)
  {
    var r := a + b;
    forall k | 0 <= k < |r| / 2 ensures Partners(r[2 * k], r[2 * k + 1]) {
      if k < |a| / 2 {
        assert r[2 * k] == a[2 * k] && r[2 * k + 1] == a[2 * k + 1];
      } else {
        var j := k - |a| / 2;
        assert r[2 * k] == b[2 * j] && r[2 * k + 1] == b[2 * j + 1];
      }
    }
  }

  lemma {:induction false} TradesInWeekPaired(ts: seq<Option<Transaction>>, week: int, league: League)
    ensures Paired(TradesInWeek(ts, week, league))
  {
    if |ts| > 0 {
      TradesInWeekPaired(ts[..|ts| - 1], week, league);
      match ts[|ts| - 1] {
        case None =>
          assert TradesInWeek(ts, week, league) == TradesInWeek(ts[..|ts| - 1], week, league) + [];
        case Some(t) =>
          TradeRecordsSpec(t, week, league);
      }
      PairedAppend(TradesInWeek(ts[..|ts| - 1], week, league),
                   match ts[|ts| - 1] case None => [] case Some(t) => TradeRecords(t, week, league));
    }
  }

  /** Every trade of the season yields its two records side by side. */
  lemma {:induction false} RealTradesPaired(data: seq<WeekTransactions>, league: League)
    ensures Paired(RealTrades(data, league))
  {
    if |data| > 0 {
      RealTradesPaired(data[..|data| - 1], league);
      TradesInWeekPaired(data[|data| - 1].transactions, data[|data| - 1].week, league);
      PairedAppend(RealTrades(data[..|data| - 1], league),
                   TradesInWeek(data[|data| - 1].transactions, data[|data| - 1].week, league));
    }
  }

  /** The other party as the code as written picks it: the first party whose
      display name differs from `me`'s; None when there is none (Python's
      `next` then raises StopIteration, aborting the whole pass). */
  function OtherByName(ps: seq<(string, Party)>, me: Party): Option<Party>
  {
    if |ps| == 0 then None
    else if ps[0].1.name != me.name then Some(ps[0].1)
    else OtherByName(ps[1..], me)
  }

  /** Picking by name agrees with picking the other entry while the two
      managers' display names differ; when they are equal there is no other
      party by name, so two managers sharing a display name (or both without
      one, as "Manager <id>" cannot collide) end the pass. */
  lemma OtherByNameAsWritten(ps: seq<(string, Party)>)
    requires |ps| == 2
    ensures ps[0].1.name != ps[1].1.name ==>
      OtherByName(ps, ps[0].1) == Some(ps[1].1) && OtherByName(ps, ps[1].1) == Some(ps[0].1)
    ensures ps[0].1.name == ps[1].1.name ==> OtherByName(ps, ps[0].1) == None && OtherByName(ps, ps[1].1) == None
  {
    assert ps[1..][1..] == [];
    assert ps[1..][0] == ps[1];
    assert OtherByName(ps[1..][1..], ps[0].1) == None && OtherByName(ps[1..][1..], ps[1].1) == None;
  }

  /** Two managers who share the display name "Sam" trade: no other party is
      found by name. */
  lemma SameNameTrade()
    ensures var ps := [("u1", Party("Sam", 1, ["Player_10"], ["Player_20"])), ("u2", Party("Sam", 2, ["Player_20"], ["Player_10"]))];
      OtherByName(ps, ps[0].1) == None
  {
    var ps := [("u1", Party("Sam", 1, ["Player_10"], ["Player_20"])), ("u2", Party("Sam", 2, ["Player_20"], ["Player_10"]))];
    OtherByNameAsWritten(ps);
  }

  // ---------------------------------------------------------------- waiver and free-agent pickups

  /** One record per pickup. */
  datatype WaiverRecord = WaiverRecord(week: int, managerId: string, managerName: string,
                                       playerAdded: string, playerDropped: string,
                                       power: real, grade: real, combined: real, kind: string)

  const NoDrop := "None (roster space)"

  /** The name of the first player dropped from roster `rosterId`, if any. */
  function FirstDrop(drops: seq<(string, int)>, rosterId: int, players: map<string, PlayerInfo>): Option<string>
  {
    if |drops| == 0 then None
    else if drops[0].1 == rosterId then Some(PlayerName(drops[0].0, players))
    else FirstDrop(drops[1..], rosterId, players)
  }

  /** The record of adding `add` (player id, roster id) for manager `m`. */
  function PickupRecord(t: Transaction, add: (string, int), m: string, week: int, league: League): WaiverRecord
    requires m in league.users
  {
    var found := FirstDrop(t.drops, add.1, league.players).GetOr("");
    var dropped := if found == "" then NoDrop else found;
    var p := PowerImpact(league.power, m, week);
    var g := GradeImpact(league.grades, m, week);
    WaiverRecord(week, m, ManagerName(league.users, m), PlayerName(add.0, league.players), dropped,
                 p, g, p + g, t.kind.GetOr("unknown"))
  }

  /** One record per add whose roster resolves to a known manager, in add order. */
  function Pickups(t: Transaction, adds: seq<(string, int)>, week: int, league: League): seq<WaiverRecord>
  {
    if |adds| == 0 then []
    else
      var add := adds[|adds| - 1];
      Pickups(t, adds[..|adds| - 1], week, league) +
      match Resolve(league, add.1) case None => [] case Some(m) => [PickupRecord(t, add, m, week, league)]
  }

  /** The records of one transaction: none for a trade or a transaction
      without adds. */
  function WaiverRecords(t: Transaction, week: int, league: League): seq<WaiverRecord>
  {
    if t.kind == Some("trade") || |t.adds| == 0 then [] else Pickups(t, t.adds, week, league)
  }

  function WaiversInWeek(ts: seq<Option<Transaction>>, week: int, league: League): seq<WaiverRecord>
  {
    if |ts| == 0 then []
    else
      WaiversInWeek(ts[..|ts| - 1], week, league) +
      match ts[|ts| - 1] case None => [] case Some(t) => WaiverRecords(t, week, league)
  }

  /** The pickup records of a season, week by week in dictionary order. */
  function WaiverPickups(data: seq<WeekTransactions>, league: League): seq<WaiverRecord>
  {
    if |data| == 0 then []
    else WaiverPickups(data[..|data| - 1], league) + WaiversInWeek(data[|data| - 1].transactions, data[|data| - 1].week, league)
  }

  /** How many adds resolve to a known manager. */
  function Resolved(adds: seq<(string, int)>, league: League): nat
  {
    if |adds| == 0 then 0
    else Resolved(adds[..|adds| - 1], league) + if Resolve(league, adds[|adds| - 1].1).Some? then 1 else 0
  }

  /** The dropped player is "None (roster space)" exactly when nothing was
      dropped from the adding roster, and otherwise the first player dropped
      from it; the combined impact is the sum of the two impacts. */
  lemma PickupRecordSpec(t: Transaction, add: (string, int), m: string, week: int, league: League)
    requires m in league.users
    ensures var r := PickupRecord(t, add, m, week, league);
      (FirstDrop(t.drops, add.1, league.players).None? ==> r.playerDropped == NoDrop) &&
      (FirstDrop(t.drops, add.1, league.players).Some? ==> r.playerDropped == FirstDrop(t.drops, add.1, league.players).value) &&
      r.combined == r.power + r.grade && (t.kind != Some("trade") ==> r.kind != "trade")
  {
    FirstDropSpec(t.drops, add.1, league.players);
  }

  /** The first drop is the name of the earliest drop from the roster, and
      is never the empty name. */
  lemma {:induction false} FirstDropSpec(drops: seq<(string, int)>, rosterId: int, players: map<string, PlayerInfo>)
    ensures FirstDrop(drops, rosterId, players).None? <==> forall k :: 0 <= k < |drops| ==> drops[k].1 != rosterId
    ensures FirstDrop(drops, rosterId, players).Some? ==> (FirstDrop(drops, rosterId, players).value != "" &&
      exists k :: 0 <= k < |drops| && drops[k].1 == rosterId &&
        FirstDrop(drops, rosterId, players).value == PlayerName(drops[k].0, players) &&
        forall j :: 0 <= j < k ==> drops[j].1 != rosterId)
  {
    if |drops| > 0 {
      FirstDropSpec(drops[1..], rosterId, players);
      if drops[0].1 == rosterId {
        PlayerNameSpec(drops[0].0, players);
      } else if FirstDrop(drops, rosterId, players).Some? {
        var k :| 0 <= k < |drops[1..]| && drops[1..][k].1 == rosterId &&
          FirstDrop(drops, rosterId, players).value == PlayerName(drops[1..][k].0, players) &&
          forall j :: 0 <= j < k ==> drops[1..][j].1 != rosterId;
        assert drops[k + 1] == drops[1..][k];
        assert forall j :: 1 <= j < k + 1 ==> drops[j] == drops[1..][j - 1];
      }
      if forall k :: 0 <= k < |drops[1..]| ==> drops[1..][k].1 != rosterId {
        assert forall k :: 1 <= k < |drops| ==> drops[k] == drops[1..][k - 1];
      }
    }
  }

  /** A transaction yields one record per resolving add unless it is a trade
      or has no adds; every record is for a known manager and is not a trade. */
  lemma {:induction false} PickupsSpec(t: Transaction, adds: seq<(string, int)>, week: int, league: League)
    ensures |Pickups(t, adds, week, league)| == Resolved(adds, league)
    ensures forall r :: r in Pickups(t, adds, week, league) ==>
      r.managerId in league.users && r.managerName == ManagerName(league.users, r.managerId) && r.week == week &&
      r.combined == r.power + r.grade && r.kind == t.kind.GetOr("unknown")
  {
    if |adds| > 0 {
      PickupsSpec(t, adds[..|adds| - 1], week, league);
    }
  }

  /** Trades and transactions without adds yield no pickup records. */
  lemma WaiverRecordsSpec(t: Transaction, week: int, league: League)
    ensures t.kind == Some("trade") || |t.adds| == 0 ==> WaiverRecords(t, week, league) == []
    ensures t.kind != Some("trade") ==> |WaiverRecords(t, week, league)| == Resolved(t.adds, league)
    ensures forall r :: r in WaiverRecords(t, week, league) ==> r.kind != "trade" && r.managerId in league.users
  {
    if t.kind != Some("trade") && |t.adds| > 0 {
      PickupsSpec(t, t.adds, week, league);
    }
  }

  // ---------------------------------------------------------------- the passes

  /** The players moved to or from a roster, gathered move by move. */
  method CollectPlayers(moves: seq<(string, int)>, rosterId: int, players: map<string, PlayerInfo>)
    returns (names: seq<string>)
    ensures names == PlayersFor(moves, rosterId, players)
  {
    names := [];
    for i := 0 to |moves|
      invariant names == PlayersFor(moves[..i], rosterId, players)
    {
      assert moves[..i + 1][..i] == moves[..i];
      if moves[i].1 == rosterId {
        names := names + [PlayerName(moves[i].0, players)];
      }
    }
    assert moves[..|moves|] == moves;
  }

  /** The parties of a trade, keyed by manager, roster id by roster id. */
  method CollectParties(t: Transaction, league: League) returns (parties: seq<(string, Party)>)
    ensures parties == Parties(t, t.rosterIds, league)
  {
    parties := [];
    for i := 0 to |t.rosterIds|
      invariant parties == Parties(t, t.rosterIds[..i], league)
    {
      var id := t.rosterIds[i];
      assert t.rosterIds[..i + 1][..i] == t.rosterIds[..i];
      if id in league.rosterToManager {
        var m := league.rosterToManager[id];
        if m in league.users {
          var acquired := CollectPlayers(t.adds, id, league.players);
          var gaveUp := CollectPlayers(t.drops, id, league.players);
          parties := Put(parties, m, Party(ManagerName(league.users, m), id, acquired, gaveUp));
        }
      }
    }
    assert t.rosterIds[..|t.rosterIds|] == t.rosterIds;
  }

  /** The records of one transaction, one per party of a two-team trade. */
  method TradeRecordsOf(t: Transaction, week: int, league: League) returns (records: seq<TradeRecord>)
    ensures records == TradeRecords(t, week, league)
  {
    records := [];
    if t.kind != Some("trade") || |t.rosterIds| != 2 {
      return;
    }
    var parties := CollectParties(t, league);
    if |parties| != 2 {
      return;
    }
    for k := 0 to 2
      invariant |records| == k
      invariant forall j :: 0 <= j < k ==> records[j] == TradeRecordOf(parties[j], parties[1 - j], week, league)
    {
      records := records + [TradeRecordOf(parties[k], parties[1 - k], week, league)];
    }
  }

  /** The trade records of one week's transactions. */
  method TradesOfWeek(ts: seq<Option<Transaction>>, week: int, league: League) returns (records: seq<TradeRecord>)
    ensures records == TradesInWeek(ts, week, league)
  {
    records := [];
    for j := 0 to |ts|
      invariant records == TradesInWeek(ts[..j], week, league)
    {
      assert ts[..j + 1][..j] == ts[..j];
      match ts[j] {
        case None =>
        case Some(t) =>
          var more := TradeRecordsOf(t, week, league);
          records := records + more;
      }
    }
    assert ts[..|ts|] == ts;
  }

  /** `analyze_real_trades_only`: the trade records of a season, which come
      in partner pairs. */
  method AnalyzeRealTradesOnly(data: seq<WeekTransactions>, league: League) returns (impacts: seq<TradeRecord>)
    ensures impacts == RealTrades(data, league)
    ensures Paired(impacts)
  {
    impacts := [];
    for i := 0 to |data|
      invariant impacts == RealTrades(data[..i], league)
    {
      assert data[..i + 1][..i] == data[..i];
      var records := TradesOfWeek(data[i].transactions, data[i].week, league);
      impacts := impacts + records;
    }
    assert data[..|data|] == data;
    RealTradesPaired(data, league);
  }

  /** The first player dropped from a roster, searched until found. */
  method FindDrop(drops: seq<(string, int)>, rosterId: int, players: map<string, PlayerInfo>)
    returns (dropped: Option<string>)
    ensures dropped == FirstDrop(drops, rosterId, players)
  {
    dropped := None;
    var i := 0;
    while i < |drops|
      invariant 0 <= i <= |drops| && dropped == None
      invariant FirstDrop(drops[i..], rosterId, players) == FirstDrop(drops, rosterId, players)
    {
      if drops[i].1 == rosterId {
        dropped := Some(PlayerName(drops[i].0, players));
        break;
      }
      assert drops[i..][1..] == drops[i + 1..];
      i := i + 1;
    }
  }

  /** The record of one add, when its roster resolves to a known manager. */
  method PickupOne(t: Transaction, add: (string, int), week: int, league: League, kind: string)
    returns (records: seq<WaiverRecord>)
    requires kind == t.kind.GetOr("unknown")
    ensures records == match Resolve(league, add.1) case None => [] case Some(m) => [PickupRecord(t, add, m, week, league)]
  {
    records := [];
    var (player, rosterId) := add;
    if rosterId in league.rosterToManager {
      var m := league.rosterToManager[rosterId];
      if m in league.users {
        var found := FindDrop(t.drops, rosterId, league.players);
        var dropped := found.GetOr("");
        if dropped == "" {
          dropped := NoDrop;
        }
        var power := PowerImpact(league.power, m, week);
        var grade := GradeImpact(league.grades, m, week);
        records := [WaiverRecord(week, m, ManagerName(league.users, m), PlayerName(player, league.players),
                                 dropped, power, grade, power + grade, kind)];
        assert Resolve(league, add.1) == Some(m);
        assert records == [PickupRecord(t, add, m, week, league)];
      }
    }
  }

  /** The pickup records of one transaction. */
  method PickupsOf(t: Transaction, week: int, league: League) returns (records: seq<WaiverRecord>)
    ensures records == WaiverRecords(t, week, league)
  {
    records := [];
    var kind := t.kind.GetOr("unknown");
    if kind == "trade" || |t.adds| == 0 {
      return;
    }
    for i := 0 to |t.adds|
      invariant records == Pickups(t, t.adds[..i], week, league)
    {
      assert t.adds[..i + 1][..i] == t.adds[..i];
      var one := PickupOne(t, t.adds[i], week, league, kind);
      records := records + one;
    }
    assert t.adds[..|t.adds|] == t.adds;
  }

  /** The pickup records of one week's transactions. */
  method WaiversOfWeek(ts: seq<Option<Transaction>>, week: int, league: League) returns (records: seq<WaiverRecord>)
    ensures records == WaiversInWeek(ts, week, league)
  {
    records := [];
    for j := 0 to |ts|
      invariant records == WaiversInWeek(ts[..j], week, league)
    {
      assert ts[..j + 1][..j] == ts[..j];
      match ts[j] {
        case None =>
        case Some(t) =>
          var more := PickupsOf(t, week, league);
          records := records + more;
      }
    }
    assert ts[..|ts|] == ts;
  }

  /** `analyze_waiver_pickups`: the pickup records of a season. */
  method AnalyzeWaiverPickups(data: seq<WeekTransactions>, league: League) returns (impacts: seq<WaiverRecord>)
    ensures impacts == WaiverPickups(data, league)
  {
    impacts := [];
    for i := 0 to |data|
      invariant impacts == WaiverPickups(data[..i], league)
    {
      assert data[..i + 1][..i] == data[..i];
      var records := WaiversOfWeek(data[i].transactions, data[i].week, league);
      impacts := impacts + records;
    }
    assert data[..|data|] == data;
  }
}
