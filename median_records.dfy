/** Median-based records: for every tracked manager, the head-to-head record,
    the record against each week's league median score, and the two added
    together. */
module MedianRecords {
  import opened Wrappers
  import opened Stats
  import opened Dicts
  import opened Matchups

  /** Head-to-head wins, losses and ties. */
  datatype HeadToHead = HeadToHead(wins: nat, losses: nat, ties: nat)

  /** A wins/losses count; the median and combined records keep no ties. */
  datatype WinLoss = WinLoss(wins: nat, losses: nat)

  /** A week's result against the median ('W' or 'L'). */
  datatype Outcome = W | L

  /** One head-to-head result. */
  datatype Result = Win | Loss | Tie

  /** A manager's entry: display name, the three records, the score of every
      week they scored in, and their result against the median by week. */
  datatype TeamRecord = TeamRecord(
    name: string,
    regular: HeadToHead,
    median: WinLoss,
    combined: WinLoss,
    weeklyScores: map<int, real>,
    weeklyMedianResults: map<int, Outcome>)

  function FreshRecord(name: string): TeamRecord
  {
    TeamRecord(name, HeadToHead(0, 0, 0), WinLoss(0, 0), WinLoss(0, 0), map[], map[])
  }

  // ---------------------------------------------------------------- tracked managers

  /** A roster is tracked when both its owner id and its roster id are set. */
  predicate Tracked(r: Roster)
  {
    r.ownerId != "" && r.rosterId != 0
  }

  /** Some tracked roster belongs to `u`. */
  predicate OwnsTracked(rosters: seq<Roster>, u: string)
  {
    exists i :: 0 <= i < |rosters| && Tracked(rosters[i]) && rosters[i].ownerId == u
  }

  /** The user id → roster id dictionary, in insertion order; a user owning
      several tracked rosters keeps the position of the first and the id of
      the last. */
  function RosterIndex(rosters: seq<Roster>): seq<(string, int)>
  {
    if |rosters| == 0 then []
    else
      var prev := RosterIndex(rosters[..|rosters| - 1]);
      var r := rosters[|rosters| - 1];
      if Tracked(r) then Put(prev, r.ownerId, r.rosterId) else prev
  }

  /** One fresh record per tracked owner, named by the user directory. */
  function InitRecords(rosters: seq<Roster>, users: map<string, User>): map<string, TeamRecord>
  {
    if |rosters| == 0 then map[]
    else
      var prev := InitRecords(rosters[..|rosters| - 1], users);
      var r := rosters[|rosters| - 1];
      if Tracked(r) then prev[r.ownerId := FreshRecord(DisplayName(users, r.ownerId))] else prev
  }

  /** The index holds each user once, with set user and roster ids. */
  ghost predicate IndexOk(index: seq<(string, int)>)
  {
    DistinctKeys(index) && forall i :: 0 <= i < |index| ==> index[i].0 != "" && index[i].1 != 0
  }

  /** The index entry (u, rid) is present. */
  predicate HasEntry(index: seq<(string, int)>, u: string, rid: int)
  {
    exists i :: 0 <= i < |index| && index[i] == (u, rid)
  }

  /** The tracked managers are exactly the owners of tracked rosters; each
      starts from zero under their display name, and the index lists exactly
      them, each once. */
  lemma {:induction false} RostersSpec(rosters: seq<Roster>, users: map<string, User>)
    ensures IndexOk(RosterIndex(rosters))
    ensures forall u :: u in InitRecords(rosters, users) <==> HasKey(RosterIndex(rosters), u)
    ensures forall u :: HasKey(RosterIndex(rosters), u) <==> OwnsTracked(rosters, u)
    ensures forall u :: u in InitRecords(rosters, users) ==> InitRecords(rosters, users)[u] == FreshRecord(DisplayName(users, u))
  {
    if |rosters| > 0 {
      var front := rosters[..|rosters| - 1];
      var r := rosters[|rosters| - 1];
      RostersSpec(front, users);
      var prev := RosterIndex(front);
      forall u ensures OwnsTracked(rosters, u) <==> OwnsTracked(front, u) || (Tracked(r) && r.ownerId == u) {
        if OwnsTracked(front, u) {
          var i :| 0 <= i < |front| && Tracked(front[i]) && front[i].ownerId == u;
          assert rosters[i] == front[i];
        }
        if OwnsTracked(rosters, u) && !(Tracked(r) && r.ownerId == u) {
          var i :| 0 <= i < |rosters| && Tracked(rosters[i]) && rosters[i].ownerId == u;
          assert front[i] == rosters[i];
        }
      }
      if Tracked(r) {
        PutDistinct(prev, r.ownerId, r.rosterId);
        PutEntries(prev, r.ownerId, r.rosterId);
        forall u | u != r.ownerId ensures HasKey(RosterIndex(rosters), u) <==> HasKey(prev, u) {
          PutOther(prev, r.ownerId, r.rosterId, u);
        }
      }
    }
  }

  /** Storing a set user id with a set roster id keeps every entry's ids set. */
  lemma PutEntries(d: seq<(string, int)>, k: string, v: int)
    requires forall i :: 0 <= i < |d| ==> d[i].0 != "" && d[i].1 != 0
    requires k != "" && v != 0
    ensures var r := Put(d, k, v); forall i :: 0 <= i < |r| ==> r[i].0 != "" && r[i].1 != 0
  {
    if HasKey(d, k) {
      var i := IndexOf(d, k);
      assert Put(d, k, v) == d[i := (k, v)];
    }
  }

  // ---------------------------------------------------------------- resolving roster ids

  /** The first user, in insertion order, whose roster id is `rid`, or ""
      when there is none (the lookup stops at the first match). */
  function FirstUser(index: seq<(string, int)>, rid: int): string
  {
    if |index| == 0 then ""
    else if index[0].1 == rid then index[0].0
    else FirstUser(index[1..], rid)
  }

  /** No entry of the index has roster id `rid`. */
  predicate NoEntryFor(index: seq<(string, int)>, rid: int)
  {
    forall i :: 0 <= i < |index| ==> index[i].1 != rid
  }

  /** The lookup finds a user exactly when some entry has the roster id, and
      then finds the owner of that entry. */
  lemma {:induction false} FirstUserSpec(index: seq<(string, int)>, rid: int)
    requires IndexOk(index)
    ensures FirstUser(index, rid) == "" <==> NoEntryFor(index, rid)
    ensures FirstUser(index, rid) != "" ==> HasEntry(index, FirstUser(index, rid), rid)
  {
    if |index| > 0 && index[0].1 != rid {
      var rest := index[1..];
      assert IndexOk(rest) by {
        forall i, j | 0 <= i < j < |rest| ensures rest[i].0 != rest[j].0 {
          assert rest[i] == index[i + 1] && rest[j] == index[j + 1];
        }
      }
      FirstUserSpec(rest, rid);
      if FirstUser(rest, rid) != "" {
        var i :| 0 <= i < |rest| && rest[i] == (FirstUser(rest, rid), rid);
        assert index[i + 1] == rest[i];
      }
      assert NoEntryFor(index, rid) <==> NoEntryFor(rest, rid) by {
        if !NoEntryFor(index, rid) {
          var i :| 0 <= i < |index| && index[i].1 == rid;
          assert rest[i - 1] == index[i];
        }
      }
    } else if |index| > 0 {
      assert index[0] == (index[0].0, rid);
    }
  }

  /** The owners of the two rosters of a pairing, scanning the whole index
      with an if / else-if, so that the last match counts and an entry
      matching the first roster id is never taken for the second. */
  function PairUsers(index: seq<(string, int)>, id1: int, id2: int): (string, string)
  {
    if |index| == 0 then ("", "")
    else
      var (u1, u2) := PairUsers(index[..|index| - 1], id1, id2);
      var (uid, rid) := index[|index| - 1];
      if rid == id1 then (uid, u2)
      else if rid == id2 then (u1, uid)
      else (u1, u2)
  }

  /** Each owner found has an entry for its roster id; the second is found
      only for a roster id different from the first; and the two owners
      found are different users. */
  lemma {:induction false} PairUsersSpec(index: seq<(string, int)>, id1: int, id2: int)
    requires IndexOk(index)
    ensures var (u1, u2) := PairUsers(index, id1, id2);
      (u1 != "" <==> !NoEntryFor(index, id1)) &&
      (u1 != "" ==> HasEntry(index, u1, id1)) &&
      (u2 != "" ==> id2 != id1 && HasEntry(index, u2, id2)) &&
      (u1 != "" && u2 != "" ==> u1 != u2)
  {
    if |index| > 0 {
      var front := index[..|index| - 1];
      var last := index[|index| - 1];
      assert IndexOk(front) by {
        forall i, j | 0 <= i < j < |front| ensures front[i].0 != front[j].0 {
          assert front[i] == index[i] && front[j] == index[j];
        }
      }
      PairUsersSpec(front, id1, id2);
      var (u1, u2) := PairUsers(index, id1, id2);
      var (f1, f2) := PairUsers(front, id1, id2);
      forall u, rid | HasEntry(front, u, rid) ensures HasEntry(index, u, rid) && u != last.0 {
        var i :| 0 <= i < |front| && front[i] == (u, rid);
        assert index[i] == front[i];
      }
      assert NoEntryFor(index, id1) <==> NoEntryFor(front, id1) && last.1 != id1 by {
        if !NoEntryFor(index, id1) && last.1 != id1 {
          var i :| 0 <= i < |index| && index[i].1 == id1;
          assert front[i] == index[i];
        }
      }
      assert HasEntry(index, last.0, last.1) by {
        assert index[|index| - 1] == last;
      }
    }
  }

  // ---------------------------------------------------------------- reading a week's lines

  /** What reading a week's lines produces: the list of resolved scores, the
      user → score dictionary, and the records with the week's scores stored. */
  datatype Collected = Collected(scores: seq<real>, data: seq<(string, real)>, records: map<string, TeamRecord>)

  /** Stores `points` as user `u`'s score for week `week`. */
  function SetScore(records: map<string, TeamRecord>, u: string, week: int, points: real): map<string, TeamRecord>
  {
    if u in records then records[u := records[u].(weeklyScores := records[u].weeklyScores[week := points])]
    else records
  }

  /** The lines read in order; a line whose roster id resolves to no user is skipped. */
  function Collect(ms: seq<Matchup>, index: seq<(string, int)>, records: map<string, TeamRecord>, week: int): Collected
  {
    if |ms| == 0 then Collected([], [], records)
    else
      var c := Collect(ms[..|ms| - 1], index, records, week);
      var m := ms[|ms| - 1];
      var u := FirstUser(index, m.rosterId);
      if u == "" then c
      else Collected(c.scores + [m.points], Put(c.data, u, m.points), SetScore(c.records, u, week, m.points))
  }

  // ---------------------------------------------------------------- head-to-head

  /** A record after one more result. */
  function Tally(h: HeadToHead, r: Result): HeadToHead
  {
    match r
    case Win => h.(wins := h.wins + 1)
    case Loss => h.(losses := h.losses + 1)
    case Tie => h.(ties := h.ties + 1)
  }

  /** Adds a head-to-head result to user `u`'s record. */
  function Credit(records: map<string, TeamRecord>, u: string, r: Result): map<string, TeamRecord>
  {
    if u in records then records[u := records[u].(regular := Tally(records[u].regular, r))] else records
  }

  /** The results of the two sides of a pairing with the given points: the
      higher scorer wins and the other loses; equal points tie. */
  function PairResult(points1: real, points2: real): (Result, Result)
  {
    if points1 > points2 then (Win, Loss)
    else if points2 > points1 then (Loss, Win)
    else (Tie, Tie)
  }

  /** One pairing: a group of exactly two lines whose owners both resolve
      credits each owner with their side's result. */
  function HeadToHeadStep(records: map<string, TeamRecord>, group: seq<Matchup>, index: seq<(string, int)>): map<string, TeamRecord>
  {
    if |group| != 2 then records
    else
      var (u1, u2) := PairUsers(index, group[0].rosterId, group[1].rosterId);
      if u1 == "" || u2 == "" then records
      else
        var (r1, r2) := PairResult(group[0].points, group[1].points);
        Credit(Credit(records, u1, r1), u2, r2)
  }

  /** The pairings `ids` in order. */
  function HeadToHeads(records: map<string, TeamRecord>, ms: seq<Matchup>, ids: seq<int>, index: seq<(string, int)>): map<string, TeamRecord>
  {
    if |ids| == 0 then records
    else HeadToHeadStep(HeadToHeads(records, ms, ids[..|ids| - 1], index), GroupOf(ms, ids[|ids| - 1]), index)
  }

  // ---------------------------------------------------------------- against the median

  /** Above the median wins, below loses, exactly at the median wins. */
  function MedianOutcome(score: real, median: real): Outcome
  {
    if score > median then W
    else if score < median then L
    else W
  }

  /** A record after its result against the median for week `week`. */
  function Judged(t: TeamRecord, score: real, median: real, week: int): TeamRecord
  {
    var o := MedianOutcome(score, median);
    var m := if o == W then WinLoss(t.median.wins + 1, t.median.losses) else WinLoss(t.median.wins, t.median.losses + 1);
    t.(median := m, weeklyMedianResults := t.weeklyMedianResults[week := o])
  }

  /** Adds user `u`'s result against the median for week `week`. */
  function Judge(records: map<string, TeamRecord>, u: string, score: real, median: real, week: int): map<string, TeamRecord>
  {
    if u in records then records[u := Judged(records[u], score, median, week)] else records
  }

  /** Every user of the week's dictionary judged against the median. */
  function JudgeAll(records: map<string, TeamRecord>, data: seq<(string, real)>, median: real, week: int): map<string, TeamRecord>
  {
    if |data| == 0 then records
    else
      var (u, score) := data[|data| - 1];
      Judge(JudgeAll(records, data[..|data| - 1], median, week), u, score, median, week)
  }

  // ---------------------------------------------------------------- the season

  /** One week: a week without lines changes nothing; otherwise its scores
      are stored, and only when at least two scores resolved are the
      head-to-head pairings and the median results recorded. */
  function ApplyWeek(records: map<string, TeamRecord>, wk: WeekMatchups, index: seq<(string, int)>): map<string, TeamRecord>
  {
    if |wk.matchups| == 0 then records
    else
      var c := Collect(wk.matchups, index, records, wk.week);
      if |c.scores| < 2 then c.records
      else
        var h := HeadToHeads(c.records, wk.matchups, GroupIds(wk.matchups), index);
        JudgeAll(h, c.data, Median(c.scores), wk.week)
  }

  /** The weeks in dictionary order. */
  function ProcessWeeks(records: map<string, TeamRecord>, weeks: seq<WeekMatchups>, index: seq<(string, int)>): map<string, TeamRecord>
  {
    if |weeks| == 0 then records
    else ApplyWeek(ProcessWeeks(records, weeks[..|weeks| - 1], index), weeks[|weeks| - 1], index)
  }

  /** The combined record: head-to-head plus median wins and losses; ties are left out. */
  function Combine(t: TeamRecord): TeamRecord
  {
    t.(combined := WinLoss(t.regular.wins + t.median.wins, t.regular.losses + t.median.losses))
  }

  /** The complete result. */
  function MedianRecordsOf(weeks: seq<WeekMatchups>, rosters: seq<Roster>, users: map<string, User>): map<string, TeamRecord>
  {
    var p := ProcessWeeks(InitRecords(rosters, users), weeks, RosterIndex(rosters));
    map u | u in p :: Combine(p[u])
  }

  // ---------------------------------------------------------------- what reading a week does

  /** Some line of the week resolves to user `u`. */
  predicate ScoredIn(ms: seq<Matchup>, index: seq<(string, int)>, u: string)
  {
    u != "" && exists k :: 0 <= k < |ms| && FirstUser(index, ms[k].rosterId) == u
  }

  /** Reading a week's lines keeps the tracked managers, and its dictionary
      holds each resolved user once: exactly the users some line resolves to. */
  lemma {:induction false} CollectUsers(ms: seq<Matchup>, index: seq<(string, int)>, records: map<string, TeamRecord>, week: int)
    ensures var c := Collect(ms, index, records, week);
      c.records.Keys == records.Keys &&
      DistinctKeys(c.data) &&
      forall u :: HasKey(c.data, u) <==> ScoredIn(ms, index, u)
  {
    if |ms| > 0 {
      var front := ms[..|ms| - 1];
      var m := ms[|ms| - 1];
      CollectUsers(front, index, records, week);
      var c := Collect(front, index, records, week);
      var u := FirstUser(index, m.rosterId);
      ScoredInStep(ms, index);
      if u != "" {
        PutDistinct(c.data, u, m.points);
        forall v | v != u ensures HasKey(Put(c.data, u, m.points), v) <==> HasKey(c.data, v) {
          PutOther(c.data, u, m.points, v);
        }
      }
    }
  }

  /** A user scored in the lines when they scored in all but the last, or
      the last resolves to them. */
  lemma ScoredInStep(ms: seq<Matchup>, index: seq<(string, int)>)
    requires |ms| > 0
    ensures var front := ms[..|ms| - 1];
      var u := FirstUser(index, ms[|ms| - 1].rosterId);
      forall v :: ScoredIn(ms, index, v) <==> ScoredIn(front, index, v) || (v != "" && v == u)
  {
    var front := ms[..|ms| - 1];
    var u := FirstUser(index, ms[|ms| - 1].rosterId);
    forall v ensures ScoredIn(ms, index, v) <==> ScoredIn(front, index, v) || (v != "" && v == u) {
      if ScoredIn(front, index, v) {
        var k :| 0 <= k < |front| && FirstUser(index, front[k].rosterId) == v;
        assert ms[k] == front[k];
      }
      if ScoredIn(ms, index, v) && v != u {
        var k :| 0 <= k < |ms| && FirstUser(index, ms[k].rosterId) == v;
        assert front[k] == ms[k];
      }
    }
  }

  /** A record after reading the week: the week's score stored when the
      user is in the week's dictionary. */
  function WithScore(t: TeamRecord, data: seq<(string, real)>, u: string, week: int): TeamRecord
  {
    if HasKey(data, u) then t.(weeklyScores := t.weeklyScores[week := Get(data, u)]) else t
  }

  /** Each resolved user gets the week's score stored, the last of their
      lines, and nothing else of any record changes. */
  lemma {:induction false} CollectRecords(ms: seq<Matchup>, index: seq<(string, int)>, records: map<string, TeamRecord>, week: int)
    ensures var c := Collect(ms, index, records, week);
      forall u :: u in records ==> u in c.records && c.records[u] == WithScore(records[u], c.data, u, week)
  {
    if |ms| > 0 {
      var front := ms[..|ms| - 1];
      var m := ms[|ms| - 1];
      CollectRecords(front, index, records, week);
      var c := Collect(front, index, records, week);
      var u := FirstUser(index, m.rosterId);
      if u != "" {
        var data := Put(c.data, u, m.points);
        var next := SetScore(c.records, u, week, m.points);
        forall v | v in records ensures v in next && next[v] == WithScore(records[v], data, v, week) {
          if v != u {
            PutOther(c.data, u, m.points, v);
          }
        }
      }
    }
  }

  /** A week with fewer than two resolved scores changes nothing but the
      stored weekly scores. */
  lemma SmallWeek(records: map<string, TeamRecord>, wk: WeekMatchups, index: seq<(string, int)>)
    requires |wk.matchups| > 0
    requires |Collect(wk.matchups, index, records, wk.week).scores| < 2
    ensures var r := ApplyWeek(records, wk, index);
      r.Keys == records.Keys &&
      forall u :: u in records ==> r[u].(weeklyScores := records[u].weeklyScores) == records[u]
  {
    CollectUsers(wk.matchups, index, records, wk.week);
    CollectRecords(wk.matchups, index, records, wk.week);
  }

  // ---------------------------------------------------------------- head-to-head properties

  /** Exactly one outcome applies to a pairing: the higher scorer wins and
      the other loses, or equal points tie both. */
  lemma PairResultSpec(points1: real, points2: real)
    ensures var (r1, r2) := PairResult(points1, points2);
      ((r1, r2) == (Win, Loss) <==> points1 > points2) &&
      ((r1, r2) == (Loss, Win) <==> points2 > points1) &&
      ((r1, r2) == (Tie, Tie) <==> points1 == points2) &&
      ((r1, r2) == (Win, Loss) || (r1, r2) == (Loss, Win) || (r1, r2) == (Tie, Tie))
  {
  }

  /** The league's head-to-head wins. */
  ghost function Wins(records: map<string, TeamRecord>): real
  {
    SumValues(map u | u in records :: records[u].regular.wins as real)
  }

  /** The league's head-to-head losses. */
  ghost function Losses(records: map<string, TeamRecord>): real
  {
    SumValues(map u | u in records :: records[u].regular.losses as real)
  }

  /** Records with the same head-to-head records have the same league totals. */
  lemma SameRegularTotals(a: map<string, TeamRecord>, b: map<string, TeamRecord>)
    requires a.Keys == b.Keys
    requires forall u :: u in a ==> a[u].regular == b[u].regular
    ensures Wins(a) == Wins(b) && Losses(a) == Losses(b)
  {
    assert (map u | u in a :: a[u].regular.wins as real) == (map u | u in b :: b[u].regular.wins as real);
    assert (map u | u in a :: a[u].regular.losses as real) == (map u | u in b :: b[u].regular.losses as real);
  }

  /** Crediting a result adds one win, one loss, or neither to the league totals. */
  lemma CreditTotals(records: map<string, TeamRecord>, u: string, r: Result)
    requires u in records
    ensures Wins(Credit(records, u, r)) == Wins(records) + (if r == Win then 1.0 else 0.0)
    ensures Losses(Credit(records, u, r)) == Losses(records) + (if r == Loss then 1.0 else 0.0)
  {
    CreditWins(records, u, r);
    CreditLosses(records, u, r);
  }

  lemma CreditWins(records: map<string, TeamRecord>, u: string, r: Result)
    requires u in records
    ensures Wins(Credit(records, u, r)) == Wins(records) + (if r == Win then 1.0 else 0.0)
  {
    var next := Credit(records, u, r);
    var w := map v | v in records :: records[v].regular.wins as real;
    assert (map v | v in next :: next[v].regular.wins as real) == w[u := next[u].regular.wins as real];
    SumValuesUpdate(w, u, next[u].regular.wins as real);
  }

  lemma CreditLosses(records: map<string, TeamRecord>, u: string, r: Result)
    requires u in records
    ensures Losses(Credit(records, u, r)) == Losses(records) + (if r == Loss then 1.0 else 0.0)
  {
    var next := Credit(records, u, r);
    var l := map v | v in records :: records[v].regular.losses as real;
    assert (map v | v in next :: next[v].regular.losses as real) == l[u := next[u].regular.losses as real];
    SumValuesUpdate(l, u, next[u].regular.losses as real);
  }

  /** An entry of the index is a key of it. */
  lemma EntryKey(index: seq<(string, int)>, u: string, rid: int)
    requires HasEntry(index, u, rid)
    ensures HasKey(index, u)
  {
    var i :| 0 <= i < |index| && index[i] == (u, rid);
    assert index[i].0 == u;
  }

  /** A pairing changes nothing but head-to-head records. When its two lines
      resolve to two owners, they are different tracked managers, each is
      credited with their side's result and nobody else changes. */
  lemma HeadToHeadStepSpec(records: map<string, TeamRecord>, group: seq<Matchup>, index: seq<(string, int)>)
    requires IndexOk(index)
    requires forall u :: HasKey(index, u) ==> u in records
    ensures var r := HeadToHeadStep(records, group, index);
      r.Keys == records.Keys &&
      forall u :: u in records ==> r[u].(regular := records[u].regular) == records[u]
    ensures |group| == 2 ==>
      var (u1, u2) := PairUsers(index, group[0].rosterId, group[1].rosterId);
      var (r1, r2) := PairResult(group[0].points, group[1].points);
      var r := HeadToHeadStep(records, group, index);
      u1 != "" && u2 != "" ==>
        u1 != u2 && u1 in records && u2 in records &&
        r[u1].regular == Tally(records[u1].regular, r1) &&
        r[u2].regular == Tally(records[u2].regular, r2) &&
        forall v :: v in records && v != u1 && v != u2 ==> r[v] == records[v]
  {
    if |group| == 2 {
      var (u1, u2) := PairUsers(index, group[0].rosterId, group[1].rosterId);
      if u1 != "" && u2 != "" {
        PairUsersSpec(index, group[0].rosterId, group[1].rosterId);
        EntryKey(index, u1, group[0].rosterId);
        EntryKey(index, u2, group[1].rosterId);
      }
    }
  }

  /** Every pairing adds as many head-to-head wins as losses to the league. */
  lemma HeadToHeadStepBalanced(records: map<string, TeamRecord>, group: seq<Matchup>, index: seq<(string, int)>)
    requires IndexOk(index)
    requires forall u :: HasKey(index, u) ==> u in records
    ensures var r := HeadToHeadStep(records, group, index);
      Wins(r) - Losses(r) == Wins(records) - Losses(records)
  {
    if |group| == 2 {
      var (u1, u2) := PairUsers(index, group[0].rosterId, group[1].rosterId);
      if u1 != "" && u2 != "" {
        HeadToHeadStepSpec(records, group, index);
        var (r1, r2) := PairResult(group[0].points, group[1].points);
        PairResultSpec(group[0].points, group[1].points);
        var mid := Credit(records, u1, r1);
        assert HeadToHeadStep(records, group, index) == Credit(mid, u2, r2);
        CreditTotals(records, u1, r1);
        assert u2 in mid;
        CreditTotals(mid, u2, r2);
      }
    }
  }

  /** The pairings of a week keep everything but head-to-head records, and
      keep the league's wins and losses equal when they were. */
  lemma {:induction false} HeadToHeadsSpec(records: map<string, TeamRecord>, ms: seq<Matchup>, ids: seq<int>, index: seq<(string, int)>)
    requires IndexOk(index)
    requires forall u :: HasKey(index, u) ==> u in records
    ensures var r := HeadToHeads(records, ms, ids, index);
      r.Keys == records.Keys &&
      (forall u :: u in records ==> r[u].(regular := records[u].regular) == records[u]) &&
      Wins(r) - Losses(r) == Wins(records) - Losses(records)
  {
    if |ids| > 0 {
      HeadToHeadsSpec(records, ms, ids[..|ids| - 1], index);
      var prev := HeadToHeads(records, ms, ids[..|ids| - 1], index);
      HeadToHeadStepSpec(prev, GroupOf(ms, ids[|ids| - 1]), index);
      HeadToHeadStepBalanced(prev, GroupOf(ms, ids[|ids| - 1]), index);
    }
  }

  // ---------------------------------------------------------------- median properties

  /** A record judged when the user is in the week's dictionary. */
  function JudgedIf(t: TeamRecord, data: seq<(string, real)>, u: string, median: real, week: int): TeamRecord
  {
    if HasKey(data, u) then Judged(t, Get(data, u), median, week) else t
  }

  /** A dictionary's prefix is a dictionary without the last key. */
  lemma DropLast(data: seq<(string, real)>)
    requires |data| > 0 && DistinctKeys(data)
    ensures var front := data[..|data| - 1];
      DistinctKeys(front) && !HasKey(front, data[|data| - 1].0) &&
      data == Put(front, data[|data| - 1].0, data[|data| - 1].1)
  {
    var front := data[..|data| - 1];
    var (u, v) := data[|data| - 1];
    assert forall i :: 0 <= i < |front| ==> front[i] == data[i];
    assert data == front + [(u, v)];
  }

  /** Judging the week's dictionary gives each of its users exactly one
      result against the median, for their score, and changes nothing else. */
  lemma {:induction false} JudgeAllSpec(records: map<string, TeamRecord>, data: seq<(string, real)>, median: real, week: int)
    requires DistinctKeys(data)
    ensures var r := JudgeAll(records, data, median, week);
      r.Keys == records.Keys &&
      forall u :: u in records ==> r[u] == JudgedIf(records[u], data, u, median, week)
  {
    if |data| > 0 {
      var front := data[..|data| - 1];
      var (u, score) := data[|data| - 1];
      DropLast(data);
      JudgeAllSpec(records, front, median, week);
      var prev := JudgeAll(records, front, median, week);
      forall v | v in records ensures JudgeAll(records, data, median, week)[v] == JudgedIf(records[v], data, v, median, week) {
        if v != u {
          PutOther(front, u, score, v);
        }
      }
    }
  }

  /** A manager's median record counts one result per week judged, and a
      week is judged only when the manager scored in it. */
  ghost predicate MedianOk(t: TeamRecord)
  {
    t.median.wins + t.median.losses == |t.weeklyMedianResults.Keys| &&
    t.weeklyMedianResults.Keys <= t.weeklyScores.Keys
  }

  /** Judging a manager for a week not judged before keeps the count, and
      the result is a win exactly when the score is not below the median. */
  lemma JudgedOk(t: TeamRecord, score: real, median: real, week: int)
    requires MedianOk(t) && week !in t.weeklyMedianResults && week in t.weeklyScores
    ensures MedianOk(Judged(t, score, median, week))
    ensures Judged(t, score, median, week).weeklyMedianResults[week] == W <==> score >= median
  {
    var j := Judged(t, score, median, week);
    assert j.weeklyMedianResults.Keys == t.weeklyMedianResults.Keys + {week};
  }

  // ---------------------------------------------------------------- the season's invariants

  /** Every manager's median record counts one result per judged week, and
      all the weeks scored in are among the weeks `done` already read. */
  ghost predicate SeasonOk(records: map<string, TeamRecord>, done: set<int>)
  {
    forall u :: u in records ==> MedianOk(records[u]) && records[u].weeklyScores.Keys <= done
  }

  /** Storing a new week's score keeps the count and leaves the week unjudged. */
  lemma ScoredOk(t: TeamRecord, data: seq<(string, real)>, u: string, week: int, done: set<int>)
    requires MedianOk(t) && t.weeklyScores.Keys <= done && week !in done
    ensures var s := WithScore(t, data, u, week);
      MedianOk(s) && s.weeklyScores.Keys <= done + {week} && week !in s.weeklyMedianResults &&
      (HasKey(data, u) ==> week in s.weeklyScores) && s.name == t.name
  {
  }

  /** Judging a manager who scored in the week, and not yet judged for it,
      keeps the count and the stored scores. */
  lemma JudgedIfOk(s: TeamRecord, data: seq<(string, real)>, u: string, median: real, week: int)
    requires MedianOk(s) && (HasKey(data, u) ==> week !in s.weeklyMedianResults && week in s.weeklyScores)
    ensures var j := JudgedIf(s, data, u, median, week);
      MedianOk(j) && j.weeklyScores == s.weeklyScores && j.name == s.name
  {
    if HasKey(data, u) {
      JudgedOk(s, Get(data, u), median, week);
    }
  }

  /** A week read after the weeks `done` keeps every manager's median count,
      their name, and the league's balance of head-to-head wins and losses. */
  lemma ApplyWeekOk(records: map<string, TeamRecord>, wk: WeekMatchups, index: seq<(string, int)>, done: set<int>)
    requires IndexOk(index)
    requires forall u :: HasKey(index, u) ==> u in records
    requires SeasonOk(records, done) && wk.week !in done
    ensures var r := ApplyWeek(records, wk, index);
      r.Keys == records.Keys &&
      SeasonOk(r, done + {wk.week}) &&
      (forall u :: u in records ==> r[u].name == records[u].name) &&
      Wins(r) - Losses(r) == Wins(records) - Losses(records)
  {
    if |wk.matchups| > 0 {
      var week := wk.week;
      var c := Collect(wk.matchups, index, records, week);
      CollectUsers(wk.matchups, index, records, week);
      CollectRecords(wk.matchups, index, records, week);
      forall u | u in records
        ensures var s := c.records[u];
          MedianOk(s) && s.weeklyScores.Keys <= done + {week} && week !in s.weeklyMedianResults &&
          (HasKey(c.data, u) ==> week in s.weeklyScores) && s.name == records[u].name
      {
        ScoredOk(records[u], c.data, u, week, done);
      }
      assert Wins(c.records) == Wins(records) && Losses(c.records) == Losses(records) by {
        SameRegularTotals(c.records, records);
      }
      if |c.scores| >= 2 {
        var h := HeadToHeads(c.records, wk.matchups, GroupIds(wk.matchups), index);
        HeadToHeadsSpec(c.records, wk.matchups, GroupIds(wk.matchups), index);
        var med := Median(c.scores);
        JudgeAllSpec(h, c.data, med, week);
        var r := JudgeAll(h, c.data, med, week);
        forall u | u in records
          ensures MedianOk(r[u]) && r[u].weeklyScores.Keys <= done + {week} && r[u].name == records[u].name
        {
          assert h[u].(regular := c.records[u].regular) == c.records[u];
          JudgedIfOk(h[u], c.data, u, med, week);
        }
        assert Wins(r) == Wins(h) && Losses(r) == Losses(h) by {
          SameRegularTotals(r, h);
        }
      }
    }
  }

  /** The week numbers of a week list, as a set. */
  ghost function WeekSet(weeks: seq<WeekMatchups>): set<int>
  {
    set i | 0 <= i < |weeks| :: weeks[i].week
  }

  /** The weeks in order keep every manager's median count and name, store
      scores only for the weeks read, and keep the league's head-to-head
      wins and losses balanced. */
  lemma {:induction false} ProcessWeeksOk(records: map<string, TeamRecord>, weeks: seq<WeekMatchups>, index: seq<(string, int)>, done: set<int>)
    requires IndexOk(index)
    requires forall u :: HasKey(index, u) ==> u in records
    requires DistinctWeeks(weeks)
    requires SeasonOk(records, done) && forall i :: 0 <= i < |weeks| ==> weeks[i].week !in done
    ensures var r := ProcessWeeks(records, weeks, index);
      r.Keys == records.Keys &&
      SeasonOk(r, done + WeekSet(weeks)) &&
      (forall u :: u in records ==> r[u].name == records[u].name) &&
      Wins(r) - Losses(r) == Wins(records) - Losses(records)
  {
    if |weeks| > 0 {
      var front := weeks[..|weeks| - 1];
      var last := weeks[|weeks| - 1];
      WeeksFront(weeks, done);
      ProcessWeeksOk(records, front, index, done);
      ApplyWeekOk(ProcessWeeks(records, front, index), last, index, done + WeekSet(front));
      assert done + WeekSet(front) + {last.week} == done + WeekSet(weeks);
    }
  }

  /** Without its last week a week list keeps distinct weeks, and its last
      week is none of the weeks before. */
  lemma WeeksFront(weeks: seq<WeekMatchups>, done: set<int>)
    requires |weeks| > 0 && DistinctWeeks(weeks)
    requires forall i :: 0 <= i < |weeks| ==> weeks[i].week !in done
    ensures var front := weeks[..|weeks| - 1];
      DistinctWeeks(front) &&
      (forall i :: 0 <= i < |front| ==> front[i].week !in done) &&
      WeekSet(weeks) == WeekSet(front) + {weeks[|weeks| - 1].week} &&
      weeks[|weeks| - 1].week !in done + WeekSet(front)
  {
    var front := weeks[..|weeks| - 1];
    var last := weeks[|weeks| - 1];
    assert forall i :: 0 <= i < |front| ==> front[i] == weeks[i];
    assert weeks == front + [last];
  }

  /** Every fresh record starts from zero with nothing stored. */
  lemma {:induction false} InitFresh(rosters: seq<Roster>, users: map<string, User>)
    ensures forall u :: u in InitRecords(rosters, users) ==> Fresh(InitRecords(rosters, users)[u])
  {
    if |rosters| > 0 {
      InitFresh(rosters[..|rosters| - 1], users);
    }
  }

  /** Nothing recorded yet. */
  ghost predicate Fresh(t: TeamRecord)
  {
    t.regular == HeadToHead(0, 0, 0) && t.median == WinLoss(0, 0) &&
    t.weeklyScores == map[] && t.weeklyMedianResults == map[]
  }

  /** The fresh records start balanced and with nothing judged. */
  lemma InitOk(rosters: seq<Roster>, users: map<string, User>)
    ensures var init := InitRecords(rosters, users);
      SeasonOk(init, {}) && Wins(init) == Losses(init)
  {
    var init := InitRecords(rosters, users);
    InitFresh(rosters, users);
    assert forall u :: u in init ==> Fresh(init[u]);
    var w := map u | u in init :: init[u].regular.wins as real;
    var l := map u | u in init :: init[u].regular.losses as real;
    assert forall u :: u in init ==> w[u] == 0.0 == l[u];
    assert w == l;
  }

  /** The result holds exactly the owners of tracked rosters, each under
      their display name. */
  lemma MedianRecordsManagers(weeks: seq<WeekMatchups>, rosters: seq<Roster>, users: map<string, User>)
    requires DistinctWeeks(weeks)
    ensures var r := MedianRecordsOf(weeks, rosters, users);
      (forall u :: u in r <==> OwnsTracked(rosters, u)) &&
      (forall u :: u in r ==> r[u].name == DisplayName(users, u))
  {
    RostersSpec(rosters, users);
    IndexCovered(rosters, users);
    InitOk(rosters, users);
    ProcessWeeksOk(InitRecords(rosters, users), weeks, RosterIndex(rosters), {});
  }

  /** After the whole season every manager's median count holds, only the
      weeks given were scored in, and head-to-head wins and losses balance. */
  lemma SeasonOkAtEnd(weeks: seq<WeekMatchups>, rosters: seq<Roster>, users: map<string, User>)
    requires DistinctWeeks(weeks)
    ensures var p := ProcessWeeks(InitRecords(rosters, users), weeks, RosterIndex(rosters));
      SeasonOk(p, WeekSet(weeks)) && Wins(p) == Losses(p)
  {
    IndexCovered(rosters, users);
    InitOk(rosters, users);
    ProcessWeeksOk(InitRecords(rosters, users), weeks, RosterIndex(rosters), {});
    assert {} + WeekSet(weeks) == WeekSet(weeks);
  }

  /** Every user of the roster index has a record. */
  lemma IndexCovered(rosters: seq<Roster>, users: map<string, User>)
    ensures IndexOk(RosterIndex(rosters))
    ensures forall u :: HasKey(RosterIndex(rosters), u) ==> u in InitRecords(rosters, users)
  {
    RostersSpec(rosters, users);
  }

  /** Each median record counts one result per week judged, judged only in
      weeks the manager scored in, among the weeks given; each combined
      record adds the head-to-head and median records, so it counts every
      decided game plus every judged week; and across the league
      head-to-head wins and losses are equal. */
  lemma MedianRecordsCounts(weeks: seq<WeekMatchups>, rosters: seq<Roster>, users: map<string, User>)
    requires DistinctWeeks(weeks)
    ensures var r := MedianRecordsOf(weeks, rosters, users);
      (forall u :: u in r ==> MedianOk(r[u]) && r[u].weeklyScores.Keys <= WeekSet(weeks)) &&
      (forall u :: u in r ==>
        r[u].combined.wins == r[u].regular.wins + r[u].median.wins &&
        r[u].combined.losses == r[u].regular.losses + r[u].median.losses &&
        r[u].combined.wins + r[u].combined.losses == r[u].regular.wins + r[u].regular.losses + |r[u].weeklyMedianResults.Keys|) &&
      Wins(r) == Losses(r)
  {
    var p := ProcessWeeks(InitRecords(rosters, users), weeks, RosterIndex(rosters));
    SeasonOkAtEnd(weeks, rosters, users);
    SameRegularTotals(MedianRecordsOf(weeks, rosters, users), p);
  }

  // ---------------------------------------------------------------- a week's median balance

  /** No roster has two lines in the week. */
  predicate DistinctRosters(ms: seq<Matchup>)
  {
    forall i, j :: 0 <= i < j < |ms| ==> ms[i].rosterId != ms[j].rosterId
  }

  /** A user of the index has one roster id. */
  lemma EntryUnique(index: seq<(string, int)>, u: string, r1: int, r2: int)
    requires IndexOk(index) && HasEntry(index, u, r1) && HasEntry(index, u, r2)
    ensures r1 == r2
  {
    var i :| 0 <= i < |index| && index[i] == (u, r1);
    var j :| 0 <= j < |index| && index[j] == (u, r2);
    assert i == j;
  }

  /** Appending a pair appends its value. */
  lemma ValuesAppend(d: seq<(string, real)>, k: string, v: real)
    ensures ValuesOf(d + [(k, v)]) == ValuesOf(d) + [v]
  {
    assert (d + [(k, v)])[..|d|] == d;
  }

  /** When no roster has two lines, the lines resolve to different users, so
      the week's dictionary holds every resolved score, in order. */
  lemma {:induction false} CollectValues(ms: seq<Matchup>, index: seq<(string, int)>, records: map<string, TeamRecord>, week: int)
    requires IndexOk(index) && DistinctRosters(ms)
    ensures var c := Collect(ms, index, records, week); ValuesOf(c.data) == c.scores
  {
    if |ms| > 0 {
      var front := ms[..|ms| - 1];
      var m := ms[|ms| - 1];
      assert DistinctRosters(front) by {
        assert forall i :: 0 <= i < |front| ==> front[i] == ms[i];
      }
      CollectValues(front, index, records, week);
      var c := Collect(front, index, records, week);
      var u := FirstUser(index, m.rosterId);
      if u != "" {
        assert !HasKey(c.data, u) by {
          CollectUsers(front, index, records, week);
          if ScoredIn(front, index, u) {
            var k :| 0 <= k < |front| && FirstUser(index, front[k].rosterId) == u;
            assert front[k].rosterId != m.rosterId by {
              assert ms[k] == front[k];
            }
            FirstUserSpec(index, front[k].rosterId);
            FirstUserSpec(index, m.rosterId);
            EntryUnique(index, u, front[k].rosterId, m.rosterId);
            assert false;
          }
        }
        ValuesAppend(c.data, u, m.points);
      }
    }
  }

  /** In a week whose median is taken and where no roster has two lines, at
      most half of the week's scorers lose against the median, and a
      scorer's result is a loss exactly when their score is below it: the
      week adds at least as many median wins as median losses. */
  lemma WeekMedianBalance(records: map<string, TeamRecord>, wk: WeekMatchups, index: seq<(string, int)>)
    requires IndexOk(index) && DistinctRosters(wk.matchups)
    requires |Collect(wk.matchups, index, records, wk.week).scores| >= 2
    ensures var c := Collect(wk.matchups, index, records, wk.week);
      var med := Median(c.scores);
      |c.data| == |c.scores| &&
      2 * CountBelow(ValuesOf(c.data), med) <= |c.data| &&
      forall u :: HasKey(c.data, u) ==> (MedianOutcome(Get(c.data, u), med) == L <==> Get(c.data, u) < med)
  {
    var c := Collect(wk.matchups, index, records, wk.week);
    CollectValues(wk.matchups, index, records, wk.week);
    MedianSplit(c.scores);
  }

  // ---------------------------------------------------------------- the calculation, step by step

  /** The user id of roster `rid`: scans the index in order and stops at the first match. */
  method FindUser(index: seq<(string, int)>, rid: int) returns (u: string)
    ensures u == FirstUser(index, rid)
  {
    u := "";
    var i := 0;
    while i < |index|
      invariant 0 <= i <= |index|
      invariant FirstUser(index, rid) == FirstUser(index[i..], rid)
    {
      assert index[i..][1..] == index[i + 1..];
      if index[i].1 == rid {
        u := index[i].0;
        return;
      }
      i := i + 1;
    }
  }

  /** The owners of a pairing's two rosters: one pass over the whole index. */
  method FindPair(index: seq<(string, int)>, id1: int, id2: int) returns (u1: string, u2: string)
    ensures (u1, u2) == PairUsers(index, id1, id2)
  {
    u1, u2 := "", "";
    var i := 0;
    while i < |index|
      invariant 0 <= i <= |index|
      invariant (u1, u2) == PairUsers(index[..i], id1, id2)
    {
      assert index[..i + 1][..i] == index[..i];
      var (uid, rid) := index[i];
      if rid == id1 {
        u1 := uid;
      } else if rid == id2 {
        u2 := uid;
      }
      i := i + 1;
    }
    assert index[..|index|] == index;
  }

  /** Reads a week's lines: each line whose roster resolves adds its points to
      the score list and the user → score dictionary and stores them as the
      user's score for the week. */
  method ReadWeek(ms: seq<Matchup>, index: seq<(string, int)>, records: map<string, TeamRecord>, week: int)
    returns (scores: seq<real>, data: seq<(string, real)>, next: map<string, TeamRecord>)
    requires IndexOk(index)
    requires forall u :: HasKey(index, u) ==> u in records
    ensures Collected(scores, data, next) == Collect(ms, index, records, week)
    ensures next.Keys == records.Keys
    ensures forall u :: HasKey(data, u) ==> u in records
  {
    scores, data, next := [], [], records;
    var i := 0;
    while i < |ms|
      invariant 0 <= i <= |ms|
      invariant Collected(scores, data, next) == Collect(ms[..i], index, records, week)
      invariant next.Keys == records.Keys
      invariant forall u :: HasKey(data, u) ==> u in records
    {
      CollectStep(ms, i, index, records, week);
      var m := ms[i];
      var u := FindUser(index, m.rosterId);
      if u != "" {
        assert u in next by {
          FirstUserSpec(index, m.rosterId);
          EntryKey(index, u, m.rosterId);
        }
        assert forall v :: HasKey(Put(data, u, m.points), v) ==> v in records by {
          PutKeys(data, u, m.points);
        }
        scores := scores + [m.points];
        data := Put(data, u, m.points);
        next := next[u := next[u].(weeklyScores := next[u].weeklyScores[week := m.points])];
      }
      i := i + 1;
    }
    assert ms[..|ms|] == ms;
  }

  /** Reading one more line extends the reading of the lines before it. */
  lemma CollectStep(ms: seq<Matchup>, i: int, index: seq<(string, int)>, records: map<string, TeamRecord>, week: int)
    requires 0 <= i < |ms|
    ensures var c := Collect(ms[..i], index, records, week);
      var u := FirstUser(index, ms[i].rosterId);
      Collect(ms[..i + 1], index, records, week) ==
        if u == "" then c
        else Collected(c.scores + [ms[i].points], Put(c.data, u, ms[i].points), SetScore(c.records, u, week, ms[i].points))
  {
    assert ms[..i + 1][..i] == ms[..i];
  }

  /** Plays the pairings `ids` in order: a group of exactly two lines whose
      owners both resolve credits the higher scorer with a win and the other
      with a loss, or both with a tie. */
  method PlayPairings(ms: seq<Matchup>, ids: seq<int>, groups: map<int, seq<Matchup>>,
                      index: seq<(string, int)>, records: map<string, TeamRecord>)
    returns (next: map<string, TeamRecord>)
    requires IndexOk(index)
    requires forall u :: HasKey(index, u) ==> u in records
    requires forall j :: 0 <= j < |ids| ==> ids[j] in groups && groups[ids[j]] == GroupOf(ms, ids[j])
    ensures next == HeadToHeads(records, ms, ids, index)
    ensures next.Keys == records.Keys
  {
    next := records;
    var j := 0;
    while j < |ids|
      invariant 0 <= j <= |ids|
      invariant next == HeadToHeads(records, ms, ids[..j], index)
      invariant next.Keys == records.Keys
    {
      assert ids[..j + 1][..j] == ids[..j];
      next := PlayPairing(next, groups[ids[j]], index);
      j := j + 1;
    }
    assert ids[..|ids|] == ids;
  }

  /** One pairing: a group of exactly two lines whose owners both resolve
      credits the higher scorer with a win and the other with a loss, or
      both with a tie. */
  method PlayPairing(records: map<string, TeamRecord>, teams: seq<Matchup>, index: seq<(string, int)>)
    returns (next: map<string, TeamRecord>)
    requires IndexOk(index)
    requires forall u :: HasKey(index, u) ==> u in records
    ensures next == HeadToHeadStep(records, teams, index)
    ensures next.Keys == records.Keys
  {
    next := records;
    if |teams| == 2 {
      var p1, p2 := teams[0].points, teams[1].points;
      var u1, u2 := FindPair(index, teams[0].rosterId, teams[1].rosterId);
      if u1 != "" && u2 != "" {
        assert u1 in records && u2 in records && u1 != u2 by {
          PairUsersSpec(index, teams[0].rosterId, teams[1].rosterId);
          EntryKey(index, u1, teams[0].rosterId);
          EntryKey(index, u2, teams[1].rosterId);
        }
        if p1 > p2 {
          next := next[u1 := next[u1].(regular := next[u1].regular.(wins := next[u1].regular.wins + 1))];
          next := next[u2 := next[u2].(regular := next[u2].regular.(losses := next[u2].regular.losses + 1))];
        } else if p2 > p1 {
          next := next[u2 := next[u2].(regular := next[u2].regular.(wins := next[u2].regular.wins + 1))];
          next := next[u1 := next[u1].(regular := next[u1].regular.(losses := next[u1].regular.losses + 1))];
        } else {
          next := next[u1 := next[u1].(regular := next[u1].regular.(ties := next[u1].regular.ties + 1))];
          next := next[u2 := next[u2].(regular := next[u2].regular.(ties := next[u2].regular.ties + 1))];
        }
      }
    }
  }

  /** Judges every user of the week's dictionary against the median: above
      it wins, below it loses, exactly at it wins. */
  method JudgeWeek(data: seq<(string, real)>, median: real, week: int, records: map<string, TeamRecord>)
    returns (next: map<string, TeamRecord>)
    requires forall u :: HasKey(data, u) ==> u in records
    ensures next == JudgeAll(records, data, median, week)
    ensures next.Keys == records.Keys
  {
    next := records;
    var k := 0;
    while k < |data|
      invariant 0 <= k <= |data|
      invariant next == JudgeAll(records, data[..k], median, week)
      invariant next.Keys == records.Keys
    {
      assert data[..k + 1][..k] == data[..k];
      var (u, score) := data[k];
      assert HasKey(data, u);
      var t := next[u];
      if score > median {
        t := t.(median := WinLoss(t.median.wins + 1, t.median.losses), weeklyMedianResults := t.weeklyMedianResults[week := W]);
      } else if score < median {
        t := t.(median := WinLoss(t.median.wins, t.median.losses + 1), weeklyMedianResults := t.weeklyMedianResults[week := L]);
      } else {
        t := t.(median := WinLoss(t.median.wins + 1, t.median.losses), weeklyMedianResults := t.weeklyMedianResults[week := W]);
      }
      next := next[u := t];
      k := k + 1;
    }
    assert data[..|data|] == data;
  }

  /** One week: skipped when it has no lines; its scores are read; with at
      least two resolved scores, the pairings are played and every scorer is
      judged against the median of the week's scores. */
  method ProcessWeek(records: map<string, TeamRecord>, wk: WeekMatchups, index: seq<(string, int)>)
    returns (next: map<string, TeamRecord>)
    requires IndexOk(index)
    requires forall u :: HasKey(index, u) ==> u in records
    ensures next == ApplyWeek(records, wk, index)
    ensures next.Keys == records.Keys
  {
    if |wk.matchups| == 0 {
      return records;
    }
    var scores, data;
    scores, data, next := ReadWeek(wk.matchups, index, records, wk.week);
    if |scores| >= 2 {
      var median := Median(scores);
      var ids, groups := GroupByMatchup(wk.matchups);
      assert forall j :: 0 <= j < |ids| ==> ids[j] in ids;
      next := PlayPairings(wk.matchups, ids, groups, index, next);
      next := JudgeWeek(data, median, wk.week, next);
    }
  }

  /** The roster pass: the user id → roster id dictionary and one fresh
      record, under the display name, per tracked owner. */
  method TrackRosters(rosters: seq<Roster>, users: map<string, User>)
    returns (index: seq<(string, int)>, records: map<string, TeamRecord>)
    ensures index == RosterIndex(rosters) && records == InitRecords(rosters, users)
  {
    records := map[];
    index := [];
    var i := 0;
    while i < |rosters|
      invariant 0 <= i <= |rosters|
      invariant index == RosterIndex(rosters[..i])
      invariant records == InitRecords(rosters[..i], users)
    {
      assert rosters[..i + 1][..i] == rosters[..i];
      var r := rosters[i];
      if Tracked(r) {
        index := Put(index, r.ownerId, r.rosterId);
        records := records[r.ownerId := FreshRecord(DisplayName(users, r.ownerId))];
      }
      i := i + 1;
    }
    assert rosters[..|rosters|] == rosters;
  }

  /** The weeks in dictionary order. */
  method PlaySeason(records: map<string, TeamRecord>, weeks: seq<WeekMatchups>, index: seq<(string, int)>)
    returns (next: map<string, TeamRecord>)
    requires IndexOk(index)
    requires forall u :: HasKey(index, u) ==> u in records
    ensures next == ProcessWeeks(records, weeks, index)
  {
    next := records;
    var w := 0;
    while w < |weeks|
      invariant 0 <= w <= |weeks|
      invariant next == ProcessWeeks(records, weeks[..w], index)
      invariant next.Keys == records.Keys
    {
      assert weeks[..w + 1][..w] == weeks[..w];
      next := ProcessWeek(next, weeks[w], index);
      w := w + 1;
    }
    assert weeks[..|weeks|] == weeks;
  }

  /** The whole calculation: the roster pass, the weeks in dictionary order,
      then every combined record. */
  method CalculateMedianRecords(weeks: seq<WeekMatchups>, rosters: seq<Roster>, users: map<string, User>)
    returns (records: map<string, TeamRecord>)
    ensures records == MedianRecordsOf(weeks, rosters, users)
  {
    var index;
    index, records := TrackRosters(rosters, users);
    IndexCovered(rosters, users);
    records := PlaySeason(records, weeks, index);
    records := Dicts.UpdateEach(records, (u, t) => Combine(t));
  }
}
