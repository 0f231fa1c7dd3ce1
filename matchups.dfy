/** The league data both record calculations read: one week's matchup lines,
    the rosters with their owners, the user directory, and the grouping of a
    week's lines into head-to-head pairings by matchup id. */
module Matchups {
  import opened Wrappers

  /** One team's line in a week: its roster id, its points (a missing or
      null `points` is 0), and its matchup id, where 0 stands for a missing
      or null id (the falsy case the pipeline skips). */
  datatype Matchup = Matchup(rosterId: int, points: real, matchupId: int)

  /** A roster: its owner's user id ("" when there is none) and its roster
      id (0 when there is none). */
  datatype Roster = Roster(ownerId: string, rosterId: int)

  /** A user directory entry; the display name may be absent. */
  datatype User = User(displayName: Option<string>)

  /** One entry of the week-number → matchup-list dictionary. */
  datatype WeekMatchups = WeekMatchups(week: int, matchups: seq<Matchup>)

  /** The name shown for a user: the directory's display name, else "User <id>". */
  function DisplayName(users: map<string, User>, uid: string): (name: string)
    ensures uid !in users ==> name == "User " + uid
    ensures uid in users && users[uid].displayName.Some? ==> name == users[uid].displayName.value
  {
    if uid in users then users[uid].displayName.GetOr("User " + uid) else "User " + uid
  }

  /** The week numbers of a week list, in dictionary order. */
  function WeekNumbers(weeks: seq<WeekMatchups>): (r: seq<int>)
    ensures |r| == |weeks|
    ensures forall i :: 0 <= i < |weeks| ==> r[i] == weeks[i].week
  {
    if |weeks| == 0 then [] else WeekNumbers(weeks[..|weeks| - 1]) + [weeks[|weeks| - 1].week]
  }

  /** Dictionary keys are distinct. */
  ghost predicate DistinctWeeks(weeks: seq<WeekMatchups>)
  {
    forall i, j :: 0 <= i < j < |weeks| ==> weeks[i].week != weeks[j].week
  }

  // ---------------------------------------------------------------- grouping by matchup id

  /** The truthy matchup ids of a week, each once, in order of first appearance
      (the key order of the grouping dictionary). */
  function GroupIds(ms: seq<Matchup>): (ids: seq<int>)
  {
    if |ms| == 0 then []
    else
      var prev := GroupIds(ms[..|ms| - 1]);
      var id := ms[|ms| - 1].matchupId;
      if id == 0 || id in prev then prev else prev + [id]
  }

  /** The lines carrying matchup id `id`, in their original order. */
  function GroupOf(ms: seq<Matchup>, id: int): (g: seq<Matchup>)
  {
    if |ms| == 0 then []
    else GroupOf(ms[..|ms| - 1], id) + (if ms[|ms| - 1].matchupId == id then [ms[|ms| - 1]] else [])
  }

  /** Some line of the week carries matchup id `id`. */
  predicate HasMatchupId(ms: seq<Matchup>, id: int)
  {
    exists k :: 0 <= k < |ms| && ms[k].matchupId == id
  }

  /** The group ids are exactly the truthy ids present, each listed once. */
  lemma {:induction false} GroupIdsSpec(ms: seq<Matchup>)
    ensures forall i, j :: 0 <= i < j < |GroupIds(ms)| ==> GroupIds(ms)[i] != GroupIds(ms)[j]
    ensures forall id :: id in GroupIds(ms) <==> id != 0 && HasMatchupId(ms, id)
  {
    if |ms| > 0 {
      var front := ms[..|ms| - 1];
      GroupIdsSpec(front);
      forall id ensures HasMatchupId(ms, id) <==> HasMatchupId(front, id) || ms[|ms| - 1].matchupId == id
      {
        if HasMatchupId(ms, id) && ms[|ms| - 1].matchupId != id {
          var k :| 0 <= k < |ms| && ms[k].matchupId == id;
          assert front[k].matchupId == id;
        }
        if HasMatchupId(front, id) {
          var k :| 0 <= k < |front| && front[k].matchupId == id;
          assert ms[k].matchupId == id;
        }
      }
    }
  }

  /** A group holds exactly the lines with its id, so a pairing has every
      member carrying that id and no line with that id left out. */
  lemma {:induction false} GroupOfSpec(ms: seq<Matchup>, id: int)
    ensures forall m :: m in GroupOf(ms, id) ==> m in ms && m.matchupId == id
    ensures |GroupOf(ms, id)| == 0 <==> forall k :: 0 <= k < |ms| ==> ms[k].matchupId != id
  {
    if |ms| > 0 {
      var front := ms[..|ms| - 1];
      GroupOfSpec(front, id);
      if ms[|ms| - 1].matchupId != id {
        forall k | 0 <= k < |ms| - 1 ensures ms[k] == front[k] {}
      }
    }
  }

  /** Extending the lines by one extends the group of that line's id by it
      and leaves every other group as it was. */
  lemma GroupOfStep(ms: seq<Matchup>, i: int)
    requires 0 <= i < |ms|
    ensures forall id :: GroupOf(ms[..i + 1], id) == GroupOf(ms[..i], id) + (if ms[i].matchupId == id then [ms[i]] else [])
  {
    assert ms[..i + 1][..i] == ms[..i];
  }

  /** Builds the matchup-id → lines dictionary of one week, skipping falsy ids. */
  method GroupByMatchup(ms: seq<Matchup>) returns (ids: seq<int>, groups: map<int, seq<Matchup>>)
    ensures ids == GroupIds(ms)
    ensures forall id :: id in groups <==> id in ids
    ensures forall id :: id in groups ==> groups[id] == GroupOf(ms, id)
  {
    ids := [];
    groups := map[];
    var i := 0;
    while i < |ms|
      invariant 0 <= i <= |ms|
      invariant ids == GroupIds(ms[..i])
      invariant 0 !in groups
      invariant forall id :: id in groups <==> id in ids
      invariant forall id :: id in groups ==> groups[id] == GroupOf(ms[..i], id)
      invariant forall id :: id != 0 && id !in groups ==> GroupOf(ms[..i], id) == []
    {
      var m := ms[i];
      assert ms[..i + 1][..i] == ms[..i];
      GroupOfStep(ms, i);
      if m.matchupId != 0 {
        var prior := if m.matchupId in groups then groups[m.matchupId] else [];
        assert prior == GroupOf(ms[..i], m.matchupId);
        groups := groups[m.matchupId := prior + [m]];
        if m.matchupId !in ids {
          ids := ids + [m.matchupId];
        }
      }
      i := i + 1;
    }
    assert ms[..|ms|] == ms;
  }
}
