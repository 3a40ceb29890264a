/**
 * The client-side table (src/components/PlayerTable.tsx): the position and
 * team drop-downs that filter the rows the read route returned, and the badge
 * that shows each row's rank change.
 */
module PlayerTable {
  import opened Options
  import opened Seqs
  import opened Sleeper
  import opened PlayersApi

  /** The options of the position drop-down. */
  const POSITIONS: seq<string> := ["ALL", "QB", "RB", "WR", "TE", "K"]

  /** The drop-down offers "ALL" followed by the tracked positions, in their order. */
  lemma PositionOptions()
    ensures |POSITIONS| == |TRACKED_POSITIONS| + 1 && POSITIONS[0] == "ALL"
    ensures forall i :: 0 <= i < |TRACKED_POSITIONS| ==> POSITIONS[i + 1] == TRACKED_POSITIONS[i].Name()
  {
  }

  /** The row test of `players.filter`: "ALL" matches anything, otherwise the value must be equal. */
  predicate Shows(position: string, team: string, p: ApiRow): (r: bool)
    ensures position == "ALL" && team == "ALL" ==> r
    ensures r && team != "ALL" ==> p.team.Some?
  {
    && (position == "ALL" || p.position == position)
    && (team == "ALL" || p.team == Some(team))
  }

  function ShowsFn(position: string, team: string): ApiRow -> bool {
    (p: ApiRow) => Shows(position, team, p)
  }

  /** `filtered`: the rows passing both tests, in their original order. */
  function Filtered(players: seq<ApiRow>, position: string, team: string): (r: seq<ApiRow>)
    ensures forall x :: x in r ==> x in players && Shows(position, team, x)
    ensures forall i :: 0 <= i < |players| && Shows(position, team, players[i]) ==> players[i] in r
    ensures position == "ALL" && team == "ALL" ==> r == players
    ensures position != "ALL" ==> forall x :: x in r ==> x.position == position
    ensures team != "ALL" ==> forall x :: x in r ==> x.team == Some(team)
    ensures forall x :: Shows(position, team, x) ==> multiset(r)[x] == multiset(players)[x]
  {
    Filter(players, ShowsFn(position, team))
  }

  /** Filtering only drops rows: the survivors keep the order the route gave them. */
  lemma FilteredInOrder(players: seq<ApiRow>, position: string, team: string)
    ensures exists idx :: SubsequenceAt(players, Filtered(players, position, team), idx)
  {
    var f := ShowsFn(position, team);
    FilterInOrder(players, f);
    var idx :| SubsequenceAt(players, Filter(players, f), idx);
    assert Filtered(players, position, team) == Filter(players, f);
    assert SubsequenceAt(players, Filtered(players, position, team), idx);
  }

  /** A row without a team is hidden as soon as a team is chosen. */
  lemma TeamlessHidden(players: seq<ApiRow>, position: string, team: string, x: ApiRow)
    requires x.team.None? && team != "ALL"
    ensures x !in Filtered(players, position, team)
  {
  }

  /** What `TrendBadge` renders. */
  datatype Trend = Neutral | Up(amount: int) | Down(amount: int)

  /** `TrendBadge`: a dash for no change, an up arrow for a gain, a down arrow with the size of a fall. */
  function TrendBadge(change: Option<int>): (t: Trend)
    ensures t.Neutral? <==> change.None? || change == Some(0)
    ensures t.Up? <==> change.Some? && change.value > 0
    ensures t.Down? <==> change.Some? && change.value < 0
    ensures !t.Neutral? ==> t.amount > 0
    ensures t.Up? ==> t.amount == change.value
    ensures t.Down? ==> t.amount == -change.value
  {
    match change
    case None => Neutral
    case Some(c) =>
      if c > 0 then Up(c)
      else if c < 0 then Down(-c)
      else Neutral
  }

  /**
   * On a row of the read route, the badge points up exactly when the player
   * moved to a better (smaller) rank since last week, and down when they fell,
   * by as many places as they moved.
   */
  lemma TrendOfJoinedRow(j: Joined)
    ensures TrendBadge(ToApiRow(j).rankChange).Up? <==> j.prevRank.Some? && j.prevRank.value > j.snap.rank
    ensures TrendBadge(ToApiRow(j).rankChange).Down? <==> j.prevRank.Some? && j.prevRank.value < j.snap.rank
    ensures TrendBadge(ToApiRow(j).rankChange).Up? ==> TrendBadge(ToApiRow(j).rankChange).amount == j.prevRank.value - j.snap.rank
    ensures TrendBadge(ToApiRow(j).rankChange).Down? ==> TrendBadge(ToApiRow(j).rankChange).amount == j.snap.rank - j.prevRank.value
  {
  }
}
