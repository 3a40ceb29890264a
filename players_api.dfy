/**
 * The read side (`GET /api/players`, src/app/api/players/route.ts): the latest
 * recorded period, the previous one, the query the route assembles piece by
 * piece with its positional arguments, and what that query returns — the
 * players with a snapshot in the latest period, left-joined to their snapshot
 * of the previous week, filtered, ordered by position and rank, and mapped to
 * response rows with `rank_change = prev_rank - rank`.
 *
 * The two tables are sequences of rows in scan order; SQL keys (one player per
 * id, one snapshot per id, season and week) are lemma hypotheses, so the join
 * is modelled as SQL computes it even on tables that break them.
 */
module PlayersApi {
  import opened Options
  import opened Strings
  import opened Seqs
  import opened Sorting
  import opened Sleeper

  /** A row of the `players` table. */
  datatype PlayerRecord = PlayerRecord(playerId: string, name: string, position: string, team: Option<string>)

  /** A row of the `snapshots` table. */
  datatype SnapshotRecord = SnapshotRecord(playerId: string, season: int, week: int, rank: int, projectedPts: Option<int>) {
    function Period(): SeasonWeek { SeasonWeek(season, week) }
  }

  /** The response row (`PlayerRow`). */
  datatype ApiRow = ApiRow(
    playerId: string,
    name: string,
    position: string,
    team: Option<string>,
    rank: int,
    rankChange: Option<int>,
    projectedPts: Option<int>,
    week: int,
    season: int)

  /** The primary key of `players`. */
  predicate PlayersKeyed(players: seq<PlayerRecord>) {
    forall i, j :: 0 <= i < j < |players| ==> players[i].playerId != players[j].playerId
  }

  /** The unique key of `snapshots`: player id, season and week. */
  predicate SnapshotsKeyed(snaps: seq<SnapshotRecord>) {
    forall i, j :: 0 <= i < j < |snaps| ==>
      snaps[i].playerId != snaps[j].playerId || snaps[i].Period() != snaps[j].Period()
  }

  // ---------------------------------------------------------------------------
  // Periods

  /** `SELECT season, week FROM snapshots ORDER BY season DESC, week DESC LIMIT 1`. */
  function LatestPeriod(snaps: seq<SnapshotRecord>): (r: Option<SeasonWeek>)
    ensures r.None? <==> snaps == []
    ensures r.Some? ==> exists i :: 0 <= i < |snaps| && snaps[i].Period() == r.value
    ensures r.Some? ==> forall i :: 0 <= i < |snaps| ==> NotLater(snaps[i].Period(), r.value)
  {
    if snaps == [] then None
    else
      var here := snaps[0].Period();
      var rest := LatestPeriod(snaps[1..]);
      assert forall i :: 1 <= i < |snaps| ==> snaps[i] == snaps[1..][i - 1];
      match rest
      case None => Some(here)
      case Some(p) =>
        assert exists i :: 0 <= i < |snaps| && snaps[i].Period() == p by {
          var i :| 0 <= i < |snaps[1..]| && snaps[1..][i].Period() == p;
          assert snaps[i + 1] == snaps[1..][i];
        }
        Some(if NotLater(here, p) then p else here)
  }

  /**
   * `week > 1 ? week - 1 : null`, in the same season: the week before the
   * latest one, and none at all in week 1 (no rollback to the prior season).
   */
  function PreviousPeriod(latest: SeasonWeek): (r: Option<SeasonWeek>)
    ensures r.Some? <==> latest.week > 1
    ensures r.Some? ==> NotLater(r.value, latest) && r.value != latest && r.value.season == latest.season
    ensures r.Some? ==> r.value.week + 1 == latest.week
  {
    if latest.week > 1 then Some(SeasonWeek(latest.season, latest.week - 1)) else None
  }

  // ---------------------------------------------------------------------------
  // The query the route assembles

  /** What the assembled query asks for. */
  datatype Query = Query(period: SeasonWeek, previous: Option<SeasonWeek>, position: Option<string>, team: Option<string>)

  /** `if (position && position !== 'ALL')`: the position the rows must have, if any. */
  function PositionFilter(position: Option<string>): (r: Option<string>)
    ensures r.Some? <==> position.Some? && position.value != "" && position.value != "ALL"
    ensures r.Some? ==> r == position
  {
    if position.Some? && position.value != "" && position.value != "ALL" then position else None
  }

  /** `if (team)`: the team the rows must have, if any. */
  function TeamFilter(team: Option<string>): (r: Option<string>)
    ensures r.Some? <==> team.Some? && team.value != ""
    ensures r.Some? ==> r == team
  {
    if team.Some? && team.value != "" then team else None
  }

  /** The query the request means. */
  function QueryFor(latest: SeasonWeek, position: Option<string>, team: Option<string>): (r: Query)
    ensures r.period == latest && r.previous == PreviousPeriod(latest)
    ensures r.position.Some? <==> position.Some? && position.value != "" && position.value != "ALL"
    ensures r.team.Some? <==> team.Some? && team.value != ""
    ensures r.position.Some? ==> r.position == position
    ensures r.team.Some? ==> r.team == team
  {
    Query(latest, PreviousPeriod(latest), PositionFilter(position), TeamFilter(team))
  }

  /** The pieces of SQL text the route concatenates, each with its `?` placeholders. */
  datatype Clause =
    | JoinLatest          // JOIN snapshots s ON ... AND s.season = ? AND s.week = ?
    | LeftJoinPrevious    // LEFT JOIN snapshots prev ON ... AND prev.season = ? AND prev.week = ?
    | PositionIs          // AND p.position = ?
    | TeamIs              // AND p.team = ?
    | OrderByPositionRank // ORDER BY p.position, s.rank ASC
  {
    function Arity(): nat {
      match this
      case JoinLatest => 2
      case LeftJoinPrevious => 2
      case PositionIs => 1
      case TeamIs => 1
      case OrderByPositionRank => 0
    }
  }

  /** An argument of `db.execute({ sql, args })`. */
  datatype SqlValue = IntValue(i: int) | TextValue(s: string)

  function Placeholders(sql: seq<Clause>): nat {
    if sql == [] then 0 else Placeholders(sql[..|sql| - 1]) + sql[|sql| - 1].Arity()
  }

  /** The query before any clause has bound anything. */
  const UNBOUND: Query := Query(SeasonWeek(0, 0), None, None, None)

  /** The effect of one clause whose placeholders take the values `vs`. */
  function BindClause(c: Clause, vs: seq<SqlValue>, q: Query): Option<Query>
    requires |vs| == c.Arity()
  {
    match c
    case JoinLatest =>
      if vs[0].IntValue? && vs[1].IntValue? then Some(q.(period := SeasonWeek(vs[0].i, vs[1].i))) else None
    case LeftJoinPrevious =>
      if vs[0].IntValue? && vs[1].IntValue? then Some(q.(previous := Some(SeasonWeek(vs[0].i, vs[1].i)))) else None
    case PositionIs => if vs[0].TextValue? then Some(q.(position := Some(vs[0].s))) else None
    case TeamIs => if vs[0].TextValue? then Some(q.(team := Some(vs[0].s))) else None
    case OrderByPositionRank => Some(q)
  }

  /**
   * Positional binding: the placeholders, read in text order, take the
   * arguments in order; a count or type mismatch binds nothing.
   */
  function Bind(sql: seq<Clause>, args: seq<SqlValue>): (r: Option<Query>)
    ensures r.Some? ==> Placeholders(sql) == |args|
  {
    if sql == [] then (if args == [] then Some(UNBOUND) else None)
    else
      var c := sql[|sql| - 1];
      if |args| < c.Arity() then None
      else match Bind(sql[..|sql| - 1], args[..|args| - c.Arity()])
        case None => None
        case Some(q) => BindClause(c, args[|args| - c.Arity()..], q)
  }

  /** `sql += clause; args.push(...values)`: appending binds one more clause. */
  lemma BindAppend(sql: seq<Clause>, args: seq<SqlValue>, c: Clause, vs: seq<SqlValue>)
    requires |vs| == c.Arity()
    ensures Bind(sql + [c], args + vs)
         == (match Bind(sql, args) case None => None case Some(q) => BindClause(c, vs, q))
  {
    assert (sql + [c])[..|sql|] == sql;
    assert (args + vs)[..|args|] == args;
    assert (args + vs)[|args|..] == vs;
  }

  /**
   * Lines 33-94: the SQL text and its arguments, built up clause by clause.
   * Whatever the filters, every placeholder receives the argument meant for it.
   */
  method BuildQuery(latest: SeasonWeek, position: Option<string>, team: Option<string>)
    returns (sql: seq<Clause>, args: seq<SqlValue>)
    ensures Bind(sql, args) == Some(QueryFor(latest, position, team))
    ensures |sql| >= 2 && sql[0] == JoinLatest && sql[|sql| - 1] == OrderByPositionRank
    ensures LeftJoinPrevious in sql <==> latest.week > 1
  {
    sql, args := PeriodClauses(latest);
    ghost var q := QueryFor(latest, None, None);
    sql, args := AddPositionClause(sql, args, q, position);
    q := q.(position := PositionFilter(position));
    sql, args := AddTeamClause(sql, args, q, team);
    q := q.(team := TeamFilter(team));
    BindAppend(sql, args, OrderByPositionRank, []);
    assert args + [] == args;
    sql := sql + [OrderByPositionRank];
    assert q == QueryFor(latest, position, team);
  }

  /** Lines 85-88: `AND p.position = ?` unless the position is absent, empty or `ALL`. */
  method AddPositionClause(sql: seq<Clause>, args: seq<SqlValue>, ghost q: Query, position: Option<string>)
    returns (sql': seq<Clause>, args': seq<SqlValue>)
    requires Bind(sql, args) == Some(q) && q.position.None? && |sql| >= 1
    ensures Bind(sql', args') == Some(q.(position := PositionFilter(position)))
    ensures |sql'| >= 1 && sql'[0] == sql[0]
    ensures LeftJoinPrevious in sql' <==> LeftJoinPrevious in sql
  {
    sql', args' := sql, args;
    if position.Some? && position.value != "" && position.value != "ALL" {
      BindAppend(sql, args, PositionIs, [TextValue(position.value)]);
      sql' := sql + [PositionIs];
      args' := args + [TextValue(position.value)];
    }
  }

  /** Lines 89-92: `AND p.team = ?` unless the team is absent or empty. */
  method AddTeamClause(sql: seq<Clause>, args: seq<SqlValue>, ghost q: Query, team: Option<string>)
    returns (sql': seq<Clause>, args': seq<SqlValue>)
    requires Bind(sql, args) == Some(q) && q.team.None? && |sql| >= 1
    ensures Bind(sql', args') == Some(q.(team := TeamFilter(team)))
    ensures |sql'| >= 1 && sql'[0] == sql[0]
    ensures LeftJoinPrevious in sql' <==> LeftJoinPrevious in sql
  {
    sql', args' := sql, args;
    if team.Some? && team.value != "" {
      BindAppend(sql, args, TeamIs, [TextValue(team.value)]);
      sql' := sql + [TeamIs];
      args' := args + [TextValue(team.value)];
    }
  }

  /** Lines 33-83: the joins for the latest period and, past week 1, the week before it. */
  method PeriodClauses(latest: SeasonWeek) returns (sql: seq<Clause>, args: seq<SqlValue>)
    ensures Bind(sql, args) == Some(QueryFor(latest, None, None))
    ensures |sql| >= 1 && sql[0] == JoinLatest
    ensures LeftJoinPrevious in sql <==> latest.week > 1
  {
    var season, week := latest.season, latest.week;
    var prevWeek: Option<int> := if week > 1 then Some(week - 1) else None;
    var prevSeason := if week > 1 then season else season - 1;
    BindAppend([], [], JoinLatest, [IntValue(season), IntValue(week)]);
    assert [] + [JoinLatest] == [JoinLatest];
    assert [] + [IntValue(season), IntValue(week)] == [IntValue(season), IntValue(week)];
    ghost var q := UNBOUND.(period := latest);
    if prevWeek.Some? {
      BindAppend([JoinLatest], [IntValue(season), IntValue(week)],
                 LeftJoinPrevious, [IntValue(prevSeason), IntValue(prevWeek.value)]);
      sql := [JoinLatest, LeftJoinPrevious];
      args := [IntValue(season), IntValue(week), IntValue(prevSeason), IntValue(prevWeek.value)];
      assert [JoinLatest] + [LeftJoinPrevious] == sql;
      assert [IntValue(season), IntValue(week)] + [IntValue(prevSeason), IntValue(prevWeek.value)] == args;
      q := q.(previous := Some(SeasonWeek(prevSeason, prevWeek.value)));
    } else {
      sql := [JoinLatest];
      args := [IntValue(season), IntValue(week)];
    }
    assert Bind(sql, args) == Some(q);
  }

  // ---------------------------------------------------------------------------
  // What the query returns

  /** A result row before mapping: `p.*`, `s.*` and `prev.rank AS prev_rank`. */
  datatype Joined = Joined(player: PlayerRecord, snap: SnapshotRecord, prevRank: Option<int>)

  /** The join condition `x.player_id = ? AND x.season = ? AND x.week = ?`. */
  function AtPeriod(id: string, period: SeasonWeek): (r: SnapshotRecord -> bool)
    ensures forall s :: r(s) <==> s.playerId == id && s.season == period.season && s.week == period.week
  {
    (s: SnapshotRecord) => s.playerId == id && s.Period() == period
  }

  /**
   * `LEFT JOIN snapshots prev`: one row per previous-period snapshot of the
   * player, or a single row with a NULL `prev_rank` when there is none or the
   * query has no previous period.
   */
  function LeftJoin(p: PlayerRecord, s: SnapshotRecord, snaps: seq<SnapshotRecord>, previous: Option<SeasonWeek>): (r: seq<Joined>)
    ensures r != []
    ensures forall j :: j in r ==> j.player == p && j.snap == s
    ensures previous.None? ==> forall j :: j in r ==> j.prevRank.None?
    ensures forall j :: j in r && j.prevRank.Some? ==>
              exists m :: m in snaps && m.playerId == p.playerId && Some(m.Period()) == previous && m.rank == j.prevRank.value
    ensures (forall m :: m in snaps ==> m.playerId != p.playerId || Some(m.Period()) != previous) ==> r == [Joined(p, s, None)]
  {
    match previous
    case None => [Joined(p, s, None)]
    case Some(pp) =>
      var prevs := Filter(snaps, AtPeriod(p.playerId, pp));
      if prevs == [] then [Joined(p, s, None)]
      else
        var r := MapSeq(prevs, (m: SnapshotRecord) => Joined(p, s, Some(m.rank)));
        assert prevs[0] in prevs;
        forall j | j in r
          ensures exists m :: m in snaps && m.playerId == p.playerId && Some(m.Period()) == previous && m.rank == j.prevRank.value
        {
          var k :| 0 <= k < |r| && r[k] == j;
          assert prevs[k] in prevs;
        }
        r
  }

  /** The rows one player contributes: `JOIN snapshots s` on the latest period, then the left join. */
  function PlayerRows(snaps: seq<SnapshotRecord>, q: Query): (r: PlayerRecord -> seq<Joined>)
    ensures forall p, j :: j in r(p) ==>
              j.player == p && j.snap in snaps && j.snap.playerId == p.playerId && j.snap.Period() == q.period
              && (q.previous.None? ==> j.prevRank.None?)
    ensures forall p :: r(p) == [] <==> forall s :: s in snaps ==> !AtPeriod(p.playerId, q.period)(s)
  {
    (p: PlayerRecord) => RowsOf(snaps, q, p)
  }

  /** The rows of player `p`, for `PlayerRows`. */
  function RowsOf(snaps: seq<SnapshotRecord>, q: Query, p: PlayerRecord): (r: seq<Joined>)
    ensures forall j :: j in r ==>
              j.player == p && j.snap in snaps && j.snap.playerId == p.playerId && j.snap.Period() == q.period
              && (q.previous.None? ==> j.prevRank.None?)
    ensures r == [] <==> forall s :: s in snaps ==> !AtPeriod(p.playerId, q.period)(s)
  {
    var current := Filter(snaps, AtPeriod(p.playerId, q.period));
    var left := (s: SnapshotRecord) => LeftJoin(p, s, snaps, q.previous);
    var r := FlatMap(current, left);
    forall j | j in r
      ensures j.player == p && j.snap in snaps && j.snap.playerId == p.playerId && j.snap.Period() == q.period
              && (q.previous.None? ==> j.prevRank.None?)
    {
      FlatMapMember(current, left, j);
      var k :| 0 <= k < |current| && j in left(current[k]);
      assert current[k] in current;
    }
    assert current != [] ==> r != [] by {
      if current != [] {
        assert current[0] in current;
        assert left(current[0]) != [];
        FlatMapMember(current, left, left(current[0])[0]);
      }
    }
    r
  }

  /** `FROM players p JOIN snapshots s ... [LEFT JOIN snapshots prev ...]`. */
  function Join(players: seq<PlayerRecord>, snaps: seq<SnapshotRecord>, q: Query): (r: seq<Joined>)
    ensures forall j :: j in r ==> j.player in players && j.snap in snaps
    ensures forall j :: j in r ==> j.snap.playerId == j.player.playerId && j.snap.Period() == q.period
    ensures q.previous.None? ==> forall j :: j in r ==> j.prevRank.None?
  {
    var r := FlatMap(players, PlayerRows(snaps, q));
    forall j | j in r
      ensures j.player in players && j.snap in snaps
      ensures j.snap.playerId == j.player.playerId && j.snap.Period() == q.period
      ensures q.previous.None? ==> j.prevRank.None?
    {
      FlatMapMember(players, PlayerRows(snaps, q), j);
      var i :| 0 <= i < |players| && j in PlayerRows(snaps, q)(players[i]);
    }
    r
  }

  /** `WHERE 1=1 [AND p.position = ?] [AND p.team = ?]`; a NULL team equals nothing. */
  predicate Passes(q: Query, p: PlayerRecord): (r: bool)
    ensures q.position.None? && q.team.None? ==> r
    ensures r && q.team.Some? ==> p.team.Some?
  {
    && (q.position.None? || p.position == q.position.value)
    && (q.team.None? || p.team == Some(q.team.value))
  }

  /** `ORDER BY p.position, s.rank ASC`. */
  predicate PositionRankOrder(a: Joined, b: Joined): (r: bool)
    ensures a.player.position == b.player.position ==> (r <==> a.snap.rank <= b.snap.rank)
    ensures a.player.position != b.player.position ==> (r <==> !StrLt(b.player.position, a.player.position))
  {
    StrLtTotal(a.player.position, b.player.position);
    StrLtIrreflexive(a.player.position);
    if StrLt(a.player.position, b.player.position) then
      StrLtAsymmetric(a.player.position, b.player.position);
      true
    else
      a.player.position == b.player.position && a.snap.rank <= b.snap.rank
  }

  lemma PositionRankOrderIsPreorder()
    ensures TotalPreorder(PositionRankOrder)
  {
    forall a: Joined, b: Joined ensures PositionRankOrder(a, b) || PositionRankOrder(b, a) {
      StrLtTotal(a.player.position, b.player.position);
    }
    forall a: Joined, b: Joined, c: Joined | PositionRankOrder(a, b) && PositionRankOrder(b, c)
      ensures PositionRankOrder(a, c)
    {
      if StrLt(a.player.position, b.player.position) && StrLt(b.player.position, c.player.position) {
        StrLtTransitive(a.player.position, b.player.position, c.player.position);
      }
    }
  }

  /** Lines 98-110: a result row as the response shows it. */
  function ToApiRow(j: Joined): (r: ApiRow)
    ensures r.playerId == j.player.playerId && r.position == j.player.position && r.rank == j.snap.rank
    ensures r.name == j.player.name && r.team == j.player.team && r.projectedPts == j.snap.projectedPts
    ensures r.season == j.snap.season && r.week == j.snap.week
    ensures r.rankChange.Some? <==> j.prevRank.Some?
    ensures r.rankChange.Some? ==> (r.rankChange.value > 0 <==> j.prevRank.value > j.snap.rank)
    ensures r.rankChange.Some? ==> r.rank + r.rankChange.value == j.prevRank.value
  {
    ApiRow(
      j.player.playerId, j.player.name, j.player.position, j.player.team, j.snap.rank,
      match j.prevRank case Some(pr) => Some(pr - j.snap.rank) case None => None,
      j.snap.projectedPts, j.snap.week, j.snap.season)
  }

  /** The rows the bound query returns, mapped to the response. */
  function Execute(players: seq<PlayerRecord>, snaps: seq<SnapshotRecord>, q: Query): (r: seq<ApiRow>)
    ensures forall x :: x in r ==> exists j :: j in Join(players, snaps, q) && Passes(q, j.player) && x == ToApiRow(j)
  {
    var selected := Filter(Join(players, snaps, q), (j: Joined) => Passes(q, j.player));
    var ordered := SortBy(PositionRankOrder, selected);
    var r := MapSeq(ordered, ToApiRow);
    forall x | x in r ensures exists j :: j in Join(players, snaps, q) && Passes(q, j.player) && x == ToApiRow(j) {
      OrderedRowSource(selected, x);
      var j :| j in selected && x == ToApiRow(j);
      assert j in Join(players, snaps, q) && Passes(q, j.player);
    }
    r
  }

  /** A row of the sorted, mapped result is the mapping of one of the rows sorted. */
  lemma OrderedRowSource(selected: seq<Joined>, x: ApiRow)
    requires x in MapSeq(SortBy(PositionRankOrder, selected), ToApiRow)
    ensures exists j :: j in selected && x == ToApiRow(j)
  {
    var ordered := SortBy(PositionRankOrder, selected);
    var i :| 0 <= i < |ordered| && x == ToApiRow(ordered[i]);
    assert ordered[i] in multiset(ordered);
  }

  /** The whole response for the `position` and `team` search parameters. */
  function Response(players: seq<PlayerRecord>, snaps: seq<SnapshotRecord>, position: Option<string>, team: Option<string>): (r: seq<ApiRow>)
    ensures snaps == [] ==> r == []
    ensures forall x :: x in r ==> LatestPeriod(snaps) == Some(SeasonWeek(x.season, x.week))
  {
    match LatestPeriod(snaps)
    case None => []
    case Some(latest) =>
      var r := Execute(players, snaps, QueryFor(latest, position, team));
      assert forall x :: x in r ==> latest == SeasonWeek(x.season, x.week) by {
        forall x | x in r ensures latest == SeasonWeek(x.season, x.week) {
          var j :| j in Join(players, snaps, QueryFor(latest, position, team)) && x == ToApiRow(j);
        }
      }
      r
  }

  /** `GET`: find the latest period, assemble the query, run it and map the rows. */
  method Get(players: seq<PlayerRecord>, snaps: seq<SnapshotRecord>, position: Option<string>, team: Option<string>)
    returns (rows: seq<ApiRow>)
    ensures rows == Response(players, snaps, position, team)
    ensures snaps == [] <==> LatestPeriod(snaps).None?
    ensures snaps == [] ==> rows == []
  {
    var latest := LatestPeriod(snaps);
    if latest.None? {
      return [];
    }
    var sql, args := BuildQuery(latest.value, position, team);
    var q := Bind(sql, args).value;
    var selected := Filter(Join(players, snaps, q), (j: Joined) => Passes(q, j.player));
    var ordered := SortBy(PositionRankOrder, selected);
    rows := MapSeq(ordered, ToApiRow);
  }

  // ---------------------------------------------------------------------------
  // Properties of the response

  /** A bound filter keeps exactly its value: a NULL team never matches a chosen team. */
  lemma ResponseFiltered(players: seq<PlayerRecord>, snaps: seq<SnapshotRecord>, position: Option<string>, team: Option<string>)
    ensures PositionFilter(position).Some? ==>
              forall r :: r in Response(players, snaps, position, team) ==> r.position == position.value
    ensures TeamFilter(team).Some? ==>
              forall r :: r in Response(players, snaps, position, team) ==> r.team == team
  {
    forall r | r in Response(players, snaps, position, team)
      ensures PositionFilter(position).Some? ==> r.position == position.value
      ensures TeamFilter(team).Some? ==> r.team == team
    {
      var q := QueryFor(LatestPeriod(snaps).value, position, team);
    }
  }

  /** In week 1 there is no previous period, so no row has a rank change. */
  lemma ResponseFirstWeek(players: seq<PlayerRecord>, snaps: seq<SnapshotRecord>, position: Option<string>, team: Option<string>)
    requires LatestPeriod(snaps).Some? && LatestPeriod(snaps).value.week <= 1
    ensures forall r :: r in Response(players, snaps, position, team) ==> r.rankChange.None?
  {
    var q := QueryFor(LatestPeriod(snaps).value, position, team);
    assert q.previous.None?;
    assert Response(players, snaps, position, team) == Execute(players, snaps, q);
    forall r | r in Execute(players, snaps, q) ensures r.rankChange.None? {
      var j :| j in Join(players, snaps, q) && Passes(q, j.player) && r == ToApiRow(j);
      assert j.prevRank.None?;
    }
  }

  /** Rows come by position in code-point order, then by rank ascending. */
  predicate OrderedByPositionRank(rows: seq<ApiRow>) {
    forall i, j :: 0 <= i < j < |rows| ==>
      || StrLt(rows[i].position, rows[j].position)
      || (rows[i].position == rows[j].position && rows[i].rank <= rows[j].rank)
  }

  lemma ResponseOrdered(players: seq<PlayerRecord>, snaps: seq<SnapshotRecord>, position: Option<string>, team: Option<string>)
    ensures OrderedByPositionRank(Response(players, snaps, position, team))
  {
    if LatestPeriod(snaps).Some? {
      var q := QueryFor(LatestPeriod(snaps).value, position, team);
      var selected := Filter(Join(players, snaps, q), (j: Joined) => Passes(q, j.player));
      var ordered := SortBy(PositionRankOrder, selected);
      var rows := Response(players, snaps, position, team);
      assert rows == MapSeq(ordered, ToApiRow);
      PositionRankOrderIsPreorder();
      SortBySorted(PositionRankOrder, selected);
      forall i, j | 0 <= i < j < |rows|
        ensures || StrLt(rows[i].position, rows[j].position)
                || (rows[i].position == rows[j].position && rows[i].rank <= rows[j].rank)
      {
        assert PositionRankOrder(ordered[i], ordered[j]);
        assert rows[i] == ToApiRow(ordered[i]) && rows[j] == ToApiRow(ordered[j]);
      }
    }
  }

  // ---------------------------------------------------------------------------
  // Under the table keys: one row per player with a latest snapshot

  /** The rank a player's snapshot holds for a period, if one is stored. */
  function RankAt(snaps: seq<SnapshotRecord>, id: string, period: SeasonWeek): Option<int> {
    var m := Filter(snaps, AtPeriod(id, period));
    if m == [] then None else Some(m[0].rank)
  }

  /** With keyed snapshots, `RankAt` is the rank of the one matching snapshot, and none without one. */
  lemma RankAtKeyed(snaps: seq<SnapshotRecord>, id: string, period: SeasonWeek)
    requires SnapshotsKeyed(snaps)
    ensures RankAt(snaps, id, period).None? <==> forall k :: 0 <= k < |snaps| ==> !AtPeriod(id, period)(snaps[k])
    ensures forall k :: 0 <= k < |snaps| && AtPeriod(id, period)(snaps[k]) ==> RankAt(snaps, id, period) == Some(snaps[k].rank)
  {
    forall k | 0 <= k < |snaps| && AtPeriod(id, period)(snaps[k])
      ensures RankAt(snaps, id, period) == Some(snaps[k].rank)
    {
      FilterSingleton(snaps, AtPeriod(id, period), k);
    }
    var m := Filter(snaps, AtPeriod(id, period));
    if m != [] {
      assert m[0] in m;
    }
  }

  /** The response row the route shows for player `p` with latest snapshot `s`. */
  function ExpectedRow(p: PlayerRecord, s: SnapshotRecord, snaps: seq<SnapshotRecord>, previous: Option<SeasonWeek>): ApiRow {
    var change :=
      match previous
      case None => None
      case Some(pp) =>
        match RankAt(snaps, p.playerId, pp)
        case None => None
        case Some(pr) => Some(pr - s.rank);
    ApiRow(p.playerId, p.name, p.position, p.team, s.rank, change, s.projectedPts, s.week, s.season)
  }

  /** The rank the left join pairs with a player's row. */
  function PrevRank(snaps: seq<SnapshotRecord>, id: string, previous: Option<SeasonWeek>): Option<int> {
    match previous
    case None => None
    case Some(pp) => RankAt(snaps, id, pp)
  }

  lemma ExpectedRowMapped(p: PlayerRecord, s: SnapshotRecord, snaps: seq<SnapshotRecord>, previous: Option<SeasonWeek>)
    ensures ToApiRow(Joined(p, s, PrevRank(snaps, p.playerId, previous))) == ExpectedRow(p, s, snaps, previous)
  {
  }

  /** Under the keys, the row a player contributes to the join, if any. */
  function JoinOne(snaps: seq<SnapshotRecord>, q: Query): (r: PlayerRecord -> Option<Joined>)
    ensures forall p :: r(p).Some? <==> exists s :: s in snaps && AtPeriod(p.playerId, q.period)(s)
    ensures forall p :: r(p).Some? ==>
              r(p).value.player == p && r(p).value.snap in snaps && AtPeriod(p.playerId, q.period)(r(p).value.snap)
              && r(p).value.prevRank == PrevRank(snaps, p.playerId, q.previous)
  {
    (p: PlayerRecord) => OneOf(snaps, q, p)
  }

  /** The row of player `p`, for `JoinOne`. */
  function OneOf(snaps: seq<SnapshotRecord>, q: Query, p: PlayerRecord): (r: Option<Joined>)
    ensures r.Some? <==> exists s :: s in snaps && AtPeriod(p.playerId, q.period)(s)
    ensures r.Some? ==>
              r.value.player == p && r.value.snap in snaps && AtPeriod(p.playerId, q.period)(r.value.snap)
              && r.value.prevRank == PrevRank(snaps, p.playerId, q.previous)
  {
    var current := Filter(snaps, AtPeriod(p.playerId, q.period));
    if current == [] then None
    else
      assert current[0] in current;
      Some(Joined(p, current[0], PrevRank(snaps, p.playerId, q.previous)))
  }

  /** With keyed snapshots, each player contributes at most the one row `JoinOne` names. */
  lemma PlayerRowsKeyed(snaps: seq<SnapshotRecord>, q: Query, p: PlayerRecord)
    requires SnapshotsKeyed(snaps)
    ensures PlayerRows(snaps, q)(p) == Keep(JoinOne(snaps, q)(p))
  {
    assert PlayerRows(snaps, q)(p) == RowsOf(snaps, q, p);
    assert JoinOne(snaps, q)(p) == OneOf(snaps, q, p);
    RowsOfKeyed(snaps, q, p);
  }

  lemma RowsOfKeyed(snaps: seq<SnapshotRecord>, q: Query, p: PlayerRecord)
    requires SnapshotsKeyed(snaps)
    ensures RowsOf(snaps, q, p) == Keep(OneOf(snaps, q, p))
  {
    var current := Filter(snaps, AtPeriod(p.playerId, q.period));
    var left := (s: SnapshotRecord) => LeftJoin(p, s, snaps, q.previous);
    assert RowsOf(snaps, q, p) == FlatMap(current, left);
    if current != [] {
      assert current[0] in current;
      var k :| 0 <= k < |snaps| && snaps[k] == current[0];
      FilterSingleton(snaps, AtPeriod(p.playerId, q.period), k);
      FlatMapSingleton(current, left);
      LeftJoinKeyed(p, current[0], snaps, q.previous);
    }
  }

  /** With keyed snapshots the left join yields one row, carrying the one matching previous rank or none. */
  lemma LeftJoinKeyed(p: PlayerRecord, s: SnapshotRecord, snaps: seq<SnapshotRecord>, previous: Option<SeasonWeek>)
    requires SnapshotsKeyed(snaps)
    ensures LeftJoin(p, s, snaps, previous) == [Joined(p, s, PrevRank(snaps, p.playerId, previous))]
  {
    if previous.Some? {
      var pp := previous.value;
      var prevs := Filter(snaps, AtPeriod(p.playerId, pp));
      if prevs != [] {
        assert prevs[0] in prevs;
        var k :| 0 <= k < |snaps| && snaps[k] == prevs[0];
        FilterSingleton(snaps, AtPeriod(p.playerId, pp), k);
      }
    }
  }

  /** With keyed snapshots the join is a selection of players, one row each at most. */
  lemma JoinKeyed(players: seq<PlayerRecord>, snaps: seq<SnapshotRecord>, q: Query)
    requires SnapshotsKeyed(snaps)
    ensures Join(players, snaps, q) == FilterMap(players, JoinOne(snaps, q))
  {
    forall i | 0 <= i < |players|
      ensures PlayerRows(snaps, q)(players[i]) == Keep(JoinOne(snaps, q)(players[i]))
    {
      PlayerRowsKeyed(snaps, q, players[i]);
    }
    FlatMapKeep(players, PlayerRows(snaps, q), JoinOne(snaps, q));
  }

  /** The route shows player `players[i]` with snapshot `snaps[k]`: it is of the latest period and passes the filters. */
  predicate Shown(players: seq<PlayerRecord>, snaps: seq<SnapshotRecord>, q: Query, i: int, k: int) {
    && 0 <= i < |players| && 0 <= k < |snaps|
    && snaps[k].playerId == players[i].playerId && snaps[k].Period() == q.period
    && Passes(q, players[i])
  }

  predicate RowIdsDistinct(rows: seq<ApiRow>) {
    forall a, b :: 0 <= a < b < |rows| ==> rows[a].playerId != rows[b].playerId
  }

  /** Every joined row that passes the filters is shown. */
  lemma ExecuteComplete(players: seq<PlayerRecord>, snaps: seq<SnapshotRecord>, q: Query, j: Joined)
    requires j in Join(players, snaps, q) && Passes(q, j.player)
    ensures ToApiRow(j) in Execute(players, snaps, q)
  {
    var selected := Filter(Join(players, snaps, q), (j: Joined) => Passes(q, j.player));
    var ordered := SortBy(PositionRankOrder, selected);
    assert j in selected;
    SortByMember(PositionRankOrder, selected, j);
    MapSeqMember(ordered, ToApiRow, j);
  }

  /** What `JoinOne` pairs a player with. */
  lemma JoinOneSource(snaps: seq<SnapshotRecord>, q: Query, p: PlayerRecord, j: Joined)
    requires JoinOne(snaps, q)(p) == Some(j)
    ensures j.player == p && j.snap in snaps && AtPeriod(p.playerId, q.period)(j.snap)
    ensures j.prevRank == PrevRank(snaps, p.playerId, q.previous)
  {
    var current := Filter(snaps, AtPeriod(p.playerId, q.period));
    assert current[0] in current;
  }

  /** Inner join: every player with a latest snapshot that passes the filters is shown, with its delta. */
  lemma ResponseComplete(players: seq<PlayerRecord>, snaps: seq<SnapshotRecord>, position: Option<string>, team: Option<string>,
                         latest: SeasonWeek, i: nat, k: nat)
    requires SnapshotsKeyed(snaps) && LatestPeriod(snaps) == Some(latest)
    requires Shown(players, snaps, QueryFor(latest, position, team), i, k)
    ensures ExpectedRow(players[i], snaps[k], snaps, PreviousPeriod(latest)) in Response(players, snaps, position, team)
  {
    var q := QueryFor(latest, position, team);
    JoinKeyed(players, snaps, q);
    var one := JoinOne(snaps, q);
    var p := players[i];
    FilterSingleton(snaps, AtPeriod(p.playerId, latest), k);
    var j := Joined(p, snaps[k], PrevRank(snaps, p.playerId, q.previous));
    assert one(p) == Some(j);
    FilterMapComplete(players, one, i);
    ExecuteComplete(players, snaps, q, j);
    ExpectedRowMapped(p, snaps[k], snaps, q.previous);
    assert Response(players, snaps, position, team) == Execute(players, snaps, q);
  }

  /** Every row shown is the expected row of a player with a latest snapshot that passes the filters. */
  lemma ResponseSound(players: seq<PlayerRecord>, snaps: seq<SnapshotRecord>, position: Option<string>, team: Option<string>,
                      latest: SeasonWeek, r: ApiRow)
    requires SnapshotsKeyed(snaps) && LatestPeriod(snaps) == Some(latest)
    requires r in Response(players, snaps, position, team)
    ensures exists i, k :: Shown(players, snaps, QueryFor(latest, position, team), i, k) &&
                           r == ExpectedRow(players[i], snaps[k], snaps, PreviousPeriod(latest))
  {
    var q := QueryFor(latest, position, team);
    assert Response(players, snaps, position, team) == Execute(players, snaps, q);
    var j :| j in Join(players, snaps, q) && Passes(q, j.player) && r == ToApiRow(j);
    JoinedShown(players, snaps, q, j);
  }

  /** A joined row that passes the filters is the expected row of a shown player and snapshot. */
  lemma JoinedShown(players: seq<PlayerRecord>, snaps: seq<SnapshotRecord>, q: Query, j: Joined)
    requires SnapshotsKeyed(snaps)
    requires j in Join(players, snaps, q) && Passes(q, j.player)
    ensures exists i, k :: Shown(players, snaps, q, i, k) && ToApiRow(j) == ExpectedRow(players[i], snaps[k], snaps, q.previous)
  {
    var joined := Join(players, snaps, q);
    JoinKeyed(players, snaps, q);
    var one := JoinOne(snaps, q);
    var t :| 0 <= t < |joined| && joined[t] == j;
    FilterMapSource(players, one, t);
    var i :| 0 <= i < |players| && one(players[i]) == Some(j);
    JoinOneSource(snaps, q, players[i], j);
    var k :| 0 <= k < |snaps| && snaps[k] == j.snap;
    ExpectedRowMapped(players[i], snaps[k], snaps, q.previous);
    assert Shown(players, snaps, q, i, k);
  }

  /** Each player is shown at most once. */
  lemma ResponseOnePerPlayer(players: seq<PlayerRecord>, snaps: seq<SnapshotRecord>, position: Option<string>, team: Option<string>)
    requires PlayersKeyed(players) && SnapshotsKeyed(snaps)
    ensures RowIdsDistinct(Response(players, snaps, position, team))
  {
    if snaps != [] {
      var q := QueryFor(LatestPeriod(snaps).value, position, team);
      assert Response(players, snaps, position, team) == Execute(players, snaps, q);
      ExecuteOnePerPlayer(players, snaps, q);
    }
  }

  /** The query yields at most one row per player. */
  lemma ExecuteOnePerPlayer(players: seq<PlayerRecord>, snaps: seq<SnapshotRecord>, q: Query)
    requires PlayersKeyed(players) && SnapshotsKeyed(snaps)
    ensures RowIdsDistinct(Execute(players, snaps, q))
  {
    var selected := Filter(Join(players, snaps, q), (j: Joined) => Passes(q, j.player));
    var ordered := SortBy(PositionRankOrder, selected);
    SelectedOnePerPlayer(players, snaps, q);
    PermutationKeepsKeysDistinct((j: Joined) => j.player.playerId, selected, ordered);
    RowsOnePerPlayer(ordered);
    assert Execute(players, snaps, q) == MapSeq(ordered, ToApiRow);
  }

  predicate JoinedIdsDistinct(s: seq<Joined>) {
    forall a, b :: 0 <= a < b < |s| ==> s[a].player.playerId != s[b].player.playerId
  }

  /** The joined rows that pass the filters name each player at most once. */
  lemma SelectedOnePerPlayer(players: seq<PlayerRecord>, snaps: seq<SnapshotRecord>, q: Query)
    requires PlayersKeyed(players) && SnapshotsKeyed(snaps)
    ensures JoinedIdsDistinct(Filter(Join(players, snaps, q), (j: Joined) => Passes(q, j.player)))
  {
    var id := (j: Joined) => j.player.playerId;
    JoinKeyed(players, snaps, q);
    FilterMapKeysDistinct(players, JoinOne(snaps, q), (p: PlayerRecord) => p.playerId, id);
    FilterKeysDistinct(Join(players, snaps, q), (j: Joined) => Passes(q, j.player), id);
  }

  /** Mapping joined rows that name distinct players gives response rows with distinct ids. */
  lemma RowsOnePerPlayer(ordered: seq<Joined>)
    requires JoinedIdsDistinct(ordered)
    ensures RowIdsDistinct(MapSeq(ordered, ToApiRow))
  {
    var rows := MapSeq(ordered, ToApiRow);
    forall a, b | 0 <= a < b < |rows| ensures rows[a].playerId != rows[b].playerId {
      assert rows[a] == ToApiRow(ordered[a]) && rows[b] == ToApiRow(ordered[b]);
    }
  }
}
