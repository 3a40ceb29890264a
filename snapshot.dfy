/**
 * The snapshot pipeline (`POST /api/cron/snapshot`): fetch the player directory
 * and the week's projections, rank every tracked position, and record one
 * snapshot row per ranked player for the target season and week.
 *
 * The upstream payloads are parameters; the database is a `Store.Db`.
 */
module Snapshot {
  import opened Options
  import opened Seqs
  import opened Sorting
  import opened Sleeper
  import opened Store

  type ProjectionEntry = (string, SleeperProjection)
  type StatsEntry = (string, SleeperStats)

  /** `proj.pts_ppr ?? 0`. */
  function ProjectedPoints(p: SleeperProjection): (r: int)
    ensures p.ptsPpr.Some? ==> r == p.ptsPpr.value
    ensures p.ptsPpr.None? ==> r == 0
    ensures r > 0 <==> p.ptsPpr.Some? && p.ptsPpr.value > 0
  {
    p.ptsPpr.GetOr(0)
  }

  /** Some projection in the payload has a positive PPR value. */
  predicate HasProjections(proj: Entries<SleeperProjection>): (r: bool)
    ensures r <==> exists e :: e in proj && e.1.ptsPpr.Some? && e.1.ptsPpr.value > 0
  {
    exists i :: 0 <= i < |proj| && ProjectedPoints(proj[i].1) > 0
  }

  /** An entry of `tempByPos`. */
  datatype Candidate = Candidate(id: string, pts: int)

  /** An entry of `byPosition`: the rank, and the points stored with it. */
  datatype Ranked = Ranked(id: string, pts: Option<int>, rank: int)

  // ---------------------------------------------------------------------------
  // Projections path

  /**
   * The filters of the projections loop: the player is in the directory, is
   * ranked under `pos`, is active, and is projected more than zero points.
   */
  function ProjectionCandidate(dir: Entries<SleeperPlayer>, pos: Position): (r: ProjectionEntry -> Option<Candidate>)
    ensures forall e :: r(e).Some? ==> r(e).value == Candidate(e.0, ProjectedPoints(e.1)) && r(e).value.pts > 0
    ensures forall e :: r(e).Some? <==>
              Lookup(dir, e.0).Some? && Lookup(dir, e.0).value.active == Some(true) && TrackedPosition(Lookup(dir, e.0).value) == Some(pos)
              && ProjectedPoints(e.1) > 0
  {
    (e: ProjectionEntry) =>
      var player := Lookup(dir, e.0);
      if player.Some? && TrackedPosition(player.value) == Some(pos)
         && player.value.active == Some(true) && ProjectedPoints(e.1) > 0
      then Some(Candidate(e.0, ProjectedPoints(e.1)))
      else None
  }

  /** `tempByPos[pos]` once the projections loop has run. */
  function Candidates(dir: Entries<SleeperPlayer>, proj: Entries<SleeperProjection>, pos: Position): (r: seq<Candidate>)
    ensures |r| <= |proj|
    ensures forall c :: c in r ==> c.pts > 0
  {
    var r := FilterMap(proj, ProjectionCandidate(dir, pos));
    forall c | c in r ensures c.pts > 0 {
      var k :| 0 <= k < |r| && r[k] == c;
      FilterMapSource(proj, ProjectionCandidate(dir, pos), k);
    }
    r
  }

  /** The comparator `(a, b) => b.pts - a.pts`: `a` may come first when it has at least as many points. */
  predicate MorePoints(a: Candidate, b: Candidate): (r: bool)
    ensures r <==> b.pts - a.pts <= 0
  {
    a.pts >= b.pts
  }

  lemma MorePointsPreorder()
    ensures TotalPreorder(MorePoints)
  {
  }

  /** `.forEach(({ id, pts }, i) => push({ id, pts, rank: i + 1 }))`. */
  function RankInOrder(sorted: seq<Candidate>): seq<Ranked> {
    seq(|sorted|, i requires 0 <= i < |sorted| => Ranked(sorted[i].id, Some(sorted[i].pts), i + 1))
  }

  /** `byPosition[pos]` on the projections path. */
  function ProjectionRanking(dir: Entries<SleeperPlayer>, proj: Entries<SleeperProjection>, pos: Position): (r: seq<Ranked>)
    ensures |r| == |Candidates(dir, proj, pos)|
    ensures forall k :: 0 <= k < |r| ==> r[k].rank == k + 1
  {
    RankInOrder(SortBy(MorePoints, Candidates(dir, proj, pos)))
  }

  /** A ranked group with the ranks dropped. */
  function Unranked(g: seq<Ranked>): seq<Candidate> {
    seq(|g|, k requires 0 <= k < |g| => Candidate(g[k].id, g[k].pts.GetOr(0)))
  }

  // ---------------------------------------------------------------------------
  // Stats path

  /**
   * The filters of the stats loop: a truthy `pos_rank_ppr`, a known player,
   * ranked under `pos`. The rank is taken verbatim and the points may be absent.
   */
  function StatsEntryFor(dir: Entries<SleeperPlayer>, pos: Position): (r: StatsEntry -> Option<Ranked>)
    ensures forall e :: r(e).Some? <==>
              e.1.posRankPpr.Some? && e.1.posRankPpr != Some(0)
              && Lookup(dir, e.0).Some? && TrackedPosition(Lookup(dir, e.0).value) == Some(pos)
    ensures forall e :: r(e).Some? ==> r(e).value == Ranked(e.0, e.1.ptsPpr, e.1.posRankPpr.value)
  {
    (e: StatsEntry) =>
      if e.1.posRankPpr.None? || e.1.posRankPpr == Some(0) then None
      else
        var player := Lookup(dir, e.0);
        if player.Some? && TrackedPosition(player.value) == Some(pos)
        then Some(Ranked(e.0, e.1.ptsPpr, e.1.posRankPpr.value))
        else None
  }

  /** `byPosition[pos]` on the stats path. */
  function StatsRanking(dir: Entries<SleeperPlayer>, stats: Entries<SleeperStats>, pos: Position): (r: seq<Ranked>)
    ensures |r| <= |stats|
    ensures forall k :: 0 <= k < |r| ==> r[k].rank != 0
  {
    var r := FilterMap(stats, StatsEntryFor(dir, pos));
    forall k | 0 <= k < |r| ensures r[k].rank != 0 {
      FilterMapSource(stats, StatsEntryFor(dir, pos), k);
    }
    r
  }

  // ---------------------------------------------------------------------------
  // The whole ranking and the statements built from it

  /** `byPosition[pos]`: projections when any are positive, the stats otherwise. */
  function Ranking(dir: Entries<SleeperPlayer>, proj: Entries<SleeperProjection>, stats: Entries<SleeperStats>, pos: Position): (r: seq<Ranked>)
    ensures HasProjections(proj) ==> |r| == |Candidates(dir, proj, pos)| && forall k :: 0 <= k < |r| ==> r[k].rank == k + 1
    ensures !HasProjections(proj) ==> |r| <= |stats|
    ensures forall k :: 0 <= k < |r| ==> r[k].rank != 0
  {
    if HasProjections(proj) then ProjectionRanking(dir, proj, pos) else StatsRanking(dir, stats, pos)
  }

  function Rankings(dir: Entries<SleeperPlayer>, proj: Entries<SleeperProjection>, stats: Entries<SleeperStats>): (r: PerPosition<seq<Ranked>>)
    ensures forall p: Position :: r.Get(p) == Ranking(dir, proj, stats, p)
  {
    Tabulate((p: Position) => Ranking(dir, proj, stats, p))
  }

  /** One ranked entry together with the position it is ranked under. */
  datatype Planned = Planned(pos: Position, entry: Ranked)

  function Tag(pos: Position, g: seq<Ranked>): seq<Planned> {
    seq(|g|, k requires 0 <= k < |g| => Planned(pos, g[k]))
  }

  /** The groups of `ps`, one after another: the order of the statement loop. */
  function Flatten(groups: PerPosition<seq<Ranked>>, ps: seq<Position>): (r: seq<Planned>)
    ensures forall t :: 0 <= t < |r| ==> r[t].pos in ps && r[t].entry in groups.Get(r[t].pos)
  {
    if ps == [] then []
    else
      var n := |ps| - 1;
      var r0 := Flatten(groups, ps[..n]);
      var tag := Tag(ps[n], groups.Get(ps[n]));
      assert forall t :: 0 <= t < |r0| ==> r0[t].pos in ps by {
        forall t | 0 <= t < |r0| ensures r0[t].pos in ps {
          var i :| 0 <= i < n && ps[..n][i] == r0[t].pos;
          assert ps[i] == r0[t].pos;
        }
      }
      assert forall t :: 0 <= t < |tag| ==> tag[t].entry in groups.Get(ps[n]);
      r0 + tag
  }

  /** Every entry ranked under a player's own tracked position, in statement order. */
  function Plan(dir: Entries<SleeperPlayer>, proj: Entries<SleeperProjection>, stats: Entries<SleeperStats>): (r: seq<Planned>)
    ensures forall t :: 0 <= t < |r| ==>
              Lookup(dir, r[t].entry.id).Some? && TrackedPosition(Lookup(dir, r[t].entry.id).value) == Some(r[t].pos)
  {
    var groups := Rankings(dir, proj, stats);
    var r := Flatten(groups, TRACKED_POSITIONS);
    forall t | 0 <= t < |r|
      ensures Lookup(dir, r[t].entry.id).Some? && TrackedPosition(Lookup(dir, r[t].entry.id).value) == Some(r[t].pos)
    {
      RankingPositioned(dir, proj, stats, r[t].pos, r[t].entry);
    }
    r
  }

  /** The player upsert for one planned entry (`args: [id, name, pos, team ?? null]`). */
  function PlayerStatement(dir: Entries<SleeperPlayer>, x: Planned): (r: PlayerUpsert)
    requires Lookup(dir, x.entry.id).Some?
    ensures r.playerId == x.entry.id && r.position == x.pos.Name()
    ensures r.name == DisplayName(Lookup(dir, x.entry.id).value) && r.team == Lookup(dir, x.entry.id).value.team
  {
    var player := Lookup(dir, x.entry.id).value;
    PlayerUpsert(x.entry.id, DisplayName(player), x.pos.Name(), player.team)
  }

  /** The snapshot insert for one planned entry (`args: [id, week, season, rank, pts]`). */
  function SnapshotStatement(x: Planned, season: int, week: int): (r: SnapshotInsert)
    ensures r.Key() == SnapshotKey(x.entry.id, season, week)
    ensures r.rank == x.entry.rank && r.projectedPts == x.entry.pts
  {
    SnapshotInsert(x.entry.id, week, season, x.entry.rank, x.entry.pts)
  }

  function PlayerStatements(dir: Entries<SleeperPlayer>, plan: seq<Planned>): (r: seq<PlayerUpsert>)
    requires forall t :: 0 <= t < |plan| ==> Lookup(dir, plan[t].entry.id).Some?
    ensures |r| == |plan|
    ensures forall t :: 0 <= t < |plan| ==>
              r[t].playerId == plan[t].entry.id && r[t].position == plan[t].pos.Name()
              && r[t].name == DisplayName(Lookup(dir, plan[t].entry.id).value) && r[t].team == Lookup(dir, plan[t].entry.id).value.team
  {
    seq(|plan|, t requires 0 <= t < |plan| => PlayerStatement(dir, plan[t]))
  }

  function SnapshotStatements(plan: seq<Planned>, season: int, week: int): (r: seq<SnapshotInsert>)
    ensures |r| == |plan|
    ensures forall t :: 0 <= t < |plan| ==>
              r[t].playerId == plan[t].entry.id && r[t].season == season && r[t].week == week
              && r[t].rank == plan[t].entry.rank && r[t].projectedPts == plan[t].entry.pts
  {
    seq(|plan|, t requires 0 <= t < |plan| => SnapshotStatement(plan[t], season, week))
  }

  // ---------------------------------------------------------------------------
  // Properties of the ranking

  /** What survives the projections loop is known, ranked under `pos`, and projected above zero. */
  lemma CandidateOrigin(dir: Entries<SleeperPlayer>, proj: Entries<SleeperProjection>, pos: Position, c: Candidate)
    requires c in Candidates(dir, proj, pos)
    ensures Lookup(dir, c.id).Some? && TrackedPosition(Lookup(dir, c.id).value) == Some(pos)
    ensures Lookup(dir, c.id).value.active == Some(true)
    ensures c.pts > 0
  {
    var cs := Candidates(dir, proj, pos);
    var k :| 0 <= k < |cs| && cs[k] == c;
    FilterMapSource(proj, ProjectionCandidate(dir, pos), k);
  }

  /**
   * The candidates of a position are exactly the projection entries that pass
   * the filters, in payload order, each with its PPR points.
   */
  lemma CandidatesSelect(dir: Entries<SleeperPlayer>, proj: Entries<SleeperProjection>, pos: Position)
    ensures exists idx :: Selects(proj, ProjectionCandidate(dir, pos), Candidates(dir, proj, pos), idx)
  {
    FilterMapSelects(proj, ProjectionCandidate(dir, pos));
    assert Selects(proj, ProjectionCandidate(dir, pos), Candidates(dir, proj, pos), FilterMapIndices(proj, ProjectionCandidate(dir, pos)));
  }

  /**
   * On the projections path a group is its candidates sorted by points, most
   * first, ranked 1, 2, 3, ... in that order; candidates with equal points keep
   * their payload order.
   */
  lemma ProjectionRankingOrdered(dir: Entries<SleeperPlayer>, proj: Entries<SleeperProjection>, pos: Position)
    ensures var g := ProjectionRanking(dir, proj, pos);
            && |g| == |Candidates(dir, proj, pos)|
            && (forall k :: 0 <= k < |g| ==> g[k].rank == k + 1 && g[k].pts.Some? && g[k].pts.value > 0)
            && (forall k, l :: 0 <= k < l < |g| ==> g[k].pts.value >= g[l].pts.value)
            && multiset(Unranked(g)) == multiset(Candidates(dir, proj, pos))
            && (forall c :: Equivalents(MorePoints, c, Unranked(g)) == Equivalents(MorePoints, c, Candidates(dir, proj, pos)))
  {
    var cs := Candidates(dir, proj, pos);
    var sorted := SortBy(MorePoints, cs);
    var g := ProjectionRanking(dir, proj, pos);
    MorePointsPreorder();
    SortBySorted(MorePoints, cs);
    assert Unranked(g) == sorted;
    forall k | 0 <= k < |g| ensures g[k].pts.Some? && g[k].pts.value > 0 {
      assert sorted[k] in multiset(cs);
      CandidateOrigin(dir, proj, pos, sorted[k]);
    }
    forall k, l | 0 <= k < l < |g| ensures g[k].pts.value >= g[l].pts.value {
      assert MorePoints(sorted[k], sorted[l]);
    }
    forall c ensures Equivalents(MorePoints, c, Unranked(g)) == Equivalents(MorePoints, c, cs) {
      SortByStable(MorePoints, c, cs);
    }
  }

  /**
   * On the stats path a group is exactly the stats entries that pass the
   * filters, in payload order, with the upstream rank taken verbatim.
   */
  lemma StatsRankingSelects(dir: Entries<SleeperPlayer>, stats: Entries<SleeperStats>, pos: Position)
    ensures exists idx :: Selects(stats, StatsEntryFor(dir, pos), StatsRanking(dir, stats, pos), idx)
    ensures forall k :: 0 <= k < |StatsRanking(dir, stats, pos)| ==> StatsRanking(dir, stats, pos)[k].rank != 0
  {
    FilterMapSelects(stats, StatsEntryFor(dir, pos));
    assert StatsRanking(dir, stats, pos) == FilterMap(stats, StatsEntryFor(dir, pos));
  }

  /** The stats payload is consulted only when no projection is positive. */
  lemma RankingIgnoresStats(dir: Entries<SleeperPlayer>, proj: Entries<SleeperProjection>, s1: Entries<SleeperStats>, s2: Entries<SleeperStats>)
    requires HasProjections(proj)
    ensures Rankings(dir, proj, s1) == Rankings(dir, proj, s2)
  {
  }

  /** Every ranked entry is a known player ranked under the player's own tracked position. */
  lemma RankingPositioned(dir: Entries<SleeperPlayer>, proj: Entries<SleeperProjection>, stats: Entries<SleeperStats>, pos: Position, e: Ranked)
    requires e in Ranking(dir, proj, stats, pos)
    ensures Lookup(dir, e.id).Some? && TrackedPosition(Lookup(dir, e.id).value) == Some(pos)
  {
    var g := Ranking(dir, proj, stats, pos);
    var k :| 0 <= k < |g| && g[k] == e;
    if HasProjections(proj) {
      var sorted := SortBy(MorePoints, Candidates(dir, proj, pos));
      assert e.id == sorted[k].id;
      assert sorted[k] in multiset(Candidates(dir, proj, pos));
      CandidateOrigin(dir, proj, pos, sorted[k]);
    } else {
      FilterMapSource(stats, StatsEntryFor(dir, pos), k);
    }
  }

  /** Within a group no player appears twice, because no payload repeats a key. */
  lemma RankingIdsDistinct(dir: Entries<SleeperPlayer>, proj: Entries<SleeperProjection>, stats: Entries<SleeperStats>, pos: Position)
    requires DistinctKeys(proj) && DistinctKeys(stats)
    ensures var g := Ranking(dir, proj, stats, pos);
            forall k, l :: 0 <= k < l < |g| ==> g[k].id != g[l].id
  {
    if HasProjections(proj) {
      var cs := Candidates(dir, proj, pos);
      var f := ProjectionCandidate(dir, pos);
      FilterMapKeysDistinct(proj, f, (e: ProjectionEntry) => e.0, (c: Candidate) => c.id);
      var sorted := SortBy(MorePoints, cs);
      PermutationKeepsKeysDistinct((c: Candidate) => c.id, cs, sorted);
    } else {
      FilterMapKeysDistinct(stats, StatsEntryFor(dir, pos), (e: StatsEntry) => e.0, (r: Ranked) => r.id);
    }
  }

  // ---------------------------------------------------------------------------
  // Properties of the flattened plan

  /** The tracked position of a player of the directory. */
  function PositionOf(dir: Entries<SleeperPlayer>): string -> Option<Position> {
    (id: string) => match Lookup(dir, id) case None => None case Some(player) => TrackedPosition(player)
  }

  /** Every entry is a known player ranked under the player's own tracked position. */
  ghost predicate Positioned(dir: Entries<SleeperPlayer>, groups: PerPosition<seq<Ranked>>) {
    forall p: Position, e :: e in groups.Get(p) ==>
      Lookup(dir, e.id).Some? && TrackedPosition(Lookup(dir, e.id).value) == Some(p)
  }

  /** No group lists a player twice. */
  ghost predicate NoRepeats(groups: PerPosition<seq<Ranked>>) {
    forall p: Position, k, l :: 0 <= k < l < |groups.Get(p)| ==> groups.Get(p)[k].id != groups.Get(p)[l].id
  }

  lemma PositionedByPositionOf(dir: Entries<SleeperPlayer>, groups: PerPosition<seq<Ranked>>)
    requires Positioned(dir, groups)
    ensures forall p: Position, e :: e in groups.Get(p) ==> PositionOf(dir)(e.id) == Some(p)
  {
  }

  lemma RankingsPositioned(dir: Entries<SleeperPlayer>, proj: Entries<SleeperProjection>, stats: Entries<SleeperStats>)
    ensures Positioned(dir, Rankings(dir, proj, stats))
  {
    var groups := Rankings(dir, proj, stats);
    forall p: Position, e | e in groups.Get(p)
      ensures Lookup(dir, e.id).Some? && TrackedPosition(Lookup(dir, e.id).value) == Some(p)
    {
      RankingPositioned(dir, proj, stats, p, e);
    }
  }

  lemma RankingsNoRepeats(dir: Entries<SleeperPlayer>, proj: Entries<SleeperProjection>, stats: Entries<SleeperStats>)
    requires DistinctKeys(proj) && DistinctKeys(stats)
    ensures NoRepeats(Rankings(dir, proj, stats))
  {
    var groups := Rankings(dir, proj, stats);
    forall p: Position ensures forall k, l :: 0 <= k < l < |groups.Get(p)| ==> groups.Get(p)[k].id != groups.Get(p)[l].id {
      RankingIdsDistinct(dir, proj, stats, p);
    }
  }

  lemma {:induction false} FlattenPrefix(groups: PerPosition<seq<Ranked>>, ps: seq<Position>, i: nat)
    requires i <= |ps|
    ensures Flatten(groups, ps[..i]) <= Flatten(groups, ps)
    decreases |ps|
  {
    if i < |ps| {
      var n := |ps| - 1;
      assert ps[..n][..i] == ps[..i];
      FlattenPrefix(groups, ps[..n], i);
    } else {
      assert ps[..i] == ps;
    }
  }

  /** Entry `k` of the group of `ps[i]` sits right after the groups of `ps[..i]`. */
  lemma FlattenSlot(groups: PerPosition<seq<Ranked>>, ps: seq<Position>, i: nat, k: nat)
    requires i < |ps| && k < |groups.Get(ps[i])|
    ensures |Flatten(groups, ps[..i])| + k < |Flatten(groups, ps)|
    ensures Flatten(groups, ps)[|Flatten(groups, ps[..i])| + k] == Planned(ps[i], groups.Get(ps[i])[k])
  {
    var before := Flatten(groups, ps[..i]);
    var upto := Flatten(groups, ps[..i + 1]);
    assert upto == before + Tag(ps[i], groups.Get(ps[i])) by {
      assert ps[..i + 1][..i] == ps[..i];
    }
    assert upto[|before| + k] == Planned(ps[i], groups.Get(ps[i])[k]);
    FlattenPrefix(groups, ps, i + 1);
  }

  /** Each entry of each group of `ps` has a place in the plan. */
  lemma FlattenComplete(groups: PerPosition<seq<Ranked>>, ps: seq<Position>, i: nat, k: nat)
    requires i < |ps| && k < |groups.Get(ps[i])|
    ensures exists t :: 0 <= t < |Flatten(groups, ps)| && Flatten(groups, ps)[t] == Planned(ps[i], groups.Get(ps[i])[k])
  {
    FlattenSlot(groups, ps, i, k);
  }

  /** After the groups of `ps[..i]` come those of `ps[i]`. */
  lemma FlattenStep(groups: PerPosition<seq<Ranked>>, ps: seq<Position>, i: nat)
    requires i < |ps|
    ensures |Flatten(groups, ps[..i + 1])| == |Flatten(groups, ps[..i])| + |groups.Get(ps[i])|
  {
    assert ps[..i + 1][..i] == ps[..i];
  }

  /**
   * A player appears at most once in the plan when no group repeats a player
   * and `posOf` names the one position each player can be ranked under.
   */
  lemma {:induction false} FlattenIdsDistinct(posOf: string -> Option<Position>, groups: PerPosition<seq<Ranked>>, ps: seq<Position>)
    requires forall i, j :: 0 <= i < j < |ps| ==> ps[i] != ps[j]
    requires NoRepeats(groups)
    requires forall p: Position, e :: e in groups.Get(p) ==> posOf(e.id) == Some(p)
    ensures IdsDistinct(Flatten(groups, ps))
  {
    if ps != [] {
      var n := |ps| - 1;
      var r0 := Flatten(groups, ps[..n]);
      var tag := Tag(ps[n], groups.Get(ps[n]));
      assert IdsDistinct(r0) by {
        assert forall i, j :: 0 <= i < j < n ==> ps[..n][i] != ps[..n][j];
        FlattenIdsDistinct(posOf, groups, ps[..n]);
      }
      assert IdsDistinct(tag) by {
        forall t, u | 0 <= t < u < |tag| ensures tag[t].entry.id != tag[u].entry.id {
          assert tag[t].entry == groups.Get(ps[n])[t] && tag[u].entry == groups.Get(ps[n])[u];
        }
      }
      FlattenLastDisjoint(posOf, groups, ps);
      AppendIdsDistinct(r0, tag);
      assert Flatten(groups, ps) == r0 + tag;
    }
  }

  /** No player of the last group is planned under an earlier position. */
  lemma FlattenLastDisjoint(posOf: string -> Option<Position>, groups: PerPosition<seq<Ranked>>, ps: seq<Position>)
    requires ps != []
    requires forall i, j :: 0 <= i < j < |ps| ==> ps[i] != ps[j]
    requires forall p: Position, e :: e in groups.Get(p) ==> posOf(e.id) == Some(p)
    ensures forall x, y :: x in Flatten(groups, ps[..|ps| - 1]) && y in Tag(ps[|ps| - 1], groups.Get(ps[|ps| - 1])) ==>
              x.entry.id != y.entry.id
  {
    var n := |ps| - 1;
    var r0 := Flatten(groups, ps[..n]);
    var tag := Tag(ps[n], groups.Get(ps[n]));
    forall x, y | x in r0 && y in tag ensures x.entry.id != y.entry.id {
      var t :| 0 <= t < |r0| && r0[t] == x;
      var i :| 0 <= i < n && ps[..n][i] == x.pos;
      assert ps[i] == x.pos;
    }
  }

  /** Two plans without repeats and without a shared player make one without repeats. */
  lemma AppendIdsDistinct(a: seq<Planned>, b: seq<Planned>)
    requires IdsDistinct(a) && IdsDistinct(b)
    requires forall x, y :: x in a && y in b ==> x.entry.id != y.entry.id
    ensures IdsDistinct(a + b)
  {
    var r := a + b;
    forall t, u | 0 <= t < u < |r| ensures r[t].entry.id != r[u].entry.id {
      if u < |a| {
        assert r[t] == a[t] && r[u] == a[u];
      } else if t >= |a| {
        assert r[t] == b[t - |a|] && r[u] == b[u - |a|];
      } else {
        assert r[t] in a && r[u] in b;
      }
    }
  }

  /** No player id occurs twice. */
  ghost predicate IdsDistinct(plan: seq<Planned>) {
    forall t, u :: 0 <= t < u < |plan| ==> plan[t].entry.id != plan[u].entry.id
  }

  lemma TrackedPositionsDistinct()
    ensures forall i, j :: 0 <= i < j < |TRACKED_POSITIONS| ==> TRACKED_POSITIONS[i] != TRACKED_POSITIONS[j]
  {
    TrackedPositionsOrder();
  }

  /** No player is planned twice, given payloads without repeated keys. */
  lemma PlanIdsDistinct(dir: Entries<SleeperPlayer>, proj: Entries<SleeperProjection>, stats: Entries<SleeperStats>)
    requires DistinctKeys(proj) && DistinctKeys(stats)
    ensures IdsDistinct(Plan(dir, proj, stats))
  {
    var groups := Rankings(dir, proj, stats);
    TrackedPositionsDistinct();
    RankingsPositioned(dir, proj, stats);
    RankingsNoRepeats(dir, proj, stats);
    PositionedByPositionOf(dir, groups);
    FlattenIdsDistinct(PositionOf(dir), groups, TRACKED_POSITIONS);
    assert Plan(dir, proj, stats) == Flatten(groups, TRACKED_POSITIONS);
  }

  lemma FlattenTrackedSize(groups: PerPosition<seq<Ranked>>)
    ensures |Flatten(groups, TRACKED_POSITIONS)|
         == |groups.Get(QB)| + |groups.Get(RB)| + |groups.Get(WR)| + |groups.Get(TE)| + |groups.Get(K)|
  {
    var ps := TRACKED_POSITIONS;
    assert ps[..5][..4] == ps[..4] && ps[..4][..3] == ps[..3] && ps[..3][..2] == ps[..2];
    assert ps[..2][..1] == ps[..1] && ps[..1][..0] == [];
    assert ps[..5] == ps;
    assert |Flatten(groups, ps[..1])| == |groups.Get(QB)|;
    assert |Flatten(groups, ps[..2])| == |Flatten(groups, ps[..1])| + |groups.Get(RB)|;
    assert |Flatten(groups, ps[..3])| == |Flatten(groups, ps[..2])| + |groups.Get(WR)|;
    assert |Flatten(groups, ps[..4])| == |Flatten(groups, ps[..3])| + |groups.Get(TE)|;
    assert |Flatten(groups, ps[..5])| == |Flatten(groups, ps[..4])| + |groups.Get(K)|;
  }

  /** The plan holds every group of all five positions and nothing else. */
  lemma PlanSize(dir: Entries<SleeperPlayer>, proj: Entries<SleeperProjection>, stats: Entries<SleeperStats>)
    ensures |Plan(dir, proj, stats)|
         == |Ranking(dir, proj, stats, QB)| + |Ranking(dir, proj, stats, RB)| + |Ranking(dir, proj, stats, WR)|
          + |Ranking(dir, proj, stats, TE)| + |Ranking(dir, proj, stats, K)|
  {
    FlattenTrackedSize(Rankings(dir, proj, stats));
  }

  /** In a plan without repeated players, each entry's statements decide its rows. */
  lemma PlanEntryRecorded(
    dir: Entries<SleeperPlayer>, plan: seq<Planned>, season: int, week: int,
    players0: Players, snapshots0: Snapshots, t: nat)
    requires forall t :: 0 <= t < |plan| ==> Lookup(dir, plan[t].entry.id).Some?
    requires IdsDistinct(plan) && t < |plan|
    ensures plan[t].entry.id in ApplyUpserts(players0, PlayerStatements(dir, plan))
    ensures ApplyUpserts(players0, PlayerStatements(dir, plan))[plan[t].entry.id] == PlayerStatement(dir, plan[t]).Row()
    ensures SnapshotKey(plan[t].entry.id, season, week) in ApplyInserts(snapshots0, SnapshotStatements(plan, season, week))
    ensures ApplyInserts(snapshots0, SnapshotStatements(plan, season, week))[SnapshotKey(plan[t].entry.id, season, week)]
         == if SnapshotKey(plan[t].entry.id, season, week) in snapshots0
            then snapshots0[SnapshotKey(plan[t].entry.id, season, week)]
            else SnapshotRow(plan[t].entry.rank, plan[t].entry.pts)
  {
    var ups := PlayerStatements(dir, plan);
    var ins := SnapshotStatements(plan, season, week);
    forall j | t < j < |ups| ensures ups[j].playerId != ups[t].playerId {
      assert ups[j].playerId == plan[j].entry.id;
    }
    UpsertLastWriteWins(players0, ups, t);
    assert ups[t].playerId in UpsertIds(ups);
    var key := SnapshotKey(plan[t].entry.id, season, week);
    assert ins[t].Key() == key;
    assert key in InsertKeys(ins);
    if key in snapshots0 {
      InsertKeepsRecorded(snapshots0, ins, key);
    } else {
      forall j | 0 <= j < t ensures ins[j].Key() != ins[t].Key() {
        assert ins[j].playerId == plan[j].entry.id;
      }
      InsertFirstWriteWins(snapshots0, ins, t);
    }
  }

  /**
   * What a run leaves in the tables for each ranked entry: the player row
   * carries the directory's name and team and the position it was ranked under;
   * the snapshot for the target week holds its rank and points unless that
   * week was already recorded, in which case the old row stays.
   */
  lemma StatementsRecordRanking(
    dir: Entries<SleeperPlayer>, proj: Entries<SleeperProjection>, stats: Entries<SleeperStats>,
    season: int, week: int, players0: Players, snapshots0: Snapshots, pos: Position, k: nat)
    requires DistinctKeys(proj) && DistinctKeys(stats)
    requires k < |Ranking(dir, proj, stats, pos)|
    ensures Lookup(dir, Ranking(dir, proj, stats, pos)[k].id).Some?
    ensures Ranking(dir, proj, stats, pos)[k].id in ApplyUpserts(players0, PlayerStatements(dir, Plan(dir, proj, stats)))
    ensures ApplyUpserts(players0, PlayerStatements(dir, Plan(dir, proj, stats)))[Ranking(dir, proj, stats, pos)[k].id]
         == PlayerRow(DisplayName(Lookup(dir, Ranking(dir, proj, stats, pos)[k].id).value), pos.Name(),
                      Lookup(dir, Ranking(dir, proj, stats, pos)[k].id).value.team)
    ensures SnapshotKey(Ranking(dir, proj, stats, pos)[k].id, season, week)
              in ApplyInserts(snapshots0, SnapshotStatements(Plan(dir, proj, stats), season, week))
    ensures ApplyInserts(snapshots0, SnapshotStatements(Plan(dir, proj, stats), season, week))[SnapshotKey(Ranking(dir, proj, stats, pos)[k].id, season, week)]
         == if SnapshotKey(Ranking(dir, proj, stats, pos)[k].id, season, week) in snapshots0
            then snapshots0[SnapshotKey(Ranking(dir, proj, stats, pos)[k].id, season, week)]
            else SnapshotRow(Ranking(dir, proj, stats, pos)[k].rank, Ranking(dir, proj, stats, pos)[k].pts)
  {
    var t := PlanSlot(dir, proj, stats, pos, k);
    PlanIdsDistinct(dir, proj, stats);
    PlanEntryRecorded(dir, Plan(dir, proj, stats), season, week, players0, snapshots0, t);
  }

  /** Where entry `k` of the group of `pos` sits in the plan. */
  lemma PlanSlot(dir: Entries<SleeperPlayer>, proj: Entries<SleeperProjection>, stats: Entries<SleeperStats>, pos: Position, k: nat)
    returns (t: nat)
    requires k < |Ranking(dir, proj, stats, pos)|
    ensures t < |Plan(dir, proj, stats)| && Plan(dir, proj, stats)[t] == Planned(pos, Ranking(dir, proj, stats, pos)[k])
  {
    var groups := Rankings(dir, proj, stats);
    assert Plan(dir, proj, stats) == Flatten(groups, TRACKED_POSITIONS);
    TrackedPositionsOrder();
    FlattenComplete(groups, TRACKED_POSITIONS, pos.Index(), k);
    t :| 0 <= t < |Plan(dir, proj, stats)| && Plan(dir, proj, stats)[t] == Planned(pos, groups.Get(pos)[k]);
  }

  /**
   * Running the pipeline a second time on the same inputs changes neither
   * table: the upserts rewrite the same rows and every insert is skipped.
   */
  lemma RerunChangesNothing(
    dir: Entries<SleeperPlayer>, proj: Entries<SleeperProjection>, stats: Entries<SleeperStats>,
    season: int, week: int, players0: Players, snapshots0: Snapshots)
    ensures var plan := Plan(dir, proj, stats);
            var ups := PlayerStatements(dir, plan);
            var ins := SnapshotStatements(plan, season, week);
            && ApplyUpserts(ApplyUpserts(players0, ups), ups) == ApplyUpserts(players0, ups)
            && ApplyInserts(ApplyInserts(snapshots0, ins), ins) == ApplyInserts(snapshots0, ins)
  {
    var plan := Plan(dir, proj, stats);
    UpsertIdempotent(players0, PlayerStatements(dir, plan));
    InsertIdempotent(snapshots0, SnapshotStatements(plan, season, week));
  }

  // ---------------------------------------------------------------------------
  // The route, step by step

  /** The projections loop. */
  method GroupProjections(dir: Entries<SleeperPlayer>, proj: Entries<SleeperProjection>) returns (tempByPos: PerPosition<seq<Candidate>>)
    ensures forall p: Position :: tempByPos.Get(p) == Candidates(dir, proj, p)
  {
    tempByPos := EmptyGroups();
    for i := 0 to |proj|
      invariant forall p: Position :: tempByPos.Get(p) == FilterMap(proj[..i], ProjectionCandidate(dir, p))
    {
      var (playerId, projection) := proj[i];
      forall p: Position
        ensures FilterMap(proj[..i + 1], ProjectionCandidate(dir, p))
             == FilterMap(proj[..i], ProjectionCandidate(dir, p)) + Keep(ProjectionCandidate(dir, p)(proj[i]))
      {
        FilterMapAppend(proj, ProjectionCandidate(dir, p), i);
      }
      var player := Lookup(dir, playerId);
      if player.None? { continue; }
      var pos := TrackedPosition(player.value);
      if pos.None? { continue; }
      if player.value.active != Some(true) { continue; }
      var pts := ProjectedPoints(projection);
      if pts <= 0 { continue; }
      tempByPos := tempByPos.Set(pos.value, tempByPos.Get(pos.value) + [Candidate(playerId, pts)]);
    }
    assert proj[..|proj|] == proj;
  }

  /** The second projections loop: sort each group by points and number it from 1. */
  method RankGroups(tempByPos: PerPosition<seq<Candidate>>) returns (byPosition: PerPosition<seq<Ranked>>)
    ensures forall p: Position :: byPosition.Get(p) == RankInOrder(SortBy(MorePoints, tempByPos.Get(p)))
  {
    byPosition := EmptyGroups();
    TrackedPositionsOrder();
    for i := 0 to |TRACKED_POSITIONS|
      invariant forall p: Position :: byPosition.Get(p)
                  == if p.Index() < i then RankInOrder(SortBy(MorePoints, tempByPos.Get(p))) else []
    {
      var pos := TRACKED_POSITIONS[i];
      var sorted := SortBy(MorePoints, tempByPos.Get(pos));
      byPosition := PushRanks(byPosition, pos, sorted);
    }
  }

  /** `.forEach(({ id, pts }, i) => byPosition[pos].push({ id, pts, rank: i + 1 }))`. */
  method PushRanks(byPosition: PerPosition<seq<Ranked>>, pos: Position, sorted: seq<Candidate>)
    returns (next: PerPosition<seq<Ranked>>)
    ensures next.Get(pos) == byPosition.Get(pos) + RankInOrder(sorted)
    ensures forall p: Position :: p != pos ==> next.Get(p) == byPosition.Get(p)
  {
    next := byPosition;
    for j := 0 to |sorted|
      invariant next.Get(pos) == byPosition.Get(pos) + RankInOrder(sorted)[..j]
      invariant forall p: Position :: p != pos ==> next.Get(p) == byPosition.Get(p)
    {
      assert RankInOrder(sorted)[..j + 1] == RankInOrder(sorted)[..j] + [Ranked(sorted[j].id, Some(sorted[j].pts), j + 1)];
      next := next.Set(pos, next.Get(pos) + [Ranked(sorted[j].id, Some(sorted[j].pts), j + 1)]);
    }
    assert RankInOrder(sorted)[..|sorted|] == RankInOrder(sorted);
  }

  /** The stats loop. */
  method GroupStats(dir: Entries<SleeperPlayer>, stats: Entries<SleeperStats>) returns (byPosition: PerPosition<seq<Ranked>>)
    ensures forall p: Position :: byPosition.Get(p) == StatsRanking(dir, stats, p)
  {
    byPosition := EmptyGroups();
    for i := 0 to |stats|
      invariant forall p: Position :: byPosition.Get(p) == FilterMap(stats[..i], StatsEntryFor(dir, p))
    {
      forall p: Position
        ensures FilterMap(stats[..i + 1], StatsEntryFor(dir, p))
             == FilterMap(stats[..i], StatsEntryFor(dir, p)) + Keep(StatsEntryFor(dir, p)(stats[i]))
      {
        FilterMapAppend(stats, StatsEntryFor(dir, p), i);
      }
      byPosition := AddStat(dir, byPosition, stats[i]);
    }
    assert stats[..|stats|] == stats;
  }

  /** One iteration of the stats loop: the entry joins the group of its player's position, if it passes. */
  method AddStat(dir: Entries<SleeperPlayer>, byPosition: PerPosition<seq<Ranked>>, entry: StatsEntry)
    returns (next: PerPosition<seq<Ranked>>)
    ensures forall p: Position :: next.Get(p) == byPosition.Get(p) + Keep(StatsEntryFor(dir, p)(entry))
  {
    next := byPosition;
    var (playerId, stat) := entry;
    if stat.posRankPpr.None? || stat.posRankPpr == Some(0) { return; }
    var player := Lookup(dir, playerId);
    if player.None? { return; }
    var pos := TrackedPosition(player.value);
    if pos.None? { return; }
    next := byPosition.Set(pos.value, byPosition.Get(pos.value) + [Ranked(playerId, stat.ptsPpr, stat.posRankPpr.value)]);
  }

  /** One more entry of the statement loop. */
  lemma StatementsStep(dir: Entries<SleeperPlayer>, plan: seq<Planned>, n: nat, season: int, week: int)
    requires n < |plan|
    requires forall t :: 0 <= t < |plan| ==> Lookup(dir, plan[t].entry.id).Some?
    ensures PlayerStatements(dir, plan[..n + 1]) == PlayerStatements(dir, plan[..n]) + [PlayerStatement(dir, plan[n])]
    ensures SnapshotStatements(plan[..n + 1], season, week)
         == SnapshotStatements(plan[..n], season, week) + [SnapshotStatement(plan[n], season, week)]
  {
  }

  /**
   * The inner statement loop over the group of `pos`, whose entries occupy
   * `plan[base..base + |group|]`.
   */
  method AppendGroupStatements(
    dir: Entries<SleeperPlayer>, pos: Position, group: seq<Ranked>, season: int, week: int,
    ghost plan: seq<Planned>, ghost base: nat,
    playerStmts0: seq<PlayerUpsert>, snapshotStmts0: seq<SnapshotInsert>)
    returns (playerStmts: seq<PlayerUpsert>, snapshotStmts: seq<SnapshotInsert>)
    requires base + |group| <= |plan|
    requires forall t :: 0 <= t < |plan| ==> Lookup(dir, plan[t].entry.id).Some?
    requires forall j :: 0 <= j < |group| ==> plan[base + j] == Planned(pos, group[j])
    requires playerStmts0 == PlayerStatements(dir, plan[..base])
    requires snapshotStmts0 == SnapshotStatements(plan[..base], season, week)
    ensures playerStmts == PlayerStatements(dir, plan[..base + |group|])
    ensures snapshotStmts == SnapshotStatements(plan[..base + |group|], season, week)
  {
    playerStmts, snapshotStmts := playerStmts0, snapshotStmts0;
    for j := 0 to |group|
      invariant playerStmts == PlayerStatements(dir, plan[..base + j])
      invariant snapshotStmts == SnapshotStatements(plan[..base + j], season, week)
    {
      var e := group[j];
      assert plan[base + j] == Planned(pos, e);
      StatementsStep(dir, plan, base + j, season, week);
      var player := Lookup(dir, e.id).value;
      var name := DisplayName(player);
      playerStmts := playerStmts + [PlayerUpsert(e.id, name, pos.Name(), player.team)];
      snapshotStmts := snapshotStmts + [SnapshotInsert(e.id, week, season, e.rank, e.pts)];
    }
  }

  /** The statement loop: one upsert and one insert per entry, positions in tracked order. */
  method BuildStatements(dir: Entries<SleeperPlayer>, byPosition: PerPosition<seq<Ranked>>, season: int, week: int)
    returns (playerStmts: seq<PlayerUpsert>, snapshotStmts: seq<SnapshotInsert>)
    requires forall p: Position, e :: e in byPosition.Get(p) ==> Lookup(dir, e.id).Some?
    ensures playerStmts == PlayerStatements(dir, Flatten(byPosition, TRACKED_POSITIONS))
    ensures snapshotStmts == SnapshotStatements(Flatten(byPosition, TRACKED_POSITIONS), season, week)
  {
    ghost var plan := Flatten(byPosition, TRACKED_POSITIONS);
    assert forall t :: 0 <= t < |plan| ==> Lookup(dir, plan[t].entry.id).Some?;
    playerStmts, snapshotStmts := [], [];
    for i := 0 to |TRACKED_POSITIONS|
      invariant |Flatten(byPosition, TRACKED_POSITIONS[..i])| <= |plan|
      invariant playerStmts == PlayerStatements(dir, plan[..|Flatten(byPosition, TRACKED_POSITIONS[..i])|])
      invariant snapshotStmts == SnapshotStatements(plan[..|Flatten(byPosition, TRACKED_POSITIONS[..i])|], season, week)
    {
      var pos := TRACKED_POSITIONS[i];
      ghost var base := |Flatten(byPosition, TRACKED_POSITIONS[..i])|;
      FlattenStep(byPosition, TRACKED_POSITIONS, i);
      FlattenPrefix(byPosition, TRACKED_POSITIONS, i + 1);
      forall j | 0 <= j < |byPosition.Get(pos)| ensures plan[base + j] == Planned(pos, byPosition.Get(pos)[j]) {
        FlattenSlot(byPosition, TRACKED_POSITIONS, i, j);
      }
      playerStmts, snapshotStmts :=
        AppendGroupStatements(dir, pos, byPosition.Get(pos), season, week, plan, base, playerStmts, snapshotStmts);
    }
    assert TRACKED_POSITIONS[..|TRACKED_POSITIONS|] == TRACKED_POSITIONS;
    assert plan[..|plan|] == plan;
  }

  /** The JSON body of a successful run. */
  datatype Summary = Summary(season: int, week: int, upsertedPlayers: nat, insertedSnapshots: nat)

  /**
   * Lines 36-74: rank by projections when the provider has any, otherwise
   * by the stats, which are only then requested.
   */
  method RankAll(dir: Entries<SleeperPlayer>, proj: Entries<SleeperProjection>, stats: Entries<SleeperStats>)
    returns (fetchedStats: bool, byPosition: PerPosition<seq<Ranked>>)
    ensures fetchedStats <==> !HasProjections(proj)
    ensures byPosition == Rankings(dir, proj, stats)
    ensures forall p: Position, e :: e in byPosition.Get(p) ==> Lookup(dir, e.id).Some?
  {
    var hasProjections := HasProjections(proj);
    fetchedStats := !hasProjections;
    if hasProjections {
      var tempByPos := GroupProjections(dir, proj);
      byPosition := RankGroups(tempByPos);
    } else {
      byPosition := GroupStats(dir, stats);
    }
    PerPositionEq(byPosition, Rankings(dir, proj, stats));
    forall p: Position, e | e in byPosition.Get(p) ensures Lookup(dir, e.id).Some? {
      RankingPositioned(dir, proj, stats, p, e);
    }
  }

  /** Lines 36-104: rank the players, then write one upsert and one insert per ranked player. */
  method PlanStatements(dir: Entries<SleeperPlayer>, proj: Entries<SleeperProjection>, stats: Entries<SleeperStats>, season: int, week: int)
    returns (fetchedStats: bool, playerStmts: seq<PlayerUpsert>, snapshotStmts: seq<SnapshotInsert>)
    ensures fetchedStats <==> !HasProjections(proj)
    ensures playerStmts == PlayerStatements(dir, Plan(dir, proj, stats))
    ensures snapshotStmts == SnapshotStatements(Plan(dir, proj, stats), season, week)
    ensures |playerStmts| == |snapshotStmts| == |Plan(dir, proj, stats)|
    ensures forall t :: 0 <= t < |snapshotStmts| ==> snapshotStmts[t].playerId == playerStmts[t].playerId
  {
    var byPosition;
    fetchedStats, byPosition := RankAll(dir, proj, stats);
    playerStmts, snapshotStmts := BuildStatements(dir, byPosition, season, week);
  }

  /**
   * The route after authorisation. `nowMs` is the clock, the two parameters
   * the optional `season` and `week` query values, and the three payloads what
   * the provider returns; `fetchedStats` tells whether the stats payload was
   * requested at all.
   */
  method Run(
    db: Db, nowMs: int, seasonParam: Option<int>, weekParam: Option<int>,
    dir: Entries<SleeperPlayer>, proj: Entries<SleeperProjection>, stats: Entries<SleeperStats>)
    returns (fetchedStats: bool, summary: Summary)
    requires db.Valid()
    modifies db
    ensures fetchedStats <==> !HasProjections(proj)
    ensures summary.season == seasonParam.GetOr(GetCurrentNFLWeek(nowMs).season)
    ensures summary.week == weekParam.GetOr(GetCurrentNFLWeek(nowMs).week)
    ensures summary.upsertedPlayers == summary.insertedSnapshots == |Plan(dir, proj, stats)|
    ensures db.players == ApplyUpserts(old(db.players), PlayerStatements(dir, Plan(dir, proj, stats)))
    ensures db.snapshots == ApplyInserts(old(db.snapshots), SnapshotStatements(Plan(dir, proj, stats), summary.season, summary.week))
    ensures db.Valid()
  {
    var current := GetCurrentNFLWeek(nowMs);
    var targetSeason := seasonParam.GetOr(current.season);
    var targetWeek := weekParam.GetOr(current.week);

    var playerStmts, snapshotStmts;
    fetchedStats, playerStmts, snapshotStmts := PlanStatements(dir, proj, stats, targetSeason, targetWeek);
    db.BatchUpsertPlayers(playerStmts);
    forall t | 0 <= t < |snapshotStmts| ensures snapshotStmts[t].playerId in db.players {
      assert playerStmts[t].playerId in UpsertIds(playerStmts);
    }
    db.BatchInsertSnapshots(snapshotStmts);
    summary := Summary(targetSeason, targetWeek, |playerStmts|, |snapshotStmts|);
  }
}
