/**
 * The mock seeder (`POST /api/seed-mock`, src/app/api/seed-mock/route.ts):
 * pools of active, rostered players per tracked position, trimmed to a fixed
 * size; a rank order per mock week, each a random drift of the one before;
 * and the statements that wipe both tables and refill them.
 *
 * `Math.random()` becomes explicit draws: `floor(random() * (2 * maxDrift + 1))`
 * is an integer in `0..2 * maxDrift`, and the model takes those integers as
 * input. The points written with each snapshot (`ptsForRank`, floating point
 * and random) come from an input function `pts(week, rank, total, pos)`.
 */
module SeedMock {
  import opened Options
  import opened Seqs
  import opened Sleeper
  import opened Store

  /**
   * The value of `ptsForRank(rank, total, pos)` in the given week. The route
   * calls it once per week, position and rank, so each call draws its own
   * noise and these four arguments tell the calls apart.
   */
  type PointsDraw = (int, int, int, Position) -> int

  const MOCK_WEEKS: seq<int> := [14, 15, 16, 17, 18]
  const MOCK_SEASON: int := 2025
  /** The default `maxDrift` of `driftRanks`, the only one the route uses. */
  const MAX_DRIFT: nat := 4

  /** `POOL_SIZE[pos]`: how many players of each position are kept. */
  function PoolSize(p: Position): (r: nat)
    ensures r > 0
  {
    match p
    case QB => 32
    case RB => 80
    case WR => 80
    case TE => 36
    case K => 28
  }

  // ---------------------------------------------------------------------------
  // driftRanks

  /** A draw's drift: `floor(random() * (2 * maxDrift + 1)) - maxDrift`, given the floored draw. */
  function Drift(roll: int, maxDrift: nat): (d: int)
    requires 0 <= roll <= 2 * maxDrift
    ensures -(maxDrift as int) <= d <= maxDrift
    ensures roll == maxDrift ==> d == 0
  {
    roll - maxDrift
  }

  /** `Math.min(Math.max(i + drift, 0), n - 1)`: the index `i` swaps with, kept inside the array. */
  function SwapTarget(i: int, drift: int, n: int): (t: int)
    requires 0 <= i < n
    ensures 0 <= t < n
    ensures 0 <= i + drift < n ==> t == i + drift
    ensures i + drift < 0 ==> t == 0
    ensures i + drift >= n ==> t == n - 1
  {
    Min(Max(i + drift, 0), n - 1)
  }

  /** `[s[i], s[j]] = [s[j], s[i]]`. */
  function Swap<T>(s: seq<T>, i: nat, j: nat): (r: seq<T>)
    requires i < |s| && j < |s|
    ensures |r| == |s|
    ensures r[i] == s[j] && r[j] == s[i]
    ensures forall k :: 0 <= k < |s| && k != i && k != j ==> r[k] == s[k]
  {
    s[i := s[j]][j := s[i]]
  }

  /** A swap only reorders. */
  lemma SwapPermutes<T>(s: seq<T>, i: nat, j: nat)
    requires i < |s| && j < |s|
    ensures multiset(Swap(s, i, j)) == multiset(s)
  {
    var s1 := s[i := s[j]];
    assert s1[j] == s[j];
    assert multiset(s1) == multiset(s) - multiset{s[i]} + multiset{s[j]};
    assert multiset(Swap(s, i, j)) == multiset(s1) - multiset{s[j]} + multiset{s[i]};
  }

  /** One floored draw per index, each in `0..2 * maxDrift`. */
  predicate ValidRolls(rolls: seq<int>, n: int, maxDrift: nat) {
    |rolls| == n && forall i :: 0 <= i < |rolls| ==> 0 <= rolls[i] <= 2 * maxDrift
  }

  /** The array after the first `k` iterations of the swap loop. */
  function DriftSteps(ranks: seq<string>, rolls: seq<int>, maxDrift: nat, k: nat): (r: seq<string>)
    requires ValidRolls(rolls, |ranks|, maxDrift) && k <= |ranks|
    ensures |r| == |ranks|
  {
    if k == 0 then ranks
    else
      var prev := DriftSteps(ranks, rolls, maxDrift, k - 1);
      Swap(prev, k - 1, SwapTarget(k - 1, Drift(rolls[k - 1], maxDrift), |ranks|))
  }

  /** What `driftRanks(ranks, maxDrift)` returns for the given draws. */
  function Drifted(ranks: seq<string>, rolls: seq<int>, maxDrift: nat): (r: seq<string>)
    requires ValidRolls(rolls, |ranks|, maxDrift)
    ensures |r| == |ranks|
  {
    DriftSteps(ranks, rolls, maxDrift, |ranks|)
  }

  /** Whatever the draws, a drift only reorders: the same ids, each as often. */
  lemma DriftStepsPermutation(ranks: seq<string>, rolls: seq<int>, maxDrift: nat, k: nat)
    requires ValidRolls(rolls, |ranks|, maxDrift) && k <= |ranks|
    ensures multiset(DriftSteps(ranks, rolls, maxDrift, k)) == multiset(ranks)
  {
    for j := 0 to k
      invariant multiset(DriftSteps(ranks, rolls, maxDrift, j)) == multiset(ranks)
    {
      DriftStepPermutes(ranks, rolls, maxDrift, j + 1);
    }
  }

  /** A single iteration of the swap loop only reorders. */
  lemma DriftStepPermutes(ranks: seq<string>, rolls: seq<int>, maxDrift: nat, k: nat)
    requires ValidRolls(rolls, |ranks|, maxDrift) && 0 < k <= |ranks|
    ensures multiset(DriftSteps(ranks, rolls, maxDrift, k)) == multiset(DriftSteps(ranks, rolls, maxDrift, k - 1))
  {
    var prev := DriftSteps(ranks, rolls, maxDrift, k - 1);
    var t := SwapTarget(k - 1, Drift(rolls[k - 1], maxDrift), |ranks|);
    SwapPermutes(prev, k - 1, t);
    assert DriftSteps(ranks, rolls, maxDrift, k) == Swap(prev, k - 1, t);
  }

  lemma DriftedPermutation(ranks: seq<string>, rolls: seq<int>, maxDrift: nat)
    requires ValidRolls(rolls, |ranks|, maxDrift)
    ensures |Drifted(ranks, rolls, maxDrift)| == |ranks|
    ensures multiset(Drifted(ranks, rolls, maxDrift)) == multiset(ranks)
  {
    DriftStepsPermutation(ranks, rolls, maxDrift, |ranks|);
  }

  /** With every drift zero each index swaps with itself and nothing moves. */
  lemma {:induction false} DriftStepsStill(ranks: seq<string>, rolls: seq<int>, maxDrift: nat, k: nat)
    requires ValidRolls(rolls, |ranks|, maxDrift) && k <= |ranks|
    requires forall i :: 0 <= i < |rolls| ==> rolls[i] == maxDrift
    ensures DriftSteps(ranks, rolls, maxDrift, k) == ranks
  {
    if k > 0 {
      DriftStepsStill(ranks, rolls, maxDrift, k - 1);
    }
  }

  lemma DriftedStill(ranks: seq<string>, rolls: seq<int>, maxDrift: nat)
    requires ValidRolls(rolls, |ranks|, maxDrift)
    requires forall i :: 0 <= i < |rolls| ==> rolls[i] == maxDrift
    ensures Drifted(ranks, rolls, maxDrift) == ranks
  {
    DriftStepsStill(ranks, rolls, maxDrift, |ranks|);
  }

  /** The destructuring swap `[a[i], a[j]] = [a[j], a[i]]`. */
  method SwapInPlace(a: array<string>, i: nat, j: nat)
    requires i < a.Length && j < a.Length
    modifies a
    ensures a[..] == Swap(old(a[..]), i, j)
  {
    a[i], a[j] := a[j], a[i];
  }

  /** `driftRanks`: copy the ranks into an array and swap each index with a drifted one. */
  method DriftRanks(ranks: seq<string>, rolls: seq<int>, maxDrift: nat) returns (r: seq<string>)
    requires ValidRolls(rolls, |ranks|, maxDrift)
    ensures r == Drifted(ranks, rolls, maxDrift)
    ensures |r| == |ranks| && multiset(r) == multiset(ranks)
  {
    var result := CopyToArray(ranks);
    for i := 0 to |ranks|
      invariant result[..] == DriftSteps(ranks, rolls, maxDrift, i)
    {
      DriftStep(result, ranks, rolls, maxDrift, i);
    }
    r := result[..];
    DriftedPermutation(ranks, rolls, maxDrift);
  }

  /** `[...ranks]`: a fresh array holding the ranks. */
  method CopyToArray(ranks: seq<string>) returns (a: array<string>)
    ensures fresh(a) && a[..] == ranks
  {
    a := new string[|ranks|](i requires 0 <= i < |ranks| => ranks[i]);
  }

  /** One iteration of the swap loop of `driftRanks`. */
  method DriftStep(result: array<string>, ranks: seq<string>, rolls: seq<int>, maxDrift: nat, i: nat)
    requires ValidRolls(rolls, |ranks|, maxDrift) && i < |ranks|
    requires result[..] == DriftSteps(ranks, rolls, maxDrift, i)
    modifies result
    ensures result[..] == DriftSteps(ranks, rolls, maxDrift, i + 1)
  {
    var n := result.Length;
    var drift := Drift(rolls[i], maxDrift);
    var newIdx := Min(Max(i + drift, 0), n - 1);
    assert newIdx == SwapTarget(i, drift, n);
    SwapInPlace(result, i, newIdx);
  }

  // ---------------------------------------------------------------------------
  // Pools

  /** `{ id, name, team }`, one pool entry. */
  datatype PoolEntry = PoolEntry(id: string, name: string, team: string)

  /**
   * The filters of the pool loop: the player is active, has a non-empty team
   * and is ranked under `pos`.
   */
  function PoolCandidate(pos: Position): (r: ((string, SleeperPlayer)) -> Option<PoolEntry>)
    ensures forall e :: r(e).Some? ==> r(e).value.id == e.0 && r(e).value.name == DisplayName(e.1)
    ensures forall e :: r(e).Some? ==> e.1.team == Some(r(e).value.team) && r(e).value.team != ""
    ensures forall e :: r(e).Some? <==> e.1.active == Some(true) && e.1.team.Some? && e.1.team.value != "" && TrackedPosition(e.1) == Some(pos)
  {
    (e: (string, SleeperPlayer)) =>
      var player := e.1;
      if player.active == Some(true) && player.team.Some? && player.team.value != ""
         && TrackedPosition(player) == Some(pos)
      then Some(PoolEntry(e.0, DisplayName(player), player.team.value))
      else None
  }

  /** `pools[pos]` once the pool loop has run. */
  function Candidates(dir: Entries<SleeperPlayer>, pos: Position): seq<PoolEntry> {
    FilterMap(dir, PoolCandidate(pos))
  }

  /** `xs.slice(0, n)`. */
  function Take<T>(xs: seq<T>, n: nat): (r: seq<T>)
    ensures |r| == if n < |xs| then n else |xs|
    ensures r == xs[..|r|]
  {
    if n < |xs| then xs[..n] else xs
  }

  /** `pools[pos]` once trimmed. */
  function Pool(dir: Entries<SleeperPlayer>, pos: Position): (r: seq<PoolEntry>)
    ensures |r| <= PoolSize(pos) && |r| <= |Candidates(dir, pos)|
    ensures r == Candidates(dir, pos)[..|r|]
    ensures |Candidates(dir, pos)| <= PoolSize(pos) ==> r == Candidates(dir, pos)
  {
    Take(Candidates(dir, pos), PoolSize(pos))
  }

  function Pools(dir: Entries<SleeperPlayer>): (r: PerPosition<seq<PoolEntry>>)
    ensures forall p: Position :: r.Get(p) == Pool(dir, p)
  {
    Tabulate((p: Position) => Pool(dir, p))
  }

  /** The pool loop and the trimming loop. */
  method BuildPools(dir: Entries<SleeperPlayer>) returns (pools: PerPosition<seq<PoolEntry>>)
    ensures pools == Pools(dir)
  {
    var candidates := CollectCandidates(dir);
    pools := TrimPools(dir, candidates);
  }

  /** The pool loop: each directory entry that passes the filters joins the pool of its position. */
  method CollectCandidates(dir: Entries<SleeperPlayer>) returns (pools: PerPosition<seq<PoolEntry>>)
    ensures forall p: Position :: pools.Get(p) == Candidates(dir, p)
  {
    pools := EmptyGroups();
    for i := 0 to |dir|
      invariant forall p: Position :: pools.Get(p) == FilterMap(dir[..i], PoolCandidate(p))
    {
      var (id, player) := dir[i];
      forall p: Position
        ensures FilterMap(dir[..i + 1], PoolCandidate(p)) == FilterMap(dir[..i], PoolCandidate(p)) + Keep(PoolCandidate(p)(dir[i]))
      {
        FilterMapAppend(dir, PoolCandidate(p), i);
      }
      if player.active != Some(true) || player.team.None? || player.team.value == "" { continue; }
      var pos := TrackedPosition(player);
      if pos.None? { continue; }
      var name := DisplayName(player);
      pools := pools.Set(pos.value, pools.Get(pos.value) + [PoolEntry(id, name, player.team.value)]);
    }
    assert dir[..|dir|] == dir;
  }

  /** The trimming loop: each pool cut down to its size. */
  method TrimPools(dir: Entries<SleeperPlayer>, candidates: PerPosition<seq<PoolEntry>>) returns (pools: PerPosition<seq<PoolEntry>>)
    requires forall p: Position :: candidates.Get(p) == Candidates(dir, p)
    ensures pools == Pools(dir)
  {
    pools := candidates;
    TrackedPositionsOrder();
    for i := 0 to |TRACKED_POSITIONS|
      invariant forall p: Position :: pools.Get(p) == if p.Index() < i then Take(candidates.Get(p), PoolSize(p)) else candidates.Get(p)
    {
      var pos := TRACKED_POSITIONS[i];
      pools := pools.Set(pos, Take(pools.Get(pos), PoolSize(pos)));
    }
    assert forall p: Position :: pools.Get(p) == Pool(dir, p);
    PerPositionEq(pools, Pools(dir));
  }

  /**
   * A pool holds, in directory order, the first `POOL_SIZE[pos]` active
   * players with a team who are ranked under `pos`, with their display names.
   */
  lemma PoolEntries(dir: Entries<SleeperPlayer>, pos: Position)
    ensures |Pool(dir, pos)| <= PoolSize(pos)
    ensures Pool(dir, pos) == Candidates(dir, pos)[..|Pool(dir, pos)|]
    ensures |Candidates(dir, pos)| <= PoolSize(pos) ==> Pool(dir, pos) == Candidates(dir, pos)
    ensures forall e :: e in Pool(dir, pos) ==>
              exists i :: 0 <= i < |dir| && dir[i].0 == e.id
                && dir[i].1.active == Some(true) && dir[i].1.team == Some(e.team) && e.team != ""
                && TrackedPosition(dir[i].1) == Some(pos) && e.name == DisplayName(dir[i].1)
  {
    var c := Candidates(dir, pos);
    forall e | e in Pool(dir, pos)
      ensures exists i :: 0 <= i < |dir| && dir[i].0 == e.id
                && dir[i].1.active == Some(true) && dir[i].1.team == Some(e.team) && e.team != ""
                && TrackedPosition(dir[i].1) == Some(pos) && e.name == DisplayName(dir[i].1)
    {
      var k :| 0 <= k < |Pool(dir, pos)| && Pool(dir, pos)[k] == e;
      assert c[k] == e;
      FilterMapSource(dir, PoolCandidate(pos), k);
    }
  }

  /** Every eligible player is in the pool of their position unless the pool is full. */
  lemma PoolComplete(dir: Entries<SleeperPlayer>, pos: Position, i: nat)
    requires i < |dir| && PoolCandidate(pos)(dir[i]).Some?
    requires |Candidates(dir, pos)| <= PoolSize(pos)
    ensures PoolCandidate(pos)(dir[i]).value in Pool(dir, pos)
  {
    FilterMapComplete(dir, PoolCandidate(pos), i);
  }

  predicate PoolIdsDistinct(pool: seq<PoolEntry>) {
    forall a, b :: 0 <= a < b < |pool| ==> pool[a].id != pool[b].id
  }

  /** No player is pooled twice, in one position or across two. */
  lemma PoolsDisjoint(dir: Entries<SleeperPlayer>)
    requires DistinctKeys(dir)
    ensures forall p: Position :: PoolIdsDistinct(Pool(dir, p))
    ensures forall p: Position, q: Position, a, b :: a in Pool(dir, p) && b in Pool(dir, q) && a.id == b.id ==> p == q
  {
    forall p: Position ensures PoolIdsDistinct(Pool(dir, p)) {
      FilterMapKeysDistinct(dir, PoolCandidate(p), (e: (string, SleeperPlayer)) => e.0, (e: PoolEntry) => e.id);
    }
    forall p: Position, q: Position, a, b | a in Pool(dir, p) && b in Pool(dir, q) && a.id == b.id
      ensures p == q
    {
      PoolEntries(dir, p);
      PoolEntries(dir, q);
      var i :| 0 <= i < |dir| && dir[i].0 == a.id && TrackedPosition(dir[i].1) == Some(p);
      var j :| 0 <= j < |dir| && dir[j].0 == b.id && TrackedPosition(dir[j].1) == Some(q);
      LookupEntry(dir, i);
      LookupEntry(dir, j);
    }
  }

  // ---------------------------------------------------------------------------
  // Weekly orders

  /** `pools[pos].map(p => p.id)`. */
  function Ids(pool: seq<PoolEntry>): (r: seq<string>)
    ensures |r| == |pool|
    ensures forall k :: 0 <= k < |pool| ==> r[k] == pool[k].id
  {
    MapSeq(pool, (e: PoolEntry) => e.id)
  }

  /** The draws of every `driftRanks` call: per position, one list per week after the first. */
  predicate ValidDraws(draws: PerPosition<seq<seq<int>>>, pools: PerPosition<seq<PoolEntry>>) {
    forall p: Position :: WeekDraws(draws.Get(p), |pools.Get(p)|)
  }

  predicate WeekDraws(draws: seq<seq<int>>, n: nat) {
    |draws| == |MOCK_WEEKS| - 1 && forall w :: 0 <= w < |draws| ==> ValidRolls(draws[w], n, MAX_DRIFT)
  }

  /** `weeklyOrder[pos][w]`: the pool order in week 0, a drift of the previous week after that. */
  function WeekOrder(ids: seq<string>, draws: seq<seq<int>>, w: nat): (r: seq<string>)
    requires WeekDraws(draws, |ids|) && w < |MOCK_WEEKS|
    ensures |r| == |ids|
  {
    if w == 0 then ids
    else
      var prev := WeekOrder(ids, draws, w - 1);
      DriftedPermutation(prev, draws[w - 1], MAX_DRIFT);
      Drifted(prev, draws[w - 1], MAX_DRIFT)
  }

  /** `weeklyOrder[pos]`: one order per mock week. */
  function WeekOrders(ids: seq<string>, draws: seq<seq<int>>): (r: seq<seq<string>>)
    requires WeekDraws(draws, |ids|)
    ensures |r| == |MOCK_WEEKS|
  {
    seq(|MOCK_WEEKS|, w requires 0 <= w < |MOCK_WEEKS| => WeekOrder(ids, draws, w))
  }

  /** `weeklyOrder` once its loops have run. */
  function Orders(pools: PerPosition<seq<PoolEntry>>, draws: PerPosition<seq<seq<int>>>): (r: PerPosition<seq<seq<string>>>)
    requires ValidDraws(draws, pools)
    ensures forall p: Position :: r.Get(p) == WeekOrders(Ids(pools.Get(p)), draws.Get(p))
  {
    assert WeekDraws(draws.Get(QB), |pools.Get(QB)|) && WeekDraws(draws.Get(RB), |pools.Get(RB)|);
    assert WeekDraws(draws.Get(WR), |pools.Get(WR)|) && WeekDraws(draws.Get(TE), |pools.Get(TE)|);
    assert WeekDraws(draws.Get(K), |pools.Get(K)|);
    PerPosition(
      WeekOrders(Ids(pools.Get(QB)), draws.Get(QB)),
      WeekOrders(Ids(pools.Get(RB)), draws.Get(RB)),
      WeekOrders(Ids(pools.Get(WR)), draws.Get(WR)),
      WeekOrders(Ids(pools.Get(TE)), draws.Get(TE)),
      WeekOrders(Ids(pools.Get(K)), draws.Get(K)))
  }

  /** Every week's order is a permutation of the pool. */
  lemma {:induction false} WeekOrderPermutation(ids: seq<string>, draws: seq<seq<int>>, w: nat)
    requires WeekDraws(draws, |ids|) && w < |MOCK_WEEKS|
    ensures multiset(WeekOrder(ids, draws, w)) == multiset(ids)
  {
    if w > 0 {
      var prev := WeekOrder(ids, draws, w - 1);
      assert multiset(prev) == multiset(ids) by {
        WeekOrderPermutation(ids, draws, w - 1);
      }
      assert multiset(WeekOrder(ids, draws, w)) == multiset(prev) by {
        DriftedPermutation(prev, draws[w - 1], MAX_DRIFT);
      }
    }
  }

  /** A list holding each week's order is `WeekOrders`. */
  lemma WeekOrdersOf(ids: seq<string>, draws: seq<seq<int>>, orders: seq<seq<string>>)
    requires WeekDraws(draws, |ids|) && |orders| == |MOCK_WEEKS|
    requires forall v :: 0 <= v < |MOCK_WEEKS| ==> orders[v] == WeekOrder(ids, draws, v)
    ensures orders == WeekOrders(ids, draws)
  {
  }

  /** The `weeklyOrder` loops. */
  method WeeklyOrders(pools: PerPosition<seq<PoolEntry>>, draws: PerPosition<seq<seq<int>>>)
    returns (weeklyOrder: PerPosition<seq<seq<string>>>)
    requires ValidDraws(draws, pools)
    ensures weeklyOrder == Orders(pools, draws)
  {
    weeklyOrder := EmptyGroups();
    TrackedPositionsOrder();
    for i := 0 to |TRACKED_POSITIONS|
      invariant forall p: Position :: p.Index() >= i ==> weeklyOrder.Get(p) == []
      invariant forall p: Position :: p.Index() < i ==> |weeklyOrder.Get(p)| == |MOCK_WEEKS|
      invariant forall p: Position, w :: p.Index() < i && 0 <= w < |MOCK_WEEKS| ==>
                  weeklyOrder.Get(p)[w] == WeekOrder(Ids(pools.Get(p)), draws.Get(p), w)
    {
      var pos := TRACKED_POSITIONS[i];
      var orders := DriftWeeks(Ids(pools.Get(pos)), draws.Get(pos));
      weeklyOrder := weeklyOrder.Set(pos, orders);
    }
    forall p: Position ensures weeklyOrder.Get(p) == Orders(pools, draws).Get(p) {
      assert weeklyOrder.Get(p) == WeekOrders(Ids(pools.Get(p)), draws.Get(p));
    }
    PerPositionEq(weeklyOrder, Orders(pools, draws));
  }

  /** The orders of one position: the initial order, then one drift per further week. */
  method DriftWeeks(ids: seq<string>, draws: seq<seq<int>>) returns (orders: seq<seq<string>>)
    requires WeekDraws(draws, |ids|)
    ensures orders == WeekOrders(ids, draws)
  {
    orders := [ids];
    for w := 1 to |MOCK_WEEKS|
      invariant |orders| == w
      invariant forall v :: 0 <= v < w ==> orders[v] == WeekOrder(ids, draws, v)
    {
      var drifted := DriftRanks(orders[w - 1], draws[w - 1], MAX_DRIFT);
      orders := orders + [drifted];
    }
    WeekOrdersOf(ids, draws, orders);
  }

  // ---------------------------------------------------------------------------
  // Statements

  /** `playerStmts` for the positions `ps`: each pooled player with its pool's position. */
  function PlayerBlocks(pools: PerPosition<seq<PoolEntry>>, ps: seq<Position>): (r: seq<PlayerUpsert>)
    ensures |r| == PoolTotal(pools, ps)
    ensures forall u :: u in r ==>
              exists p, e :: p in ps && e in pools.Get(p) && u == PlayerUpsert(e.id, e.name, p.Name(), Some(e.team))
  {
    if ps == [] then []
    else
      var n := |ps| - 1;
      var pos := ps[n];
      var front := PlayerBlocks(pools, ps[..n]);
      var back := MapSeq(pools.Get(pos), (e: PoolEntry) => PlayerUpsert(e.id, e.name, pos.Name(), Some(e.team)));
      forall u | u in front + back
        ensures exists p, e :: p in ps && e in pools.Get(p) && u == PlayerUpsert(e.id, e.name, p.Name(), Some(e.team))
      {
        if u in front {
          var p, e :| p in ps[..n] && e in pools.Get(p) && u == PlayerUpsert(e.id, e.name, p.Name(), Some(e.team));
          assert p in ps by {
            var t :| 0 <= t < n && ps[..n][t] == p;
            assert ps[t] == p;
          }
        } else {
          var k :| 0 <= k < |back| && back[k] == u;
          assert pools.Get(pos)[k] in pools.Get(pos);
        }
      }
      front + back
  }

  /** The pool sizes of the positions `ps`, summed. */
  function PoolCapacity(ps: seq<Position>): nat {
    if ps == [] then 0 else PoolCapacity(ps[..|ps| - 1]) + PoolSize(ps[|ps| - 1])
  }

  /** Pools no larger than `POOL_SIZE` hold at most the summed capacity. */
  lemma {:induction false} PoolTotalBound(pools: PerPosition<seq<PoolEntry>>, ps: seq<Position>)
    requires forall p: Position :: |pools.Get(p)| <= PoolSize(p)
    ensures PoolTotal(pools, ps) <= PoolCapacity(ps)
  {
    if ps != [] {
      PoolTotalBound(pools, ps[..|ps| - 1]);
    }
  }

  /** The route seeds at most 32 + 80 + 80 + 36 + 28 = 256 players, five snapshots each. */
  lemma PooledCountBound(dir: Entries<SleeperPlayer>)
    ensures PooledCount(dir) <= 256
  {
    PoolTotalBound(Pools(dir), TRACKED_POSITIONS);
    TrackedCapacity();
  }

  /** `POOL_SIZE` summed over the tracked positions. */
  lemma TrackedCapacity()
    ensures PoolCapacity(TRACKED_POSITIONS) == 256
  {
    assert [QB][..0] == [];
    assert PoolCapacity([QB]) == 32;
    assert [QB, RB][..1] == [QB];
    assert PoolCapacity([QB, RB]) == 112;
    assert [QB, RB, WR][..2] == [QB, RB];
    assert PoolCapacity([QB, RB, WR]) == 192;
    assert [QB, RB, WR, TE][..3] == [QB, RB, WR];
    assert PoolCapacity([QB, RB, WR, TE]) == 228;
    assert TRACKED_POSITIONS[..4] == [QB, RB, WR, TE];
  }

  /** The number of pooled players over the positions `ps`. */
  function PoolTotal(pools: PerPosition<seq<PoolEntry>>, ps: seq<Position>): nat {
    if ps == [] then 0 else PoolTotal(pools, ps[..|ps| - 1]) + |pools.Get(ps[|ps| - 1])|
  }

  /** One upsert per pooled player, naming a player of one of the positions. */
  lemma {:induction false} PlayerBlocksShape(pools: PerPosition<seq<PoolEntry>>, ps: seq<Position>)
    ensures |PlayerBlocks(pools, ps)| == PoolTotal(pools, ps)
    ensures forall p, e :: p in ps && e in pools.Get(p) ==> e.id in UpsertIds(PlayerBlocks(pools, ps))
  {
    if ps != [] {
      var n := |ps| - 1;
      var pos := ps[n];
      PlayerBlocksShape(pools, ps[..n]);
      var front := PlayerBlocks(pools, ps[..n]);
      var back := MapSeq(pools.Get(pos), (e: PoolEntry) => PlayerUpsert(e.id, e.name, pos.Name(), Some(e.team)));
      var all := PlayerBlocks(pools, ps);
      assert all == front + back;
      UpsertIdsAppend(front, back);
      forall p, e | p in ps && e in pools.Get(p) ensures e.id in UpsertIds(all) {
        if p == pos {
          var k :| 0 <= k < |pools.Get(p)| && pools.Get(p)[k] == e;
          assert back[k].playerId == e.id;
        } else {
          assert p in ps[..n] by {
            var t :| 0 <= t < |ps| && ps[t] == p;
            assert t != n;
            assert ps[..n][t] == p;
          }
        }
      }
    }
  }

  /**
   * The snapshot inserts of one week and position: the order's players,
   * ranked `1..total` in order.
   */
  function Block(order: seq<string>, week: int, pos: Position, pts: PointsDraw): (r: seq<SnapshotInsert>)
    ensures |r| == |order|
    ensures forall ri :: 0 <= ri < |r| ==>
              r[ri].playerId == order[ri] && r[ri].rank == ri + 1 && r[ri].week == week && r[ri].season == MOCK_SEASON
  {
    seq(|order|, ri requires 0 <= ri < |order| =>
      SnapshotInsert(order[ri], week, MOCK_SEASON, ri + 1, Some(pts(week, ri + 1, |order|, pos))))
  }

  /** Orders with one list per mock week. */
  predicate OrdersShaped(orders: PerPosition<seq<seq<string>>>) {
    forall p: Position :: |orders.Get(p)| == |MOCK_WEEKS|
  }

  /** The blocks of week index `wi` for the positions `ps`. */
  function PositionBlocks(orders: PerPosition<seq<seq<string>>>, wi: nat, ps: seq<Position>, pts: PointsDraw): (r: seq<SnapshotInsert>)
    requires OrdersShaped(orders) && wi < |MOCK_WEEKS|
    ensures forall u :: u in r ==> u.week == MOCK_WEEKS[wi] && u.season == MOCK_SEASON && u.rank >= 1
  {
    if ps == [] then []
    else
      var pos := ps[|ps| - 1];
      var front := PositionBlocks(orders, wi, ps[..|ps| - 1], pts);
      var block := Block(orders.Get(pos)[wi], MOCK_WEEKS[wi], pos, pts);
      assert forall u :: u in block ==> u.week == MOCK_WEEKS[wi] && u.season == MOCK_SEASON && u.rank >= 1 by {
        forall u | u in block ensures u.week == MOCK_WEEKS[wi] && u.season == MOCK_SEASON && u.rank >= 1 {
          var k :| 0 <= k < |block| && block[k] == u;
        }
      }
      front + block
  }

  /** `snapshotStmts` after the first `n` mock weeks. */
  function WeekBlocks(orders: PerPosition<seq<seq<string>>>, n: nat, pts: PointsDraw): (r: seq<SnapshotInsert>)
    requires OrdersShaped(orders) && n <= |MOCK_WEEKS|
    ensures forall u :: u in r ==>
              u.season == MOCK_SEASON && u.rank >= 1 && exists wi :: 0 <= wi < n && u.week == MOCK_WEEKS[wi]
  {
    if n == 0 then [] else WeekBlocks(orders, n - 1, pts) + PositionBlocks(orders, n - 1, TRACKED_POSITIONS, pts)
  }

  /** The innermost loop: one insert per player of the order, ranks counting up from 1. */
  method AppendBlock(stmts0: seq<SnapshotInsert>, order: seq<string>, week: int, pos: Position, pts: PointsDraw)
    returns (stmts: seq<SnapshotInsert>)
    ensures stmts == stmts0 + Block(order, week, pos, pts)
  {
    stmts := stmts0;
    var total := |order|;
    for ri := 0 to total
      invariant stmts == stmts0 + Block(order, week, pos, pts)[..ri]
    {
      var playerId := order[ri];
      var rank := ri + 1;
      var p := pts(week, rank, total, pos);
      assert Block(order, week, pos, pts)[..ri + 1] == Block(order, week, pos, pts)[..ri] + [SnapshotInsert(playerId, week, MOCK_SEASON, rank, Some(p))];
      stmts := stmts + [SnapshotInsert(playerId, week, MOCK_SEASON, rank, Some(p))];
    }
    assert Block(order, week, pos, pts)[..total] == Block(order, week, pos, pts);
  }

  /** The `snapshotStmts` loops: weeks outside, positions in tracked order inside. */
  method SnapshotStatements(weeklyOrder: PerPosition<seq<seq<string>>>, pts: PointsDraw)
    returns (stmts: seq<SnapshotInsert>)
    requires OrdersShaped(weeklyOrder)
    ensures stmts == WeekBlocks(weeklyOrder, |MOCK_WEEKS|, pts)
  {
    stmts := [];
    for wi := 0 to |MOCK_WEEKS|
      invariant stmts == WeekBlocks(weeklyOrder, wi, pts)
    {
      stmts := AppendWeek(stmts, weeklyOrder, wi, pts);
    }
  }

  /** One pass of the `snapshotStmts` week loop: the positions in tracked order. */
  method AppendWeek(stmts0: seq<SnapshotInsert>, weeklyOrder: PerPosition<seq<seq<string>>>, wi: nat, pts: PointsDraw)
    returns (stmts: seq<SnapshotInsert>)
    requires OrdersShaped(weeklyOrder) && wi < |MOCK_WEEKS|
    ensures stmts == stmts0 + PositionBlocks(weeklyOrder, wi, TRACKED_POSITIONS, pts)
  {
    stmts := stmts0;
    var week := MOCK_WEEKS[wi];
    for j := 0 to |TRACKED_POSITIONS|
      invariant stmts == stmts0 + PositionBlocks(weeklyOrder, wi, TRACKED_POSITIONS[..j], pts)
    {
      var pos := TRACKED_POSITIONS[j];
      assert TRACKED_POSITIONS[..j + 1][..j] == TRACKED_POSITIONS[..j];
      stmts := AppendBlock(stmts, weeklyOrder.Get(pos)[wi], week, pos, pts);
    }
    assert TRACKED_POSITIONS[..|TRACKED_POSITIONS|] == TRACKED_POSITIONS;
  }

  /** One insert per pooled player and week, each naming a player pooled under some position. */
  lemma {:induction false} PositionBlocksShape(
    orders: PerPosition<seq<seq<string>>>, wi: nat, ps: seq<Position>, pts: PointsDraw,
    pools: PerPosition<seq<PoolEntry>>)
    requires OrdersShaped(orders) && wi < |MOCK_WEEKS|
    requires forall p: Position :: |orders.Get(p)[wi]| == |pools.Get(p)|
    ensures |PositionBlocks(orders, wi, ps, pts)| == PoolTotal(pools, ps)
    ensures forall t :: 0 <= t < |PositionBlocks(orders, wi, ps, pts)| ==>
              exists p: Position :: PositionBlocks(orders, wi, ps, pts)[t].playerId in orders.Get(p)[wi]
  {
    if ps != [] {
      var n := |ps| - 1;
      var pos := ps[n];
      PositionBlocksShape(orders, wi, ps[..n], pts, pools);
      var front := PositionBlocks(orders, wi, ps[..n], pts);
      var block := Block(orders.Get(pos)[wi], MOCK_WEEKS[wi], pos, pts);
      var all := PositionBlocks(orders, wi, ps, pts);
      forall t | 0 <= t < |all| ensures exists p: Position :: all[t].playerId in orders.Get(p)[wi] {
        if t < |front| {
          assert all[t] == front[t];
        } else {
          assert all[t] == block[t - |front|];
          assert all[t].playerId in orders.Get(pos)[wi];
        }
      }
    }
  }

  lemma {:induction false} WeekBlocksShape(
    orders: PerPosition<seq<seq<string>>>, n: nat, pts: PointsDraw, pools: PerPosition<seq<PoolEntry>>)
    requires OrdersShaped(orders) && n <= |MOCK_WEEKS|
    requires forall p: Position, wi :: 0 <= wi < |MOCK_WEEKS| ==> |orders.Get(p)[wi]| == |pools.Get(p)|
    ensures |WeekBlocks(orders, n, pts)| == n * PoolTotal(pools, TRACKED_POSITIONS)
    ensures forall t :: 0 <= t < |WeekBlocks(orders, n, pts)| ==>
              exists p: Position, wi :: 0 <= wi < |MOCK_WEEKS| && WeekBlocks(orders, n, pts)[t].playerId in orders.Get(p)[wi]
  {
    if n > 0 {
      WeekBlocksShape(orders, n - 1, pts, pools);
      PositionBlocksShape(orders, n - 1, TRACKED_POSITIONS, pts, pools);
      var front := WeekBlocks(orders, n - 1, pts);
      var back := PositionBlocks(orders, n - 1, TRACKED_POSITIONS, pts);
      var all := WeekBlocks(orders, n, pts);
      assert all == front + back;
      var total := PoolTotal(pools, TRACKED_POSITIONS);
      assert n * total == (n - 1) * total + total;
      AppendWeekNamesOrdered(front, back, all, orders, n - 1);
    }
  }

  /** The insert names a player of some position's order in some mock week. */
  predicate NamesOrderedPlayer(u: SnapshotInsert, orders: PerPosition<seq<seq<string>>>)
    requires OrdersShaped(orders)
  {
    exists p: Position, v :: 0 <= v < |MOCK_WEEKS| && u.playerId in orders.Get(p)[v]
  }

  /** Appending a week whose inserts name players of its orders keeps every insert naming an ordered player. */
  lemma AppendWeekNamesOrdered(
    front: seq<SnapshotInsert>, back: seq<SnapshotInsert>, all: seq<SnapshotInsert>, orders: PerPosition<seq<seq<string>>>, wi: nat)
    requires OrdersShaped(orders) && wi < |MOCK_WEEKS| && all == front + back
    requires forall t :: 0 <= t < |front| ==> NamesOrderedPlayer(front[t], orders)
    requires forall t :: 0 <= t < |back| ==> exists p: Position :: back[t].playerId in orders.Get(p)[wi]
    ensures forall t :: 0 <= t < |all| ==> NamesOrderedPlayer(all[t], orders)
  {
    forall t | 0 <= t < |all| ensures NamesOrderedPlayer(all[t], orders) {
      if t < |front| {
        assert all[t] == front[t];
      } else {
        var p: Position :| back[t - |front|].playerId in orders.Get(p)[wi];
        assert all[t].playerId in orders.Get(p)[wi];
      }
    }
  }

  /** `playerStmts`. */
  function SeedPlayerStatements(dir: Entries<SleeperPlayer>): (r: seq<PlayerUpsert>)
    ensures |r| == PooledCount(dir)
    ensures forall p: Position, e :: e in Pool(dir, p) ==> e.id in UpsertIds(r)
  {
    PlayerBlocksShape(Pools(dir), TRACKED_POSITIONS);
    TrackedPositionsOrder();
    assert forall p: Position :: p in TRACKED_POSITIONS by {
      forall p: Position ensures p in TRACKED_POSITIONS { assert TRACKED_POSITIONS[p.Index()] == p; }
    }
    PlayerBlocks(Pools(dir), TRACKED_POSITIONS)
  }

  /** `snapshotStmts`. */
  function SeedSnapshotStatements(dir: Entries<SleeperPlayer>, draws: PerPosition<seq<seq<int>>>, pts: PointsDraw): (r: seq<SnapshotInsert>)
    requires ValidDraws(draws, Pools(dir))
    ensures |r| == |MOCK_WEEKS| * PooledCount(dir)
  {
    OrdersPermutePools(Pools(dir), draws);
    WeekBlocksShape(Orders(Pools(dir), draws), |MOCK_WEEKS|, pts, Pools(dir));
    WeekBlocks(Orders(Pools(dir), draws), |MOCK_WEEKS|, pts)
  }

  /** The number of pooled players. */
  function PooledCount(dir: Entries<SleeperPlayer>): nat {
    PoolTotal(Pools(dir), TRACKED_POSITIONS)
  }

  /** Both statement lists have the sizes the response reports, and every insert names a pooled player. */
  lemma SeedStatementsShape(dir: Entries<SleeperPlayer>, draws: PerPosition<seq<seq<int>>>, pts: PointsDraw)
    requires ValidDraws(draws, Pools(dir))
    ensures |SeedPlayerStatements(dir)| == PooledCount(dir)
    ensures |SeedSnapshotStatements(dir, draws, pts)| == |MOCK_WEEKS| * PooledCount(dir)
    ensures forall t :: 0 <= t < |SeedSnapshotStatements(dir, draws, pts)| ==>
              SeedSnapshotStatements(dir, draws, pts)[t].playerId in UpsertIds(SeedPlayerStatements(dir))
  {
    var pools := Pools(dir);
    var orders := Orders(pools, draws);
    var stmts := SeedSnapshotStatements(dir, draws, pts);
    PlayerBlocksShape(pools, TRACKED_POSITIONS);
    OrdersPermutePools(pools, draws);
    WeekBlocksShape(orders, |MOCK_WEEKS|, pts, pools);
    forall t | 0 <= t < |stmts| ensures stmts[t].playerId in UpsertIds(SeedPlayerStatements(dir)) {
      var p: Position, wi :| 0 <= wi < |MOCK_WEEKS| && stmts[t].playerId in orders.Get(p)[wi];
      assert stmts[t].playerId in multiset(Ids(pools.Get(p)));
      PooledIdUpserted(pools, p, stmts[t].playerId);
    }
  }

  /** Every week's order of a position is a reordering of its pool. */
  lemma OrdersPermutePools(pools: PerPosition<seq<PoolEntry>>, draws: PerPosition<seq<seq<int>>>)
    requires ValidDraws(draws, pools)
    ensures forall p: Position, wi :: 0 <= wi < |MOCK_WEEKS| ==>
              |Orders(pools, draws).Get(p)[wi]| == |pools.Get(p)|
              && multiset(Orders(pools, draws).Get(p)[wi]) == multiset(Ids(pools.Get(p)))
  {
    forall p: Position, wi | 0 <= wi < |MOCK_WEEKS|
      ensures |Orders(pools, draws).Get(p)[wi]| == |pools.Get(p)|
      ensures multiset(Orders(pools, draws).Get(p)[wi]) == multiset(Ids(pools.Get(p)))
    {
      assert WeekDraws(draws.Get(p), |pools.Get(p)|);
      WeekOrderPermutation(Ids(pools.Get(p)), draws.Get(p), wi);
    }
  }

  /** An id of any pool is upserted by the player statements. */
  lemma PooledIdUpserted(pools: PerPosition<seq<PoolEntry>>, p: Position, id: string)
    requires id in multiset(Ids(pools.Get(p)))
    ensures id in UpsertIds(PlayerBlocks(pools, TRACKED_POSITIONS))
  {
    PlayerBlocksShape(pools, TRACKED_POSITIONS);
    TrackedPositionsOrder();
    var k :| 0 <= k < |pools.Get(p)| && Ids(pools.Get(p))[k] == id;
    assert pools.Get(p)[k] in pools.Get(p);
    assert p in TRACKED_POSITIONS by { assert TRACKED_POSITIONS[p.Index()] == p; }
  }

  /** The JSON body of a successful seed. */
  datatype SeedSummary = SeedSummary(season: int, weeks: seq<int>, players: nat, snapshots: nat)

  /**
   * `POST`: pool, trim, wipe both tables (snapshots first), upsert the pooled
   * players, then insert every mock week's ranks. Whatever the tables held
   * before, they end up holding exactly the seeded data, and every snapshot
   * names a stored player.
   */
  method Seed(db: Db, dir: Entries<SleeperPlayer>, draws: PerPosition<seq<seq<int>>>, pts: PointsDraw)
    returns (summary: SeedSummary)
    requires ValidDraws(draws, Pools(dir))
    modifies db
    ensures db.players == ApplyUpserts(map[], SeedPlayerStatements(dir))
    ensures db.snapshots == ApplyInserts(map[], SeedSnapshotStatements(dir, draws, pts))
    ensures db.Valid()
    ensures summary == SeedSummary(MOCK_SEASON, MOCK_WEEKS, PooledCount(dir), |MOCK_WEEKS| * PooledCount(dir))
  {
    var pools := BuildPools(dir);
    db.DeleteAllSnapshots();
    db.DeleteAllPlayers();
    var playerStmts := PlayerBlocks(pools, TRACKED_POSITIONS);
    db.BatchUpsertPlayers(playerStmts);
    var weeklyOrder := WeeklyOrders(pools, draws);
    var snapshotStmts := SnapshotStatements(weeklyOrder, pts);
    SeedStatementsShape(dir, draws, pts);
    db.BatchInsertSnapshots(snapshotStmts);
    summary := SeedSummary(MOCK_SEASON, MOCK_WEEKS, |playerStmts|, |snapshotStmts|);
  }
}
