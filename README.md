# FantasyTrack ranking pipeline in Dafny

FantasyTrack records weekly fantasy-football position rankings. The rankings come
from the Sleeper provider. The app shows each player's latest rank and how it moved
since the previous week. This project models the core of the app in Dafny and
proves what it promises:

- **Provider vocabulary** (`sleeper.dfy`, module `Sleeper`):
  - the five tracked positions, and how a player's position is resolved;
  - the display name, and how it falls back;
  - the resolver that turns the clock into a season and week.
- **Snapshot pipeline** (`snapshot.dfy`, module `Snapshot`, `POST /api/cron/snapshot`):
  - ranks every tracked position from the week's projections, sorted by points;
  - when no projection is positive, falls back to the provider's stats ranks;
  - upserts one player row and inserts one snapshot row per ranked player.
  The loops are methods proved against specification functions (`Rankings`, `Plan`).
- **Tables** (`store.dfy`, module `Store`):
  - `players` and `snapshots`, held in the class `Db`;
  - the player upsert, where the last write wins;
  - the insert-if-absent snapshot statement, where the first write wins and a
    recorded week never changes;
  - referential integrity, kept as a class invariant.
- **Read route** (`players_api.dfy`, module `PlayersApi`, `GET /api/players`):
  - the latest recorded period and the previous week;
  - the query the route assembles clause by clause with its positional arguments;
  - the SQL join and left join, the optional position and team filters, and
    `ORDER BY p.position, s.rank`;
  - the mapping to response rows with `rank_change = prev_rank - rank`.
- **Mock seeder** (`seed_mock.dfy`, module `SeedMock`, `POST /api/seed-mock`):
  - per-position pools trimmed to a fixed size;
  - five mock weeks whose orders drift by random swaps, modelled as the in-place
    array loop of `driftRanks`;
  - the statements that wipe and refill both tables.
- **Page and table** (`players_page.dfy` and `player_table.dfy`):
  - the page: the placeholder for no rows, the heading period, and the sorted,
    deduplicated team list;
  - the table: the client-side drop-down filters and the trend badge.
- **Schema bootstrap** (`init_db.dfy`, module `InitDb`): cut the schema at `;`,
  trim, drop empty pieces, and execute the rest in order.
- **Shared modules:**
  - `Options`: `T | null` as `Option<T>`;
  - `Seqs`: order-preserving selection, i.e. the `for … of … continue … push` loops
    and `filter`/`map`/`flatMap`;
  - `Sorting`: a stable sort by a total preorder, standing for
    `Array.prototype.sort` and SQL `ORDER BY`;
  - `Strings`: JavaScript `trim`, `split` on one character, `join`, and code-point
    string order.

Two behaviours of the code are modelled as written:

- **Week 1.** The read route computes a previous season for week 1
  (`src/app/api/players/route.ts:34`) but never uses it. In week 1 no previous
  period is joined, so no row carries a rank change (`PlayersApi.ResponseFirstWeek`).
- **Name fallback.** The `?? id` fallback for a player's name
  (`src/app/api/cron/snapshot/route.ts:85`) never applies: the trimmed template
  string is never null. A player without name fields gets the empty name
  (`Sleeper.DisplayNameMayBeEmpty`).

JSON objects from the provider are modelled as the sequence of their entries, in
`Object.entries` order. That order decides ties in the points sort and in the
table scan. Key uniqueness is a hypothesis of the lemmas that need it
(`DistinctKeys`, `PlayersKeyed`, `SnapshotsKeyed`); no method requires it.

## Model

| member | source | states |
|---|---|---|
| Options.Option.GetOr | src/app/api/cron/snapshot/route.ts:26-27 | `x ?? d` is the value when present and `d` otherwise |
| Strings.IsSpace | src/scripts/init-db.ts:12 | the characters `trim` strips include space, tab, line feed and carriage return, and never `;` or a visible ASCII character |
| Strings.LeadingSpace | src/scripts/init-db.ts:12 | the run of white space `trim` removes at the front: all white space, followed by a non-space or the end |
| Strings.TrailingSpaceStart | src/scripts/init-db.ts:12 | the run of white space `trim` removes at the back: all white space, preceded by a non-space or the start |
| Strings.Trim | src/scripts/init-db.ts:12 | `trim` cuts exactly a leading and a trailing run of white space: the result is a slice of the input with only white space before and after it, and its own ends are not white space; it is empty exactly for blank input |
| Strings.TrimmedSlice | src/scripts/init-db.ts:12 | the slice between the two white-space runs has every property `trim` promises |
| Strings.TrimKeepsTrimmed | src/scripts/init-db.ts:12 | trimming a string that has no white space at its ends changes nothing |
| Strings.Split | src/scripts/init-db.ts:12 | `split(';')` yields at least one piece and no piece holds the separator |
| Strings.JoinSplit | src/scripts/init-db.ts:12 | joining the pieces of a split gives the original text back |
| Strings.SplitJoin | src/scripts/init-db.ts:12 | splitting a join of separator-free pieces gives those pieces back |
| Strings.StrLt | src/app/PlayersPage.tsx:24 | the string order of `sort()` and of SQLite's BINARY collation never puts a string before itself, and puts a proper prefix first |
| Strings.StrLtFirstDifference | src/app/api/players/route.ts:94 | `a` comes before `b` exactly when it is a proper prefix of `b`, or the two agree up to a position where `a` has the smaller code point |
| Strings.DiffersAtTail | src/app/api/players/route.ts:94 | past a common first character, the first difference moves one place along |
| Strings.StrLtIrreflexive | src/app/PlayersPage.tsx:24 | the string order of `sort()` is irreflexive |
| Strings.StrLtTransitive | src/app/PlayersPage.tsx:24 | the string order of `sort()` is transitive |
| Strings.StrLtTotal | src/app/PlayersPage.tsx:24 | any two different strings are ordered one way or the other |
| Strings.StrLtAsymmetric | src/app/PlayersPage.tsx:24 | no two strings are each below the other |
| Sorting.Insert | src/app/api/cron/snapshot/route.ts:61 | one insertion step adds exactly one copy of the element |
| Sorting.SortBy | src/app/api/cron/snapshot/route.ts:61 | the sort is a permutation of its input |
| Sorting.SortByMember | src/app/PlayersPage.tsx:24 | sorting loses no element |
| Sorting.InsertSorted | src/app/api/cron/snapshot/route.ts:61 | inserting into a sorted list under a total preorder keeps it sorted |
| Sorting.SortBySorted | src/app/api/cron/snapshot/route.ts:61 | the result of the sort is ordered by the comparator |
| Sorting.InsertEquivalents | src/app/api/cron/snapshot/route.ts:61 | an insertion puts the new element ahead of the elements that compare equal to it and keeps their order |
| Sorting.SortByStable | src/app/api/cron/snapshot/route.ts:61 | the sort is stable: elements that compare equal keep their relative order |
| Sorting.PermutationKeepsKeysDistinct | src/app/api/players/route.ts:94 | reordering rows keeps distinct keys distinct |
| Sleeper.TrackedPositionsOrder | src/lib/sleeper.ts:3-27 | `TRACKED_POSITIONS` lists each of the five positions once, in the order QB, RB, WR, TE, K, under distinct names |
| Sleeper.ParsePosition | src/app/api/cron/snapshot/route.ts:53-54 | a resolved position string counts exactly when it names one of the five tracked positions |
| Sleeper.TrackedPosition | src/app/api/cron/snapshot/route.ts:53-54 | a player is ranked under a position exactly when the resolved position string is that position's name |
| Sleeper.Lookup | src/app/api/cron/snapshot/route.ts:51-52 | `allPlayers[id]` is absent exactly when no entry has that key, and is otherwise an entry with that key |
| Sleeper.LookupEntry | src/app/api/cron/snapshot/route.ts:51 | in a JSON object the lookup of an entry's key finds that entry |
| Sleeper.ResolvePosition | src/app/api/cron/snapshot/route.ts:53 | the first fantasy position when the list is non-empty, else `position` |
| Sleeper.DisplayName | src/app/api/cron/snapshot/route.ts:83-85 | `full_name` when present; otherwise the trim of first name, a space and last name (absent parts empty), so no white space at either end |
| Sleeper.DisplayNameMayBeEmpty | src/app/api/cron/snapshot/route.ts:83-85 | a player with no name fields gets the empty name, not the id |
| Sleeper.DisplayNameJoinsParts | src/app/api/cron/snapshot/route.ts:84 | first and last names without surrounding space are joined by exactly one space |
| Sleeper.PerPosition.Set | src/app/api/cron/snapshot/route.ts:58 | updating one position's group leaves the others unchanged |
| Sleeper.Tabulate | src/app/api/cron/snapshot/route.ts:42-44 | the per-position record holds `f(p)` under each position |
| Sleeper.PerPositionEq | src/app/api/cron/snapshot/route.ts:42-44 | records that agree on every position are equal |
| Sleeper.EmptyGroups | src/app/api/cron/snapshot/route.ts:47-49 | `{ QB: [], RB: [], WR: [], TE: [], K: [] }` holds no entry under any position |
| Sleeper.DaysSinceStart | src/lib/sleeper.ts:70-72 | the floored day count: the whole days from the season start are at most the elapsed time, and one more day is past it |
| Sleeper.GetCurrentNFLWeek | src/lib/sleeper.ts:59-75 | before 2025-09-04 it is 2024 week 18; from then on it is season 2025, week `floor(days / 7) + 1` clamped to 1..18 |
| Sleeper.WeekMonotone | src/lib/sleeper.ts:59-75 | the resolved period never goes back in time as the clock advances |
| Sleeper.WeekBoundary | src/lib/sleeper.ts:70-73 | week `w` begins exactly `7 * (w - 1)` days after the season start; the millisecond before is week `w - 1` |
| Sleeper.FirstWeek | src/lib/sleeper.ts:70-74 | days 0 to 6 of the season are 2025 week 1 |
| Store.ApplyUpserts | src/app/api/cron/snapshot/route.ts:87-95 | after a batch of upserts the table holds the old ids plus every upserted id, and untouched players keep their rows |
| Store.ApplyInserts | src/app/api/cron/snapshot/route.ts:97-102 | after a batch of inserts the table holds the old keys plus every inserted key |
| Store.UpsertLastWriteWins | src/app/api/cron/snapshot/route.ts:90-93 | `ON CONFLICT DO UPDATE`: a player's row is the one their last upsert wrote |
| Store.LastWrite | src/app/api/cron/snapshot/route.ts:90-93 | every upserted id has a last upsert, and no later upsert names it |
| Store.UpsertIdempotent | src/app/api/cron/snapshot/route.ts:90-93 | replaying a batch of upserts changes nothing |
| Store.InsertKeepsRecorded | src/app/api/cron/snapshot/route.ts:100 | `DO NOTHING`: a recorded snapshot is never changed by inserts |
| Store.InsertFirstWriteWins | src/app/api/cron/snapshot/route.ts:100 | a newly recorded snapshot holds what the first insert of its key wrote |
| Store.InsertRecordedIsNoOp | src/app/api/cron/snapshot/route.ts:100 | inserts whose keys are all recorded change nothing |
| Store.InsertIdempotent | src/app/api/cron/snapshot/route.ts:98-101 | replaying a batch of inserts changes nothing |
| Store.InsertsKeepIntegrity | src/app/api/cron/snapshot/route.ts:106-108 | inserting snapshots of stored players keeps every snapshot attached to a stored player |
| Store.Db.BatchUpsertPlayers | src/app/api/cron/snapshot/route.ts:107 | the player batch applies the upserts in order, leaves snapshots alone and keeps integrity |
| Store.Db.BatchInsertSnapshots | src/app/api/cron/snapshot/route.ts:108 | the snapshot batch applies the inserts in order, leaves players alone, and keeps integrity when every insert names a stored player |
| Store.Db.DeleteAllSnapshots | src/app/api/seed-mock/route.ts:81 | `DELETE FROM snapshots` empties that table only |
| Store.Db.DeleteAllPlayers | src/app/api/seed-mock/route.ts:82 | `DELETE FROM players` empties that table only; integrity holds when snapshots were removed first |
| Snapshot.ProjectedPoints | src/app/api/cron/snapshot/route.ts:56 | `pts_ppr ?? 0`: the projected value when present, 0 otherwise; positive exactly when a positive value is present |
| Snapshot.MorePoints | src/app/api/cron/snapshot/route.ts:61 | `a` may precede `b` exactly when the comparator `b.pts - a.pts` is not positive |
| Snapshot.MorePointsPreorder | src/app/api/cron/snapshot/route.ts:61 | the comparator `b.pts - a.pts` is a total preorder |
| Snapshot.Rankings | src/app/api/cron/snapshot/route.ts:42-74 | `byPosition` holds the ranking of each tracked position |
| Snapshot.HasProjections | src/app/api/cron/snapshot/route.ts:36 | projections count exactly when some entry has a defined, positive `pts_ppr`; `Snapshot.RankingIgnoresStats` shows the stats are then unused |
| Snapshot.ProjectionCandidate | src/app/api/cron/snapshot/route.ts:51-58 | the projections loop keeps an entry exactly when it is a known, active player of that position with positive points, and makes it `{ id, pts }`; `Snapshot.CandidateOrigin` lifts this to the whole list |
| Snapshot.Candidates | src/app/api/cron/snapshot/route.ts:50-59 | `tempByPos[pos]` has at most one candidate per projection entry, each with positive points; `Snapshot.CandidatesSelect` shows it is exactly the passing entries in order |
| Snapshot.ProjectionRanking | src/app/api/cron/snapshot/route.ts:60-64 | a projection group has one entry per candidate, ranked 1, 2, 3 in order; `Snapshot.ProjectionRankingOrdered` adds the points order and stability |
| Snapshot.StatsEntryFor | src/app/api/cron/snapshot/route.ts:66-72 | the stats loop keeps an entry exactly when `pos_rank_ppr` is truthy, the player is known and resolves to the position; it records the rank verbatim and the points or null |
| Snapshot.StatsRanking | src/app/api/cron/snapshot/route.ts:65-74 | a stats group has at most one entry per stats entry and no zero rank; `Snapshot.StatsRankingSelects` shows it is exactly the passing entries in order |
| Snapshot.Ranking | src/app/api/cron/snapshot/route.ts:36-74 | with projections a group is ranked 1, 2, 3 over its candidates; without, it comes from the stats; no entry has rank zero; `Snapshot.RankingPositioned` and `Snapshot.RankingIdsDistinct` add membership and uniqueness |
| Snapshot.Flatten | src/app/api/cron/snapshot/route.ts:80-81 | every entry of the statement loop is ranked under one of the walked positions |
| Snapshot.Plan | src/app/api/cron/snapshot/route.ts:80-82 | every entry the statement loop visits is a directory player ranked under their own tracked position, so `allPlayers[id]` is defined |
| Snapshot.CandidateOrigin | src/app/api/cron/snapshot/route.ts:50-59 | a projection candidate is a known, active player of that position with positive points |
| Snapshot.CandidatesSelect | src/app/api/cron/snapshot/route.ts:50-59 | the candidates are exactly the projection entries that pass the filters, in payload order |
| Snapshot.ProjectionRankingOrdered | src/app/api/cron/snapshot/route.ts:60-64 | a projection group is its candidates sorted by points descending, ranked 1, 2, 3…, with positive points and ties in payload order |
| Snapshot.StatsRankingSelects | src/app/api/cron/snapshot/route.ts:65-74 | a stats group is exactly the stats entries that pass the filters, in payload order, with a non-zero upstream rank |
| Snapshot.RankingIgnoresStats | src/app/api/cron/snapshot/route.ts:36-39 | the stats payload is irrelevant whenever some projection is positive |
| Snapshot.RankingPositioned | src/app/api/cron/snapshot/route.ts:50-74 | every ranked entry is a known player ranked under their own tracked position |
| Snapshot.RankingIdsDistinct | src/app/api/cron/snapshot/route.ts:50-74 | within a group no player appears twice |
| Snapshot.RankingsPositioned | src/app/api/cron/snapshot/route.ts:42-74 | every group of `byPosition` holds only players of that position |
| Snapshot.RankingsNoRepeats | src/app/api/cron/snapshot/route.ts:42-74 | no group of `byPosition` repeats a player |
| Snapshot.FlattenPrefix | src/app/api/cron/snapshot/route.ts:80-81 | the entries for the first `i` positions are a prefix of the whole loop's entries |
| Snapshot.FlattenSlot | src/app/api/cron/snapshot/route.ts:80-81 | entry `k` of position `ps[i]` is visited right after the groups of the earlier positions |
| Snapshot.FlattenComplete | src/app/api/cron/snapshot/route.ts:80-81 | every entry of every walked group is visited |
| Snapshot.FlattenStep | src/app/api/cron/snapshot/route.ts:80-81 | walking one more position visits exactly its group more |
| Snapshot.FlattenIdsDistinct | src/app/api/cron/snapshot/route.ts:80-81 | with distinct positions and groups that hold only their own players, no id is visited twice |
| Snapshot.AppendIdsDistinct | src/app/api/cron/snapshot/route.ts:80-81 | two repeat-free, disjoint runs make one repeat-free run |
| Snapshot.TrackedPositionsDistinct | src/lib/sleeper.ts:27 | no position is walked twice |
| Snapshot.PlanIdsDistinct | src/app/api/cron/snapshot/route.ts:80-104 | given payloads without repeated keys, no player gets two statements |
| Snapshot.FlattenTrackedSize | src/app/api/cron/snapshot/route.ts:80-81 | the loop visits the five groups' entries, no more and no fewer |
| Snapshot.PlanSize | src/app/api/cron/snapshot/route.ts:114-115 | the counts reported are the sum of the five group sizes |
| Snapshot.PlanEntryRecorded | src/app/api/cron/snapshot/route.ts:87-108 | each planned entry ends with its upserted player row and, unless already recorded, its inserted snapshot |
| Snapshot.StatementsRecordRanking | src/app/api/cron/snapshot/route.ts:80-108 | after a run each ranked player's row has their display name, the ranked position and the directory team; the week's snapshot holds their rank and points, or the older row when the week was already recorded |
| Snapshot.PlanSlot | src/app/api/cron/snapshot/route.ts:80-81 | every ranked entry has a place in the statement loop |
| Snapshot.RerunChangesNothing | src/app/api/cron/snapshot/route.ts:87-108 | a second run on the same inputs changes neither table |
| Snapshot.GroupProjections | src/app/api/cron/snapshot/route.ts:50-59 | the projections loop leaves each position's candidates in `tempByPos` |
| Snapshot.RankGroups | src/app/api/cron/snapshot/route.ts:60-64 | each group is sorted by points and numbered from 1 |
| Snapshot.PushRanks | src/app/api/cron/snapshot/route.ts:61-63 | `forEach` appends the numbered group to its position and touches no other |
| Snapshot.GroupStats | src/app/api/cron/snapshot/route.ts:65-74 | the stats loop leaves each position's stats ranking in `byPosition` |
| Snapshot.AddStat | src/app/api/cron/snapshot/route.ts:66-72 | one stats entry joins the group of its player's position when it passes every `continue` |
| Snapshot.StatementsStep | src/app/api/cron/snapshot/route.ts:87-102 | each visited entry appends one upsert and one insert |
| Snapshot.AppendGroupStatements | src/app/api/cron/snapshot/route.ts:81-103 | the inner loop appends one upsert and one insert per entry of the group |
| Snapshot.BuildStatements | src/app/api/cron/snapshot/route.ts:80-104 | the statement loop yields one upsert and one insert per ranked entry, positions in tracked order |
| Snapshot.RankAll | src/app/api/cron/snapshot/route.ts:36-74 | stats are fetched exactly when no projection is positive, and `byPosition` is the ranking |
| Snapshot.PlanStatements | src/app/api/cron/snapshot/route.ts:36-104 | the two statement lists have one entry per planned player, pairwise on the same player |
| Snapshot.PlayerStatement | src/app/api/cron/snapshot/route.ts:87-95 | the upsert carries the entry's id, the player's display name, the ranked position and `team ?? null` |
| Snapshot.SnapshotStatement | src/app/api/cron/snapshot/route.ts:97-102 | the insert is keyed by the entry's id and the target season and week, and carries the rank and the points |
| Snapshot.PlayerStatements | src/app/api/cron/snapshot/route.ts:82-95 | one player upsert per planned entry, in order, with its id, display name, ranked position and directory team |
| Snapshot.SnapshotStatements | src/app/api/cron/snapshot/route.ts:97-102 | one snapshot insert per planned entry, in order, with its id, the target week and season, its rank and its points |
| Snapshot.Run | src/app/api/cron/snapshot/route.ts:24-116 | the target period is the parameter or the resolved week; both tables receive exactly the planned statements; the reported counts equal the plan size; integrity holds |
| SeedMock.Drift | src/app/api/seed-mock/route.ts:34 | a draw's drift lies in `-maxDrift..maxDrift` |
| SeedMock.SwapTarget | src/app/api/seed-mock/route.ts:35 | the swap index is `i + drift` clamped into the array |
| SeedMock.Swap | src/app/api/seed-mock/route.ts:37 | the destructuring swap exchanges two slots and touches no other |
| SeedMock.SwapPermutes | src/app/api/seed-mock/route.ts:37 | a swap only reorders |
| SeedMock.DriftSteps | src/app/api/seed-mock/route.ts:33-38 | the swap loop keeps the length |
| SeedMock.DriftStepsPermutation | src/app/api/seed-mock/route.ts:33-38 | after any number of iterations the ids are the same, each as often |
| SeedMock.DriftStepPermutes | src/app/api/seed-mock/route.ts:34-37 | one iteration only reorders |
| SeedMock.Drifted | src/app/api/seed-mock/route.ts:30-40 | `driftRanks` returns as many ids as it was given; `SeedMock.DriftedPermutation` shows it only reorders them |
| SeedMock.DriftedPermutation | src/app/api/seed-mock/route.ts:30-40 | whatever the draws, `driftRanks` returns a permutation of its input |
| SeedMock.DriftStepsStill | src/app/api/seed-mock/route.ts:33-38 | with every drift zero, no iteration moves anything |
| SeedMock.DriftedStill | src/app/api/seed-mock/route.ts:30-40 | with every drift zero, `driftRanks` returns its input unchanged |
| SeedMock.SwapInPlace | src/app/api/seed-mock/route.ts:37 | the in-place swap leaves the array as `Swap` of its old contents |
| SeedMock.DriftRanks | src/app/api/seed-mock/route.ts:30-40 | the array loop computes the drifted order, a permutation of the input |
| SeedMock.CopyToArray | src/app/api/seed-mock/route.ts:32 | `[...ranks]` is a fresh array with the same contents |
| SeedMock.DriftStep | src/app/api/seed-mock/route.ts:34-37 | one loop iteration advances the array by one swap step |
| SeedMock.Take | src/app/api/seed-mock/route.ts:76 | `slice(0, n)` is the prefix of length `min(n, length)` |
| SeedMock.PoolSize | src/app/api/seed-mock/route.ts:18-24 | every position keeps at least one player; `SeedMock.PooledCountBound` sums the sizes |
| SeedMock.PoolTotalBound | src/app/api/seed-mock/route.ts:74-77 | trimmed pools hold at most the summed `POOL_SIZE` of their positions |
| SeedMock.TrackedCapacity | src/app/api/seed-mock/route.ts:18-24 | `POOL_SIZE` sums to 256 over the tracked positions |
| SeedMock.PooledCountBound | src/app/api/seed-mock/route.ts:64-77 | the route pools, and so upserts, at most 256 players |
| SeedMock.Pools | src/app/api/seed-mock/route.ts:60-77 | each position's pool is its trimmed candidate list |
| SeedMock.PoolCandidate | src/app/api/seed-mock/route.ts:65-71 | the pool loop keeps an entry exactly when the player is active, has a non-empty team and resolves to the position, and stores its id, display name and team |
| SeedMock.Pool | src/app/api/seed-mock/route.ts:64-77 | a pool holds at most `POOL_SIZE[pos]` entries, a prefix of the position's candidates, and all of them when they fit; `SeedMock.PoolEntries` ties each entry to its directory player |
| SeedMock.BuildPools | src/app/api/seed-mock/route.ts:60-77 | the pool loop and the trim loop produce `Pools` |
| SeedMock.CollectCandidates | src/app/api/seed-mock/route.ts:64-72 | the pool loop leaves each position's candidates, in directory order |
| SeedMock.TrimPools | src/app/api/seed-mock/route.ts:75-77 | the trim loop cuts each pool to `POOL_SIZE` |
| SeedMock.PoolEntries | src/app/api/seed-mock/route.ts:64-77 | a pool is at most `POOL_SIZE` long and is the first eligible directory players (active, non-empty team, that position) with their display names |
| SeedMock.PoolComplete | src/app/api/seed-mock/route.ts:64-77 | an eligible player is pooled unless the pool overflowed |
| SeedMock.PoolsDisjoint | src/app/api/seed-mock/route.ts:64-72 | no player is pooled twice, in one position or across two |
| SeedMock.Ids | src/app/api/seed-mock/route.ts:104 | `pool.map(p => p.id)` |
| SeedMock.WeekOrder | src/app/api/seed-mock/route.ts:104-108 | every week's order has the pool's length |
| SeedMock.WeekOrders | src/app/api/seed-mock/route.ts:103-109 | one order per mock week |
| SeedMock.Orders | src/app/api/seed-mock/route.ts:99-109 | `weeklyOrder[pos]` is the week orders of that position's pool |
| SeedMock.WeekOrderPermutation | src/app/api/seed-mock/route.ts:103-109 | every week's order is a permutation of the pool's ids |
| SeedMock.WeekOrdersOf | src/app/api/seed-mock/route.ts:103-109 | a list holding each week's order is the position's week orders |
| SeedMock.WeeklyOrders | src/app/api/seed-mock/route.ts:99-109 | the `weeklyOrder` loops produce `Orders` |
| SeedMock.DriftWeeks | src/app/api/seed-mock/route.ts:104-108 | the initial order, then one drift of the previous week per further week |
| SeedMock.PlayerBlocks | src/app/api/seed-mock/route.ts:86-94 | `playerStmts` holds one upsert per pooled player, each made from a pooled entry with its pool's position and team |
| SeedMock.PlayerBlocksShape | src/app/api/seed-mock/route.ts:86-94 | one upsert per pooled player, and every pooled player is upserted |
| SeedMock.Block | src/app/api/seed-mock/route.ts:114-127 | one insert per player of a week's order, in order, ranked from 1, for that week of season 2025 |
| SeedMock.AppendBlock | src/app/api/seed-mock/route.ts:117-127 | the inner loop appends one insert per player of the order, ranks from 1 |
| SeedMock.PositionBlocks | src/app/api/seed-mock/route.ts:114-128 | the inserts of one week are all for that mock week of season 2025, with ranks from 1 |
| SeedMock.WeekBlocks | src/app/api/seed-mock/route.ts:111-129 | every insert of the first n weeks is for season 2025, one of those weeks, and a rank from 1 |
| SeedMock.SnapshotStatements | src/app/api/seed-mock/route.ts:111-129 | the loops emit weeks outside and positions in tracked order inside |
| SeedMock.AppendWeek | src/app/api/seed-mock/route.ts:113-128 | one pass of the week loop appends the blocks of the tracked positions, in order |
| SeedMock.PositionBlocksShape | src/app/api/seed-mock/route.ts:114-128 | a week emits one insert per pooled player, each naming a player of some week order |
| SeedMock.WeekBlocksShape | src/app/api/seed-mock/route.ts:112-129 | `n` weeks emit `n` times the pooled count, each naming a player of some order |
| SeedMock.AppendWeekNamesOrdered | src/app/api/seed-mock/route.ts:111-129 | appending a week whose inserts name ordered players keeps every insert naming one |
| SeedMock.SeedStatementsShape | src/app/api/seed-mock/route.ts:86-138 | the reported counts are the pooled count and five times it, and every insert names an upserted player |
| SeedMock.SeedPlayerStatements | src/app/api/seed-mock/route.ts:86-94 | `playerStmts` has one upsert per pooled player and upserts every pooled player |
| SeedMock.SeedSnapshotStatements | src/app/api/seed-mock/route.ts:97-129 | `snapshotStmts` has one insert per pooled player for each of the five mock weeks |
| SeedMock.OrdersPermutePools | src/app/api/seed-mock/route.ts:99-109 | every week's order of a position is a reordering of its pool |
| SeedMock.PooledIdUpserted | src/app/api/seed-mock/route.ts:86-94 | an id of any pool is upserted |
| SeedMock.Seed | src/app/api/seed-mock/route.ts:56-139 | whatever the tables held, they end holding exactly the seeded rows, integrity holds, and the summary reports season 2025, weeks 14-18 and the statement counts |
| Seqs.FilterMap | src/app/api/cron/snapshot/route.ts:50-59 | a selection is no longer than its source |
| Seqs.FilterMapSelects | src/app/api/cron/snapshot/route.ts:50-59 | the kept elements, each mapped, in order, none missed |
| Seqs.FilterMapAppend | src/app/api/cron/snapshot/route.ts:58 | one loop iteration appends at most the current element's image |
| Seqs.FilterMapSource | src/app/api/cron/snapshot/route.ts:50-59 | every selected element is the image of a source element |
| Seqs.FilterMapComplete | src/app/api/cron/snapshot/route.ts:50-59 | every kept source element is selected |
| Seqs.FilterMapKeysDistinct | src/app/api/cron/snapshot/route.ts:50-59 | selection keeps keys distinct when images carry their source's key |
| Seqs.Filter | src/components/PlayerTable.tsx:19-22 | `filter` keeps exactly the elements passing the test, every copy of each, never more than it was given, and everything when all pass |
| Seqs.FilterMapKeepsAll | src/components/PlayerTable.tsx:19-22 | a selection that keeps every element unchanged is the identity |
| Seqs.FilterMapCount | src/components/PlayerTable.tsx:19-22 | a selection keeps every copy of each element that passes the test |
| Seqs.MapSeq | src/app/api/players/route.ts:98 | `map` keeps the length |
| Seqs.MapSeqMember | src/app/api/players/route.ts:98 | the image of a member is a member of the image |
| Seqs.FlatMapMember | src/app/api/seed-mock/route.ts:86-94 | an element of a `flatMap` comes from some element's image, and every image element is present |
| Seqs.FlatMap | src/app/api/seed-mock/route.ts:86 | no image is longer than the result, and the result is empty exactly when every image is |
| Seqs.FlatMapSingleton | src/app/api/seed-mock/route.ts:86 | the flat map of one element is its image |
| Seqs.FlatMapKeep | src/app/api/players/route.ts:51-59 | a flat map whose images have at most one element is a selection |
| Seqs.FilterSingleton | src/app/api/players/route.ts:56-59 | a keyed match selects exactly one row |
| Seqs.FilterKeysDistinct | src/components/PlayerTable.tsx:19-22 | filtering keeps keys distinct |
| Seqs.FilterInOrder | src/components/PlayerTable.tsx:19-22 | `filter` keeps the survivors in their original order |
| PlayersApi.LatestPeriod | src/app/api/players/route.ts:24-30 | none exactly when no snapshot exists; otherwise a recorded period no earlier than any other |
| PlayersApi.PreviousPeriod | src/app/api/players/route.ts:33-34 | past week 1 it is the week before, in the same season; in week 1 there is none |
| PlayersApi.PositionFilter | src/app/api/players/route.ts:85 | the position filters exactly when it is present, non-empty and not `ALL` |
| PlayersApi.TeamFilter | src/app/api/players/route.ts:89 | the team filters exactly when it is present and non-empty |
| PlayersApi.QueryFor | src/app/api/players/route.ts:85-92 | the query reads the latest period and the period `PlayersApi.PreviousPeriod` computes, filters on a position exactly when one other than empty or `ALL` is given, and on a team exactly when a non-empty one is given |
| PlayersApi.Bind | src/app/api/players/route.ts:96 | a bound query had as many arguments as placeholders |
| PlayersApi.BindAppend | src/app/api/players/route.ts:86-87 | appending a clause and its values binds one more clause |
| PlayersApi.BuildQuery | src/app/api/players/route.ts:33-94 | the SQL and arguments bind to the query for the latest period, its previous week and the filters; it starts with the latest join, ends with the order, and left-joins exactly past week 1 |
| PlayersApi.PeriodClauses | src/app/api/players/route.ts:33-83 | the joins bind the latest period and, exactly past week 1, the previous week |
| PlayersApi.AddPositionClause | src/app/api/players/route.ts:85-88 | adds the position filter exactly when it applies |
| PlayersApi.AddTeamClause | src/app/api/players/route.ts:89-92 | adds the team filter exactly when it applies |
| PlayersApi.PositionRankOrderIsPreorder | src/app/api/players/route.ts:94 | `ORDER BY p.position, s.rank` is a total preorder |
| PlayersApi.PositionRankOrder | src/app/api/players/route.ts:94 | rows of one position order by rank; rows of different positions order by position string alone |
| PlayersApi.Passes | src/app/api/players/route.ts:85-92 | with no filter bound every player passes; a player with a null team never passes a team filter |
| PlayersApi.ToApiRow | src/app/api/players/route.ts:98-110 | a response row copies id, name, position, team, rank, projected points, week and season from the joined player and snapshot; `rank_change` is `prev_rank - rank`, positive exactly for an improved rank and null without a previous rank |
| PlayersApi.Get | src/app/api/players/route.ts:18-112 | the route returns the response; no snapshot means no rows |
| PlayersApi.AtPeriod | src/app/api/players/route.ts:52-59 | the join condition holds exactly for a snapshot of that player in that season and week |
| PlayersApi.LeftJoin | src/app/api/players/route.ts:56-59 | `LEFT JOIN` keeps the player and snapshot in every row it yields and never yields none; a previous rank comes from a stored snapshot of that player in the previous period; with no such snapshot, or no previous period, it yields one row with a null previous rank |
| PlayersApi.PlayerRows | src/app/api/players/route.ts:51-59 | a player's rows pair them with their own snapshot of the queried period, with no previous rank when there is no previous period; there are none exactly when no such snapshot exists |
| PlayersApi.RowsOf | src/app/api/players/route.ts:51-59 | the same, for one player |
| PlayersApi.Join | src/app/api/players/route.ts:51-59 | every joined row pairs a stored player with their own snapshot of the queried period; without a previous period no row has a previous rank |
| PlayersApi.Execute | src/app/api/players/route.ts:94-110 | every result row maps a joined row that passes the filters; `PlayersApi.ExecuteComplete` shows every such row is shown |
| PlayersApi.Response | src/app/api/players/route.ts:24-110 | no snapshot means no rows, and every row shown is from the latest recorded period; `PlayersApi.ResponseComplete` and `PlayersApi.ResponseSound` characterise the rows exactly |
| PlayersApi.ResponseFiltered | src/app/api/players/route.ts:85-92 | a bound filter keeps exactly its value; a null team never matches a chosen team |
| PlayersApi.ResponseFirstWeek | src/app/api/players/route.ts:33-83 | in week 1 no row has a rank change |
| PlayersApi.ResponseOrdered | src/app/api/players/route.ts:94 | rows come by position, then by rank ascending |
| PlayersApi.RankAtKeyed | src/app/api/players/route.ts:56-59 | with keyed snapshots the left join finds the one matching snapshot's rank, or none |
| PlayersApi.LeftJoinKeyed | src/app/api/players/route.ts:56-59 | with keyed snapshots the left join yields exactly one row, carrying the one matching previous rank or null |
| PlayersApi.ExpectedRowMapped | src/app/api/players/route.ts:98-110 | mapping a player's joined row gives the expected response row |
| PlayersApi.JoinOne | src/app/api/players/route.ts:51-59 | under the keys a player has a row exactly when they have a snapshot of the queried period; it is that snapshot with the previous rank or null |
| PlayersApi.OneOf | src/app/api/players/route.ts:51-59 | the same, for one player |
| PlayersApi.PlayerRowsKeyed | src/app/api/players/route.ts:51-59 | with keyed snapshots each player contributes at most one joined row |
| PlayersApi.RowsOfKeyed | src/app/api/players/route.ts:51-59 | with keyed snapshots a player's rows are at most the one JoinOne names |
| PlayersApi.JoinKeyed | src/app/api/players/route.ts:51-59 | with keyed snapshots the join is a selection of players |
| PlayersApi.ExecuteComplete | src/app/api/players/route.ts:96-110 | every joined row that passes the filters is shown |
| PlayersApi.JoinOneSource | src/app/api/players/route.ts:51-59 | a player's joined row pairs them with their own snapshot of the period and their previous rank |
| PlayersApi.ResponseComplete | src/app/api/players/route.ts:39-110 | every player with a latest-period snapshot who passes the filters is shown, with their rank change |
| PlayersApi.ResponseSound | src/app/api/players/route.ts:39-110 | every row shown is the expected row of such a player |
| PlayersApi.JoinedShown | src/app/api/players/route.ts:51-110 | a joined row passing the filters is the expected row of a shown player |
| PlayersApi.ResponseOnePerPlayer | src/app/api/players/route.ts:51-110 | with keyed tables no player is shown twice |
| PlayersApi.ExecuteOnePerPlayer | src/app/api/players/route.ts:96-110 | the query yields at most one row per player |
| PlayersApi.SelectedOnePerPlayer | src/app/api/players/route.ts:51-92 | the joined rows that pass the filters name each player at most once |
| PlayersApi.RowsOnePerPlayer | src/app/api/players/route.ts:98-110 | mapping rows of distinct players gives rows with distinct ids |
| PlayerTable.PositionOptions | src/components/PlayerTable.tsx:6 | the drop-down offers `ALL` and then the tracked positions, in their order |
| PlayerTable.Shows | src/components/PlayerTable.tsx:19-22 | `ALL` in both drop-downs shows every row; a row without a team is not shown once a team is chosen |
| PlayerTable.Filtered | src/components/PlayerTable.tsx:19-22 | the rows shown are exactly those matching both drop-downs, with `ALL` matching anything, each kept as often as the route sent it |
| PlayerTable.FilteredInOrder | src/components/PlayerTable.tsx:19-22 | filtering keeps the route's order |
| PlayerTable.TeamlessHidden | src/components/PlayerTable.tsx:21 | a row without a team is hidden once a team is chosen |
| PlayerTable.TrendBadge | src/components/PlayerTable.tsx:78-83 | a dash for null or zero, up with the gain, down with the size of the fall |
| PlayerTable.TrendOfJoinedRow | src/components/PlayerTable.tsx:78-83 | the badge is up exactly when the rank improved and down exactly when it fell, by the rank difference |
| PlayersPage.Fetched | src/app/PlayersPage.tsx:4-9 | a non-OK response yields no rows; an OK one yields its body |
| PlayersPage.Dedupe | src/app/PlayersPage.tsx:24 | `new Set` keeps each value once and loses none; `PlayersPage.DedupeFirstOccurrence` states the order |
| PlayersPage.DedupeFirstOccurrence | src/app/PlayersPage.tsx:24 | `new Set` keeps values in the order of their first occurrence |
| PlayersPage.StrLtNotBoth | src/app/PlayersPage.tsx:24 | no two strings are each before the other |
| PlayersPage.StrLeTotalPreorder | src/app/PlayersPage.tsx:24 | the default string comparison is a total preorder |
| PlayersPage.Teams | src/app/PlayersPage.tsx:24 | the team list holds exactly the non-null teams of the rows, in strictly ascending order |
| PlayersPage.AscendingTail | src/app/PlayersPage.tsx:24 | past its head, a strictly ascending list holds its other members |
| PlayersPage.AscendingUnique | src/app/PlayersPage.tsx:24 | a strictly ascending list is determined by its members |
| PlayersPage.TeamsCanonical | src/app/PlayersPage.tsx:24 | the team list is the only strictly ascending list of the teams that occur |
| PlayersPage.TeamOptionsSelectRows | src/app/PlayersPage.tsx:24 | choosing any offered team leaves at least one row in the table |
| PlayersPage.Page | src/app/PlayersPage.tsx:14-31 | the placeholder exactly for no rows; otherwise the table of the rows with their team list, headed by the season and week of the first row |
| PlayersPage.Render | src/app/PlayersPage.tsx:11-31 | a failed or empty fetch renders the placeholder |
| PlayersPage.PageOfResponse | src/app/PlayersPage.tsx:22-23 | over the route's response the heading names the latest recorded period, and no snapshot means the placeholder |
| InitDb.Statements | src/scripts/init-db.ts:12 | no more statements than `;`-separated pieces, each trimmed, non-empty and free of `;`; `InitDb.StatementsWellFormed` shows they are exactly the non-blank pieces |
| InitDb.StatementsWellFormed | src/scripts/init-db.ts:12 | the statements are exactly the trimmed non-blank pieces; none is empty, holds `;` or has white space at either end |
| InitDb.TrimmedPieces | src/scripts/init-db.ts:12 | trimming and dropping empty pieces leaves exactly the non-blank pieces, trimmed and clean |
| InitDb.TrimmedPieceClean | src/scripts/init-db.ts:12 | a non-blank piece trims to a clean statement |
| InitDb.StatementsInOrder | src/scripts/init-db.ts:12 | the statements come in file order |
| InitDb.StatementsOfJoined | src/scripts/init-db.ts:12 | a file of clean statements joined by `;` yields exactly those statements |
| InitDb.StatementsOfBlank | src/scripts/init-db.ts:12 | a file of white space and separators yields no statement |
| InitDb.JoinedPieceBlank | src/scripts/init-db.ts:12 | every piece of blank text is blank |
| InitDb.InitDatabase | src/scripts/init-db.ts:11-16 | the script executes exactly the statements of the schema text, in order |
| InitDb.ExecuteAll | src/scripts/init-db.ts:14-16 | the loop sends every statement once, in order |

## Left out

- Network fetches (`fetchAllPlayers`, `fetchProjections`, `fetchStats`) are not modelled. Their payloads are parameters. A failed request, which throws and makes the route answer 500, is not modelled either.
- `Promise.all` concurrency is not modelled. The two fetches only supply values.
- The `CRON_SECRET` authorisation check and its 401 answer are not modelled, in both routes.
- `NextResponse` JSON encoding and the `catch` blocks that answer 500 are not modelled.
- Snapshot.Run: the `season` and `week` query parameters arrive already parsed as integers. A value `parseInt` turns into `NaN` is not modelled.
- Snapshot.Run: provider points are integers, not floating-point numbers, so `pts_ppr` values between 0 and 1 are not represented. The tests `> 0` and `<= 0` are kept as written.
- SeedMock.Seed: `ptsForRank` and `PTS_RANGE` (floating-point, random noise, `toFixed`) are replaced by an input function `pts(week, rank, total, pos)`. It is called once per week, position and rank, as `ptsForRank` is, so every call may give its own value.
- SeedMock.DriftRanks: `Math.random()` is replaced by explicit draws. Each draw is the floored value `floor(random() * (2 * maxDrift + 1))`. Only the default `maxDrift` of 4 is used by the seeder.
- Sleeper.GetCurrentNFLWeek: the clock is a parameter (`nowMs`, milliseconds since the epoch).
- PlayersPage.Teams: strings are ordered by code point. JavaScript compares UTF-16 code units; the two differ only for characters outside the Basic Multilingual Plane. The SQL `ORDER BY p.position` is not affected: the libSQL client uses SQLite's default BINARY collation, which compares UTF-8 bytes and so orders by code point exactly as `StrLt` does.
- PlayersApi.Get: rows that tie on position and rank come in table scan order. SQL leaves that order unspecified.
- PlayersApi.Get: the tables are sequences of rows. Their primary and unique keys are hypotheses of the lemmas that need them, not facts the model enforces.
- The store does not enforce the foreign key from `snapshots` to `players`. It is the class invariant `Store.Db.Valid`, which every method of the routes keeps. src/lib/schema.sql and src/lib/db.ts are not part of this model.
- `db.batch` runs as one transaction; rollback on failure is not modelled.
- Rendering is not modelled:
  - React markup, `useState`, row selection and highlighting;
  - `PlayersClient`, `PlayerChart`, `page.tsx`, `layout.tsx`;
  - the player history route `/api/players/[id]/history`.
- InitDb.InitDatabase: reading the schema file (`readFileSync`), creating the database client and the final log line are not modelled. The file text is a parameter and the result is the list of executed statements.
- Logging (`console.log`, `console.error`) is not modelled.
