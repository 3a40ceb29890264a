/**
 * The upstream provider's vocabulary (src/lib/sleeper.ts): the tracked
 * positions, the shapes of the player directory and of the per-week
 * projection and stats payloads, how a player's position and display name are
 * derived, and the resolver that turns "now" into a season and week.
 *
 * A payload is a JSON object keyed by player id; it is modelled as the
 * sequence of its `Object.entries`, because that order breaks ties later on.
 */
module Sleeper {
  import opened Options
  import opened Strings

  datatype Position = QB | RB | WR | TE | K {

    /** The string the provider and the tables use for the position. */
    function Name(): string {
      match this
      case QB => "QB"
      case RB => "RB"
      case WR => "WR"
      case TE => "TE"
      case K => "K"
    }

    /** Where the position stands in `TRACKED_POSITIONS`. */
    function Index(): nat {
      match this
      case QB => 0
      case RB => 1
      case WR => 2
      case TE => 3
      case K => 4
    }
  }

  /** The positions the system ranks, in the order every route walks them. */
  const TRACKED_POSITIONS: seq<Position> := [QB, RB, WR, TE, K]

  lemma TrackedPositionsOrder()
    ensures |TRACKED_POSITIONS| == 5
    ensures forall p: Position :: TRACKED_POSITIONS[p.Index()] == p
    ensures forall i :: 0 <= i < 5 ==> TRACKED_POSITIONS[i].Index() == i
    ensures forall p: Position, q: Position :: p.Name() == q.Name() ==> p == q
  {
  }

  /**
   * `TRACKED_POSITIONS.includes(pos)` on a resolved position string (or
   * `undefined`): the tracked position with that name, if there is one.
   */
  function ParsePosition(s: Option<string>): (r: Option<Position>)
    ensures forall p: Position :: r == Some(p) <==> s == Some(p.Name())
  {
    match s
    case None => None
    case Some(name) =>
      if name == "QB" then Some(QB)
      else if name == "RB" then Some(RB)
      else if name == "WR" then Some(WR)
      else if name == "TE" then Some(TE)
      else if name == "K" then Some(K)
      else None
  }

  /** One entry of the player directory (`SleeperPlayer`); every field may be absent. */
  datatype SleeperPlayer = SleeperPlayer(
    playerId: string,
    fullName: Option<string>,
    firstName: Option<string>,
    lastName: Option<string>,
    position: Option<string>,
    fantasyPositions: Option<seq<string>>,
    team: Option<string>,
    active: Option<bool>)

  /** One entry of the projections payload (`SleeperProjection`). */
  datatype SleeperProjection = SleeperProjection(
    ptsPpr: Option<int>,
    ptsHalfPpr: Option<int>,
    ptsStd: Option<int>)

  /** One entry of the stats payload (`SleeperStats`). */
  datatype SleeperStats = SleeperStats(posRankPpr: Option<int>, ptsPpr: Option<int>)

  /** A JSON object keyed by player id, as the sequence of its entries. */
  type Entries<T> = seq<(string, T)>

  /** What every JSON object satisfies: no key occurs twice. */
  predicate DistinctKeys<T>(entries: Entries<T>) {
    forall i, j :: 0 <= i < j < |entries| ==> entries[i].0 != entries[j].0
  }

  /** `allPlayers[id]`. */
  function Lookup(dir: Entries<SleeperPlayer>, id: string): (r: Option<SleeperPlayer>)
    ensures r.None? <==> forall i :: 0 <= i < |dir| ==> dir[i].0 != id
    ensures r.Some? ==> exists i :: 0 <= i < |dir| && dir[i] == (id, r.value)
  {
    if dir == [] then None
    else if dir[0].0 == id then Some(dir[0].1)
    else
      var r := Lookup(dir[1..], id);
      assert r.Some? ==> exists i :: 0 <= i < |dir| && dir[i] == (id, r.value) by {
        if r.Some? {
          var i :| 0 <= i < |dir[1..]| && dir[1..][i] == (id, r.value);
          assert dir[i + 1] == (id, r.value);
        }
      }
      r
  }

  /** In a JSON object, the entry with key `id` is the one `Lookup` finds. */
  lemma {:induction false} LookupEntry(dir: Entries<SleeperPlayer>, i: nat)
    requires DistinctKeys(dir) && i < |dir|
    ensures Lookup(dir, dir[i].0) == Some(dir[i].1)
  {
    if i > 0 {
      assert dir[0].0 != dir[i].0;
      LookupEntry(dir[1..], i - 1);
    }
  }

  /** `player.fantasy_positions?.[0] ?? player.position`. */
  function ResolvePosition(p: SleeperPlayer): (r: Option<string>)
    ensures p.fantasyPositions.Some? && |p.fantasyPositions.value| > 0
            ==> r == Some(p.fantasyPositions.value[0])
    ensures p.fantasyPositions.None? || p.fantasyPositions.value == [] ==> r == p.position
  {
    match p.fantasyPositions
    case Some(fps) => if |fps| > 0 then Some(fps[0]) else p.position
    case None => p.position
  }

  /** The tracked position a player is ranked under, if any. */
  function TrackedPosition(p: SleeperPlayer): (r: Option<Position>)
    ensures forall pos: Position :: r == Some(pos) <==> ResolvePosition(p) == Some(pos.Name())
  {
    ParsePosition(ResolvePosition(p))
  }

  /**
   * `player.full_name ?? \`${first_name ?? ''} ${last_name ?? ''}\`.trim() ?? id`.
   * The final `?? id` never applies: `trim` always returns a string.
   */
  function DisplayName(p: SleeperPlayer): (r: string)
    ensures p.fullName.Some? ==> r == p.fullName.value
    ensures p.fullName.None? ==> r == Trim(p.firstName.GetOr("") + " " + p.lastName.GetOr(""))
    ensures p.fullName.None? && r != [] ==> !IsSpace(r[0]) && !IsSpace(r[|r| - 1])
    ensures p.fullName.None? ==> multiset(r) <= multiset(p.firstName.GetOr("") + " " + p.lastName.GetOr(""))
  {
    match p.fullName
    case Some(n) => n
    case None => Trim(p.firstName.GetOr("") + " " + p.lastName.GetOr(""))
  }

  /** A player with no name fields gets the empty name, not the id. */
  lemma DisplayNameMayBeEmpty(p: SleeperPlayer)
    requires p.fullName.None? && p.firstName.None? && p.lastName.None?
    ensures DisplayName(p) == ""
  {
    assert IsSpace(" "[0]);
  }

  /** First and last names without surrounding white space are joined by one space. */
  lemma DisplayNameJoinsParts(p: SleeperPlayer, first: string, last: string)
    requires p.fullName.None? && p.firstName == Some(first) && p.lastName == Some(last)
    requires first != [] && !IsSpace(first[0])
    requires last != [] && !IsSpace(last[|last| - 1])
    ensures DisplayName(p) == first + " " + last
  {
    var s := first + " " + last;
    assert s[0] == first[0] && s[|s| - 1] == last[|last| - 1];
    TrimKeepsTrimmed(s);
  }

  /** The per-position record (`Record<Position, T>`) the routes fill. */
  datatype PerPosition<T> = PerPosition(qb: T, rb: T, wr: T, te: T, k: T) {

    function Get(p: Position): T {
      match p
      case QB => qb
      case RB => rb
      case WR => wr
      case TE => te
      case K => k
    }

    function Set(p: Position, v: T): (r: PerPosition<T>)
      ensures r.Get(p) == v
      ensures forall q: Position :: q != p ==> r.Get(q) == Get(q)
    {
      match p
      case QB => this.(qb := v)
      case RB => this.(rb := v)
      case WR => this.(wr := v)
      case TE => this.(te := v)
      case K => this.(k := v)
    }
  }

  /** The record holding `f(p)` under each position `p`. */
  function Tabulate<T>(f: Position -> T): (r: PerPosition<T>)
    ensures forall p: Position :: r.Get(p) == f(p)
  {
    PerPosition(f(QB), f(RB), f(WR), f(TE), f(K))
  }

  /** Two records that agree on every position are equal. */
  lemma PerPositionEq<T>(a: PerPosition<T>, b: PerPosition<T>)
    requires forall p: Position :: a.Get(p) == b.Get(p)
    ensures a == b
  {
    assert a.Get(QB) == b.Get(QB) && a.Get(RB) == b.Get(RB) && a.Get(WR) == b.Get(WR);
    assert a.Get(TE) == b.Get(TE) && a.Get(K) == b.Get(K);
  }

  /** `{ QB: [], RB: [], WR: [], TE: [], K: [] }`. */
  function EmptyGroups<T>(): (r: PerPosition<seq<T>>)
    ensures forall p: Position :: r.Get(p) == []
  {
    PerPosition([], [], [], [], [])
  }

  // ---------------------------------------------------------------------------
  // Week resolver (`getCurrentNFLWeek`), with "now" passed in as epoch milliseconds.

  /** 2025-09-04T00:00:00Z, the first day of week 1 of the 2025 regular season. */
  const SEASON_START_MS: int := 1756944000000
  const MS_PER_DAY: int := 1000 * 60 * 60 * 24
  const LAST_WEEK: int := 18

  datatype SeasonWeek = SeasonWeek(season: int, week: int)

  /** Whole days elapsed since the season start. */
  function DaysSinceStart(nowMs: int): (r: nat)
    requires nowMs >= SEASON_START_MS
    ensures SEASON_START_MS + r * MS_PER_DAY <= nowMs < SEASON_START_MS + (r + 1) * MS_PER_DAY
  {
    (nowMs - SEASON_START_MS) / MS_PER_DAY
  }

  function GetCurrentNFLWeek(nowMs: int): (r: SeasonWeek)
    ensures 1 <= r.week <= LAST_WEEK
    ensures nowMs < SEASON_START_MS ==> r == SeasonWeek(2024, 18)
    ensures nowMs >= SEASON_START_MS ==> r.season == 2025
    ensures nowMs >= SEASON_START_MS && DaysSinceStart(nowMs) < 7 * (LAST_WEEK - 1)
            ==> r.week == DaysSinceStart(nowMs) / 7 + 1
    ensures nowMs >= SEASON_START_MS && DaysSinceStart(nowMs) >= 7 * (LAST_WEEK - 1)
            ==> r.week == LAST_WEEK
  {
    if nowMs < SEASON_START_MS then SeasonWeek(2024, 18)
    else
      var days := (nowMs - SEASON_START_MS) / MS_PER_DAY;
      var week := Min(Max(days / 7 + 1, 1), LAST_WEEK);
      SeasonWeek(2025, week)
  }

  function Min(a: int, b: int): int { if a < b then a else b }
  function Max(a: int, b: int): int { if a > b then a else b }

  /** `(season, week) <= (season', week')` in calendar order. */
  predicate NotLater(a: SeasonWeek, b: SeasonWeek) {
    a.season < b.season || (a.season == b.season && a.week <= b.week)
  }

  /** The resolved period never goes back in time. */
  lemma WeekMonotone(t1: int, t2: int)
    requires t1 <= t2
    ensures NotLater(GetCurrentNFLWeek(t1), GetCurrentNFLWeek(t2))
  {
    if t1 >= SEASON_START_MS {
      assert DaysSinceStart(t1) <= DaysSinceStart(t2);
      assert DaysSinceStart(t1) / 7 <= DaysSinceStart(t2) / 7;
    }
  }

  /** Week `w` (1..18) begins exactly `7 * (w - 1)` days after the season start. */
  lemma WeekBoundary(w: int)
    requires 1 <= w <= LAST_WEEK
    ensures GetCurrentNFLWeek(SEASON_START_MS + 7 * (w - 1) * MS_PER_DAY).week == w
    ensures w > 1 ==> GetCurrentNFLWeek(SEASON_START_MS + 7 * (w - 1) * MS_PER_DAY - 1).week == w - 1
  {
    var t := SEASON_START_MS + 7 * (w - 1) * MS_PER_DAY;
    assert DaysSinceStart(t) == 7 * (w - 1);
    if w > 1 {
      assert (t - 1 - SEASON_START_MS) == (7 * (w - 1) - 1) * MS_PER_DAY + (MS_PER_DAY - 1);
      assert DaysSinceStart(t - 1) == 7 * (w - 1) - 1;
      assert (7 * (w - 1) - 1) / 7 == w - 2;
    }
  }

  /** Days 0 to 6 of the season are week 1. */
  lemma FirstWeek(nowMs: int)
    requires SEASON_START_MS <= nowMs < SEASON_START_MS + 7 * MS_PER_DAY
    ensures GetCurrentNFLWeek(nowMs) == SeasonWeek(2025, 1)
  {
    assert nowMs - SEASON_START_MS < 7 * MS_PER_DAY;
    assert DaysSinceStart(nowMs) < 7;
  }
}
