/**
 * The server-rendered page (src/app/PlayersPage.tsx): it fetches the rows of
 * the read route, shows a placeholder when there are none, and otherwise
 * heads the table with the period of the first row and offers the teams that
 * occur in the rows, each once, in ascending order.
 */
module PlayersPage {
  import opened Options
  import opened Strings
  import opened Seqs
  import opened Sorting
  import opened Sleeper
  import opened PlayersApi
  import opened PlayerTable

  /** `fetchPlayers`: the decoded body of a successful response; no rows when the status is not OK. */
  function Fetched(ok: bool, body: seq<ApiRow>): (r: seq<ApiRow>)
    ensures !ok ==> r == []
    ensures ok ==> r == body
  {
    if ok then body else []
  }

  /** `[...new Set(s)]`: each value once, in the order of its first occurrence. */
  function Dedupe(s: seq<string>): (r: seq<string>)
    ensures forall x :: x in r <==> x in s
    ensures forall i, j :: 0 <= i < j < |r| ==> r[i] != r[j]
  {
    if s == [] then []
    else
      var n := |s| - 1;
      var prev := Dedupe(s[..n]);
      assert s == s[..n] + [s[n]];
      if s[n] in prev then prev else prev + [s[n]]
  }

  /** `x` occurs in `s` before `y` first does. */
  predicate OccursFirst(s: seq<string>, x: string, y: string) {
    exists k :: 0 <= k < |s| && s[k] == x && y !in s[..k + 1]
  }

  /** Of two values `Dedupe` keeps, the earlier one occurs in `s` before the later one first does. */
  lemma {:induction false} DedupeFirstOccurrence(s: seq<string>)
    ensures forall i, j :: 0 <= i < j < |Dedupe(s)| ==> OccursFirst(s, Dedupe(s)[i], Dedupe(s)[j])
  {
    if s != [] {
      var n := |s| - 1;
      var prev := Dedupe(s[..n]);
      var r := Dedupe(s);
      DedupeFirstOccurrence(s[..n]);
      assert r == if s[n] in prev then prev else prev + [s[n]];
      forall i, j | 0 <= i < j < |r| ensures OccursFirst(s, r[i], r[j]) {
        if j < |prev| {
          assert OccursFirst(s[..n], prev[i], prev[j]);
          var k :| 0 <= k < n && s[..n][k] == prev[i] && prev[j] !in s[..n][..k + 1];
          assert s[..n][..k + 1] == s[..k + 1];
          assert 0 <= k < |s| && s[k] == r[i] && r[j] !in s[..k + 1];
        } else {
          assert prev[i] in prev;
          var k :| 0 <= k < n && s[..n][k] == prev[i];
          assert s[..k + 1] == s[..n][..k + 1];
          assert s[n] !in s[..n];
          assert 0 <= k < |s| && s[k] == r[i] && r[j] !in s[..k + 1];
        }
      }
    } else {
      assert Dedupe(s) == [];
    }
  }

  /** The default order of `Array.prototype.sort` on strings, as a non-strict comparison. */
  predicate StrLe(a: string, b: string) {
    !StrLt(b, a)
  }

  /** `StrLe` and `StrLt` never both hold the other way round. */
  lemma StrLtNotBoth(a: string, b: string)
    ensures !(StrLt(a, b) && StrLt(b, a))
  {
    if StrLt(a, b) {
      StrLtAsymmetric(a, b);
    }
  }

  lemma StrLeTotalPreorder()
    ensures TotalPreorder(StrLe)
  {
    forall a, b ensures StrLe(a, b) || StrLe(b, a) {
      StrLtNotBoth(a, b);
    }
    forall a, b, c | StrLe(a, b) && StrLe(b, c) ensures StrLe(a, c) {
      StrLtTotal(a, b);
      StrLtTotal(b, c);
      if StrLt(a, b) && StrLt(b, c) {
        StrLtTransitive(a, b, c);
      }
      StrLtNotBoth(a, c);
    }
  }

  function TeamOf(p: ApiRow): Option<string> {
    p.team
  }

  predicate StrictlyAscending(s: seq<string>) {
    forall i, j :: 0 <= i < j < |s| ==> StrLt(s[i], s[j])
  }

  /**
   * `teams`: the non-null teams of the rows, deduplicated and sorted. Every
   * team of a row is offered, nothing else is, and the list ascends strictly,
   * so no team is offered twice.
   */
  function Teams(players: seq<ApiRow>): (r: seq<string>)
    ensures forall t :: t in r <==> exists i :: 0 <= i < |players| && players[i].team == Some(t)
    ensures StrictlyAscending(r)
  {
    var names := FilterMap(players, TeamOf);
    var distinct := Dedupe(names);
    var r := SortBy(StrLe, distinct);
    StrLeTotalPreorder();
    SortBySorted(StrLe, distinct);
    PermutationKeepsKeysDistinct((x: string) => x, distinct, r);
    forall t ensures t in r <==> exists i :: 0 <= i < |players| && players[i].team == Some(t) {
      assert t in r <==> t in multiset(r);
      assert t in distinct <==> t in multiset(distinct);
      if t in names {
        var k :| 0 <= k < |names| && names[k] == t;
        FilterMapSource(players, TeamOf, k);
      }
      if exists i :: 0 <= i < |players| && players[i].team == Some(t) {
        var i :| 0 <= i < |players| && players[i].team == Some(t);
        FilterMapComplete(players, TeamOf, i);
      }
    }
    forall i, j | 0 <= i < j < |r| ensures StrLt(r[i], r[j]) {
      StrLtTotal(r[i], r[j]);
    }
    r
  }

  /** Past its head, a strictly ascending list holds exactly its other members. */
  lemma AscendingTail(a: seq<string>, x: string)
    requires a != [] && StrictlyAscending(a)
    ensures x in a[1..] <==> x in a && x != a[0]
  {
    StrLtIrreflexive(a[0]);
    if x in a && x != a[0] {
      var i :| 0 <= i < |a| && a[i] == x;
      assert a[1..][i - 1] == x;
    }
  }

  /** A strictly ascending list is fixed by its members. */
  lemma {:induction false} AscendingUnique(a: seq<string>, b: seq<string>)
    requires StrictlyAscending(a) && StrictlyAscending(b)
    requires forall x :: x in a <==> x in b
    ensures a == b
    decreases |a|
  {
    if a == [] {
      HeadIsMember(b);
    } else if b == [] {
      HeadIsMember(a);
    } else {
      assert a[0] in a && b[0] in b;
      var k :| 0 <= k < |b| && b[k] == a[0];
      var m :| 0 <= m < |a| && a[m] == b[0];
      StrLtNotBoth(a[0], b[0]);
      assert a[0] == b[0];
      forall x ensures x in a[1..] <==> x in b[1..] {
        AscendingTail(a, x);
        AscendingTail(b, x);
      }
      AscendingUnique(a[1..], b[1..]);
      assert a == [a[0]] + a[1..] && b == [b[0]] + b[1..];
    }
  }

  /** The team list is the one strictly ascending list of exactly the teams that occur. */
  lemma TeamsCanonical(players: seq<ApiRow>, s: seq<string>)
    requires StrictlyAscending(s)
    requires forall t :: t in s <==> exists i :: 0 <= i < |players| && players[i].team == Some(t)
    ensures s == Teams(players)
  {
    AscendingUnique(s, Teams(players));
  }

  /** Choosing any offered team in the table leaves at least one row on screen. */
  lemma TeamOptionsSelectRows(players: seq<ApiRow>, t: string)
    requires t in Teams(players)
    ensures Filtered(players, "ALL", t) != []
  {
    var i :| 0 <= i < |players| && players[i].team == Some(t);
    assert Shows("ALL", t, players[i]);
  }

  /** What the page renders. */
  datatype View =
    | NoData
    | Table(season: int, week: int, teams: seq<string>, players: seq<ApiRow>)

  /** `PlayersPage` once the rows are in: the placeholder for no rows, otherwise the table. */
  function Page(players: seq<ApiRow>): (v: View)
    ensures v.NoData? <==> players == []
    ensures v.Table? ==> v.players == players && v.teams == Teams(players)
    ensures v.Table? ==> v.season == players[0].season && v.week == players[0].week
  {
    if |players| == 0 then NoData
    else Table(players[0].season, players[0].week, Teams(players), players)
  }

  /** `PlayersPage`: the page for the outcome of `fetchPlayers`; a failed request shows the placeholder. */
  function Render(ok: bool, body: seq<ApiRow>): (v: View)
    ensures !ok || body == [] ==> v.NoData?
    ensures v.Table? ==> v.players == body
  {
    Page(Fetched(ok, body))
  }

  /**
   * The page over the read route's unfiltered response: the placeholder while
   * no snapshot is recorded, and otherwise a heading that names the latest
   * recorded period.
   */
  lemma PageOfResponse(players: seq<PlayerRecord>, snaps: seq<SnapshotRecord>)
    ensures snaps == [] ==> Page(Response(players, snaps, None, None)).NoData?
    ensures Page(Response(players, snaps, None, None)).Table? ==>
              LatestPeriod(snaps) == Some(SeasonWeek(Page(Response(players, snaps, None, None)).season,
                                                     Page(Response(players, snaps, None, None)).week))
  {
    var rows := Response(players, snaps, None, None);
    if rows != [] {
      assert rows[0] in rows;
    }
  }
}
