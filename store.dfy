/**
 * The two tables the pipeline writes, `players` (keyed by player id) and
 * `snapshots` (keyed by player id, season and week), and the two kinds of
 * statement it issues against them:
 *   - a player upsert (`ON CONFLICT(player_id) DO UPDATE`): the last write wins;
 *   - a snapshot insert (`ON CONFLICT(player_id, week, season) DO NOTHING`):
 *     the first write wins and a recorded week is never changed.
 * The database client is replaced by the class `Db`, whose batch methods apply
 * statements one after another.
 */
module Store {
  import opened Options

  datatype PlayerRow = PlayerRow(name: string, position: string, team: Option<string>)

  datatype SnapshotKey = SnapshotKey(playerId: string, season: int, week: int)

  datatype SnapshotRow = SnapshotRow(rank: int, projectedPts: Option<int>)

  /** `INSERT INTO players (player_id, name, position, team) ... ON CONFLICT(player_id) DO UPDATE`. */
  datatype PlayerUpsert = PlayerUpsert(playerId: string, name: string, position: string, team: Option<string>) {
    function Row(): PlayerRow { PlayerRow(name, position, team) }
  }

  /** `INSERT INTO snapshots (player_id, week, season, rank, projected_pts) ... DO NOTHING`. */
  datatype SnapshotInsert = SnapshotInsert(playerId: string, week: int, season: int, rank: int, projectedPts: Option<int>) {
    function Key(): SnapshotKey { SnapshotKey(playerId, season, week) }
    function Row(): SnapshotRow { SnapshotRow(rank, projectedPts) }
  }

  type Players = map<string, PlayerRow>
  type Snapshots = map<SnapshotKey, SnapshotRow>

  /** The player ids a batch of upserts writes. */
  function UpsertIds(stmts: seq<PlayerUpsert>): set<string> {
    set i | 0 <= i < |stmts| :: stmts[i].playerId
  }

  /** The ids of two batches run one after the other. */
  lemma UpsertIdsAppend(a: seq<PlayerUpsert>, b: seq<PlayerUpsert>)
    ensures UpsertIds(a + b) == UpsertIds(a) + UpsertIds(b)
  {
    forall x | x in UpsertIds(a + b) ensures x in UpsertIds(a) + UpsertIds(b) {
      var i :| 0 <= i < |a + b| && (a + b)[i].playerId == x;
      if i >= |a| {
        assert b[i - |a|].playerId == x;
      }
    }
    forall x | x in UpsertIds(a) ensures x in UpsertIds(a + b) {
      var i :| 0 <= i < |a| && a[i].playerId == x;
      assert (a + b)[i].playerId == x;
    }
    forall x | x in UpsertIds(b) ensures x in UpsertIds(a + b) {
      var i :| 0 <= i < |b| && b[i].playerId == x;
      assert (a + b)[|a| + i].playerId == x;
    }
  }

  /** The snapshot keys a batch of inserts names. */
  function InsertKeys(stmts: seq<SnapshotInsert>): set<SnapshotKey> {
    set i | 0 <= i < |stmts| :: stmts[i].Key()
  }

  /** The `players` table after the upserts, in order. */
  function ApplyUpserts(m: Players, stmts: seq<PlayerUpsert>): (r: Players)
    ensures r.Keys == m.Keys + UpsertIds(stmts)
    ensures forall id :: id in m && (forall i :: 0 <= i < |stmts| ==> stmts[i].playerId != id)
                         ==> r[id] == m[id]
  {
    if stmts == [] then m
    else
      var prefix := stmts[..|stmts| - 1];
      var last := stmts[|stmts| - 1];
      var prev := ApplyUpserts(m, prefix);
      assert UpsertIds(stmts) == UpsertIds(prefix) + {last.playerId} by {
        forall id | id in UpsertIds(stmts) ensures id in UpsertIds(prefix) + {last.playerId} {
          var i :| 0 <= i < |stmts| && stmts[i].playerId == id;
          if i < |prefix| { assert prefix[i] == stmts[i]; }
        }
      }
      prev[last.playerId := last.Row()]
  }

  /** The `snapshots` table after the inserts, in order. */
  function ApplyInserts(m: Snapshots, stmts: seq<SnapshotInsert>): (r: Snapshots)
    ensures r.Keys == m.Keys + InsertKeys(stmts)
  {
    if stmts == [] then m
    else
      var prefix := stmts[..|stmts| - 1];
      var last := stmts[|stmts| - 1];
      var prev := ApplyInserts(m, prefix);
      assert InsertKeys(stmts) == InsertKeys(prefix) + {last.Key()} by {
        forall key | key in InsertKeys(stmts) ensures key in InsertKeys(prefix) + {last.Key()} {
          var i :| 0 <= i < |stmts| && stmts[i].Key() == key;
          if i < |prefix| { assert prefix[i] == stmts[i]; }
        }
      }
      if last.Key() in prev then prev else prev[last.Key() := last.Row()]
  }

  /** Last write wins: a player's row is the one its final upsert wrote. */
  lemma {:induction false} UpsertLastWriteWins(m: Players, stmts: seq<PlayerUpsert>, i: nat)
    requires i < |stmts|
    requires forall j :: i < j < |stmts| ==> stmts[j].playerId != stmts[i].playerId
    ensures ApplyUpserts(m, stmts)[stmts[i].playerId] == stmts[i].Row()
  {
    if i < |stmts| - 1 {
      var prefix := stmts[..|stmts| - 1];
      assert prefix[i] == stmts[i];
      UpsertLastWriteWins(m, prefix, i);
    }
  }

  /** The last upsert in `stmts` that writes player `id`. */
  function LastWrite(stmts: seq<PlayerUpsert>, id: string): (t: nat)
    requires id in UpsertIds(stmts)
    ensures t < |stmts| && stmts[t].playerId == id
    ensures forall j :: t < j < |stmts| ==> stmts[j].playerId != id
  {
    var n := |stmts| - 1;
    if stmts[n].playerId == id then n
    else
      assert id in UpsertIds(stmts[..n]) by {
        var i :| 0 <= i < |stmts| && stmts[i].playerId == id;
        assert stmts[..n][i] == stmts[i];
      }
      LastWrite(stmts[..n], id)
  }

  /** Replaying the same upserts a second time changes nothing. */
  lemma UpsertIdempotent(m: Players, stmts: seq<PlayerUpsert>)
    ensures ApplyUpserts(ApplyUpserts(m, stmts), stmts) == ApplyUpserts(m, stmts)
  {
    var r := ApplyUpserts(m, stmts);
    var rr := ApplyUpserts(r, stmts);
    forall id | id in rr ensures rr[id] == r[id] {
      if id in UpsertIds(stmts) {
        var t := LastWrite(stmts, id);
        UpsertLastWriteWins(m, stmts, t);
        UpsertLastWriteWins(r, stmts, t);
      }
    }
  }

  /** Insert-if-absent never changes a snapshot that is already recorded. */
  lemma {:induction false} InsertKeepsRecorded(m: Snapshots, stmts: seq<SnapshotInsert>, key: SnapshotKey)
    requires key in m
    ensures ApplyInserts(m, stmts)[key] == m[key]
  {
    if stmts != [] {
      InsertKeepsRecorded(m, stmts[..|stmts| - 1], key);
    }
  }

  /** First write wins: a new snapshot is the one its first insert wrote. */
  lemma {:induction false} InsertFirstWriteWins(m: Snapshots, stmts: seq<SnapshotInsert>, i: nat)
    requires i < |stmts| && stmts[i].Key() !in m
    requires forall j :: 0 <= j < i ==> stmts[j].Key() != stmts[i].Key()
    ensures ApplyInserts(m, stmts)[stmts[i].Key()] == stmts[i].Row()
  {
    var prefix := stmts[..|stmts| - 1];
    if i < |stmts| - 1 {
      assert prefix[i] == stmts[i];
      InsertFirstWriteWins(m, prefix, i);
    } else {
      assert stmts[i].Key() !in ApplyInserts(m, prefix) by {
        forall j | 0 <= j < |prefix| ensures prefix[j].Key() != stmts[i].Key() {
          assert prefix[j] == stmts[j];
        }
      }
    }
  }

  /** Inserts whose keys are all recorded already change nothing. */
  lemma {:induction false} InsertRecordedIsNoOp(m: Snapshots, stmts: seq<SnapshotInsert>)
    requires forall i :: 0 <= i < |stmts| ==> stmts[i].Key() in m
    ensures ApplyInserts(m, stmts) == m
  {
    if stmts != [] {
      InsertRecordedIsNoOp(m, stmts[..|stmts| - 1]);
    }
  }

  /** Replaying the same inserts a second time adds and changes nothing. */
  lemma InsertIdempotent(m: Snapshots, stmts: seq<SnapshotInsert>)
    ensures ApplyInserts(ApplyInserts(m, stmts), stmts) == ApplyInserts(m, stmts)
  {
    InsertRecordedIsNoOp(ApplyInserts(m, stmts), stmts);
  }

  /** Inserting snapshots of stored players keeps every snapshot attached to a stored player. */
  lemma InsertsKeepIntegrity(players: Players, m: Snapshots, stmts: seq<SnapshotInsert>)
    requires forall key :: key in m ==> key.playerId in players
    requires forall i :: 0 <= i < |stmts| ==> stmts[i].playerId in players
    ensures forall key :: key in ApplyInserts(m, stmts) ==> key.playerId in players
  {
    forall key | key in ApplyInserts(m, stmts) ensures key.playerId in players {
      if key !in m {
        var i :| 0 <= i < |stmts| && stmts[i].Key() == key;
      }
    }
  }

  /** The database: the two tables, changed only through statement batches. */
  class Db {
    var players: Players
    var snapshots: Snapshots

    /** Referential integrity: every snapshot names a stored player. */
    ghost predicate Valid()
      reads this
    {
      forall key :: key in snapshots ==> key.playerId in players
    }

    constructor ()
      ensures players == map[] && snapshots == map[]
      ensures Valid()
    {
      players := map[];
      snapshots := map[];
    }

    /** `db.batch(playerStatements)`: each upsert in turn. */
    method BatchUpsertPlayers(stmts: seq<PlayerUpsert>)
      modifies this
      ensures players == ApplyUpserts(old(players), stmts)
      ensures snapshots == old(snapshots)
      ensures old(Valid()) ==> Valid()
    {
      var i := 0;
      while i < |stmts|
        invariant 0 <= i <= |stmts|
        invariant players == ApplyUpserts(old(players), stmts[..i])
        invariant snapshots == old(snapshots)
        invariant old(players).Keys <= players.Keys
      {
        assert stmts[..i + 1][..i] == stmts[..i];
        players := players[stmts[i].playerId := stmts[i].Row()];
        i := i + 1;
      }
      assert stmts[..i] == stmts;
    }

    /** `db.batch(snapshotStatements)`: each insert-if-absent in turn. */
    method BatchInsertSnapshots(stmts: seq<SnapshotInsert>)
      modifies this
      ensures snapshots == ApplyInserts(old(snapshots), stmts)
      ensures players == old(players)
      ensures old(Valid()) && (forall i :: 0 <= i < |stmts| ==> stmts[i].playerId in players) ==> Valid()
    {
      var i := 0;
      while i < |stmts|
        invariant 0 <= i <= |stmts|
        invariant snapshots == ApplyInserts(old(snapshots), stmts[..i])
        invariant players == old(players)
      {
        assert stmts[..i + 1][..i] == stmts[..i];
        var key := stmts[i].Key();
        if key !in snapshots {
          snapshots := snapshots[key := stmts[i].Row()];
        }
        i := i + 1;
      }
      assert stmts[..i] == stmts;
      if old(Valid()) && (forall i :: 0 <= i < |stmts| ==> stmts[i].playerId in players) {
        InsertsKeepIntegrity(players, old(snapshots), stmts);
      }
    }

    /** `DELETE FROM snapshots`. */
    method DeleteAllSnapshots()
      modifies this
      ensures snapshots == map[] && players == old(players)
      ensures Valid()
    {
      snapshots := map[];
    }

    /** `DELETE FROM players`. */
    method DeleteAllPlayers()
      modifies this
      ensures players == map[] && snapshots == old(snapshots)
      ensures old(snapshots) == map[] ==> Valid()
    {
      players := map[];
    }
  }
}
