/**
 * The schema bootstrap (src/scripts/init-db.ts): the schema file is cut at
 * every `;`, each piece is trimmed, empty pieces are dropped, and the rest
 * are executed one after another. Reading the file and the database client
 * are outside the model: the text is a parameter and execution is recorded
 * as the list of statements sent, in order.
 */
module InitDb {
  import opened Seqs
  import opened Strings

  /** `filter(Boolean)` on strings: only the empty string is falsy. */
  predicate NonEmpty(s: string) {
    s != []
  }

  /** `sql.split(';').map(s => s.trim()).filter(Boolean)`: the non-blank pieces, trimmed. */
  function Statements(sql: string): (r: seq<string>)
    ensures |r| <= |Split(sql, ';')|
    ensures forall s :: s in r ==> Clean(s)
  {
    TrimmedPieces(Split(sql, ';'));
    Filter(MapSeq(Split(sql, ';'), Trim), NonEmpty)
  }

  /** `s` is the trimmed form of a piece that is not blank. */
  ghost predicate FromPiece(pieces: seq<string>, s: string) {
    exists i :: 0 <= i < |pieces| && !AllSpace(pieces[i]) && s == Trim(pieces[i])
  }

  /** A statement as the database receives it: not empty, no separator, no white space at either end. */
  predicate Clean(s: string) {
    s != [] && ';' !in s && !IsSpace(s[0]) && !IsSpace(s[|s| - 1])
  }

  /**
   * The statements are exactly the trimmed pieces between separators that are
   * not blank; none is empty, holds a `;`, or begins or ends with white space.
   */
  lemma StatementsWellFormed(sql: string)
    ensures forall s :: s in Statements(sql) <==> FromPiece(Split(sql, ';'), s)
    ensures forall s :: s in Statements(sql) ==> Clean(s)
  {
    var pieces := Split(sql, ';');
    TrimmedPieces(pieces);
    assert Statements(sql) == Filter(MapSeq(pieces, Trim), NonEmpty);
  }

  /** What is left of separator-free pieces once trimmed and stripped of empty ones. */
  lemma TrimmedPieces(pieces: seq<string>)
    requires forall i :: 0 <= i < |pieces| ==> ';' !in pieces[i]
    ensures forall s :: s in Filter(MapSeq(pieces, Trim), NonEmpty) <==> FromPiece(pieces, s)
    ensures forall s :: s in Filter(MapSeq(pieces, Trim), NonEmpty) ==> Clean(s)
  {
    var trimmed := MapSeq(pieces, Trim);
    var r := Filter(trimmed, NonEmpty);
    forall s | s in r ensures FromPiece(pieces, s) && Clean(s) {
      assert s in trimmed && NonEmpty(s);
      var i :| 0 <= i < |trimmed| && trimmed[i] == s;
      TrimmedPieceClean(pieces[i]);
    }
    forall s | FromPiece(pieces, s) ensures s in r {
      var i :| 0 <= i < |pieces| && !AllSpace(pieces[i]) && s == Trim(pieces[i]);
      assert trimmed[i] == s && NonEmpty(trimmed[i]);
    }
  }

  /** A separator-free piece that is not blank trims to a clean statement. */
  lemma TrimmedPieceClean(piece: string)
    requires ';' !in piece
    ensures Trim(piece) != [] ==> Clean(Trim(piece)) && !AllSpace(piece)
  {
    assert multiset(piece)[';'] == 0;
  }

  /** The statements come in the order they are written in the file. */
  lemma StatementsInOrder(sql: string)
    ensures exists idx :: SubsequenceAt(MapSeq(Split(sql, ';'), Trim), Statements(sql), idx)
  {
    var trimmed := MapSeq(Split(sql, ';'), Trim);
    FilterInOrder(trimmed, NonEmpty);
    var idx :| SubsequenceAt(trimmed, Filter(trimmed, NonEmpty), idx);
    assert Statements(sql) == Filter(trimmed, NonEmpty);
    assert SubsequenceAt(trimmed, Statements(sql), idx);
  }

  /**
   * A file written as trimmed, non-empty, `;`-free statements separated by
   * `;` yields exactly those statements.
   */
  lemma StatementsOfJoined(stmts: seq<string>)
    requires |stmts| >= 1
    requires forall i :: 0 <= i < |stmts| ==> stmts[i] != [] && ';' !in stmts[i]
    requires forall i :: 0 <= i < |stmts| ==> !IsSpace(stmts[i][0]) && !IsSpace(stmts[i][|stmts[i]| - 1])
    ensures Statements(Join(stmts, ';')) == stmts
  {
    var sql := Join(stmts, ';');
    SplitJoin(stmts, ';');
    var trimmed := MapSeq(stmts, Trim);
    forall i | 0 <= i < |stmts| ensures trimmed[i] == stmts[i] {
      TrimKeepsTrimmed(stmts[i]);
    }
    assert trimmed == stmts;
    assert forall i :: 0 <= i < |trimmed| ==> NonEmpty(trimmed[i]);
    assert Filter(trimmed, NonEmpty) == stmts;
    assert MapSeq(Split(sql, ';'), Trim) == trimmed;
  }

  /** A file of white space and separators only yields no statement. */
  lemma StatementsOfBlank(sql: string)
    requires forall i :: 0 <= i < |sql| ==> sql[i] == ';' || IsSpace(sql[i])
    ensures Statements(sql) == []
  {
    var pieces := Split(sql, ';');
    JoinSplit(sql, ';');
    forall i | 0 <= i < |pieces| ensures AllSpace(pieces[i]) {
      JoinedPieceBlank(pieces, i, sql);
    }
    StatementsWellFormed(sql);
    HeadIsMember(Statements(sql));
  }

  /** A piece of a join of blank text is blank. */
  lemma {:induction false} JoinedPieceBlank(pieces: seq<string>, i: nat, sql: string)
    requires |pieces| >= 1 && i < |pieces|
    requires Join(pieces, ';') == sql
    requires forall k :: 0 <= k < |sql| ==> sql[k] == ';' || IsSpace(sql[k])
    requires forall k :: 0 <= k < |pieces| ==> ';' !in pieces[k]
    ensures AllSpace(pieces[i])
    decreases |pieces|
  {
    var p := pieces[0];
    if |pieces| > 1 {
      assert sql == p + [';'] + Join(pieces[1..], ';');
    }
    forall k | 0 <= k < |p| ensures IsSpace(p[k]) {
      assert sql[k] == p[k];
      assert p[k] in p;
    }
    if i > 0 {
      var rest := Join(pieces[1..], ';');
      forall k | 0 <= k < |rest| ensures rest[k] == ';' || IsSpace(rest[k]) {
        assert rest[k] == sql[|p| + 1 + k];
      }
      JoinedPieceBlank(pieces[1..], i - 1, rest);
    }
  }

  /** The script: split the schema text and run every statement; the result is the list sent to the database. */
  method InitDatabase(sql: string) returns (executed: seq<string>)
    ensures executed == Statements(sql)
  {
    executed := ExecuteAll(Statements(sql));
  }

  /** The loop that sends each statement to the database in turn. */
  method ExecuteAll(statements: seq<string>) returns (executed: seq<string>)
    ensures executed == statements
  {
    executed := [];
    for i := 0 to |statements|
      invariant executed == statements[..i]
    {
      assert statements[..i + 1] == statements[..i] + [statements[i]];
      executed := executed + [statements[i]];
    }
    assert statements[..|statements|] == statements;
  }
}
