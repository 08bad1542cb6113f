// The SQL job controller: it splits the job's SQL text after every ';',
// records one result per statement after the results already there, runs
// every recorded statement in order on a MySQL or MariaDB instance, and
// stops at the first statement that fails.

module JobSql {
  import opened Common
  import opened Models

  datatype SQLExecStatus = NotExec | Success | ExecFailed

  /** The record kept for one statement. */
  datatype SQLExecResult = SQLExecResult(sql: string, status: SQLExecStatus, elapsedTime: int, rowsAffected: int)

  datatype DBType = MySQL | MariaDB | OtherDB(raw: string)

  datatype DBInstance = DBInstance(id: string, dbType: DBType, host: string, port: string, username: string, password: string)

  /**
   * What the database answers to one statement: an execution error, or the
   * milliseconds it took together with its affected-rows count, which may
   * itself be an error.
   */
  datatype ExecOutcome = ExecError(msg: string) | Executed(elapsed: int, rows: Result<int>)

  /**
   * The database as an oracle: its answer to the statement recorded at a
   * given position of the results (earlier statements may change it).
   */
  type Database = (nat, string) -> ExecOutcome

  // ---------------------------------------------------------------------
  // strings.SplitAfter(sql, ";")

  /**
   * The pieces of `s` cut after every ';': each piece but the last ends with
   * its ';', and the text after the last ';' (possibly empty) is the last.
   */
  function SplitAfter(s: string): (r: seq<string>)
    ensures |r| >= 1
  {
    if |s| == 0 then [""]
    else
      var rest := SplitAfter(s[1..]);
      if s[0] == ';' then [";"] + rest else [[s[0]] + rest[0]] + rest[1..]
  }

  function Concat(pieces: seq<string>): string
  {
    if |pieces| == 0 then "" else pieces[0] + Concat(pieces[1..])
  }

  function CountChar(s: string, c: char): nat
  {
    if |s| == 0 then 0 else (if s[0] == c then 1 else 0) + CountChar(s[1..], c)
  }

  /** A piece cut after a ';': it ends with its only ';'. */
  predicate EndsAtSemicolon(p: string)
  {
    |p| > 0 && p[|p| - 1] == ';' && ';' !in p[..|p| - 1]
  }

  /** Every piece but the last ends with its only ';', and the last has none. */
  predicate CutAfterSemicolons(r: seq<string>)
  {
    |r| >= 1
    && (forall i :: 0 <= i < |r| - 1 ==> EndsAtSemicolon(r[i]))
    && ';' !in r[|r| - 1]
  }

  /** Unfolding SplitAfter once, on a text that starts with a ';' or with another character. */
  lemma SplitAfterCons(c: char, s: string)
    ensures SplitAfter([c] + s)
         == if c == ';' then [";"] + SplitAfter(s) else [[c] + SplitAfter(s)[0]] + SplitAfter(s)[1..]
  {
    assert ([c] + s)[1..] == s;
  }

  /** The pieces put back together give the text. */
  lemma {:induction false} SplitAfterJoins(s: string)
    ensures Concat(SplitAfter(s)) == s
    decreases |s|
  {
    if |s| > 0 {
      var rest := SplitAfter(s[1..]);
      SplitAfterJoins(s[1..]);
      if s[0] == ';' {
        assert SplitAfter(s)[1..] == rest;
      } else {
        var r := SplitAfter(s);
        assert r[1..] == rest[1..];
        assert Concat(rest) == rest[0] + Concat(rest[1..]);
        assert Concat(r) == ([s[0]] + rest[0]) + Concat(rest[1..]);
        assert s == [s[0]] + s[1..];
      }
    }
  }

  /** There is one more piece than there are ';'. */
  lemma {:induction false} SplitAfterCount(s: string)
    ensures |SplitAfter(s)| == CountChar(s, ';') + 1
    decreases |s|
  {
    if |s| > 0 {
      SplitAfterCount(s[1..]);
    }
  }

  /** The pieces are cut exactly after each ';'. */
  lemma {:induction false} SplitAfterCuts(s: string)
    ensures CutAfterSemicolons(SplitAfter(s))
    decreases |s|
  {
    if |s| > 0 {
      var rest := SplitAfter(s[1..]);
      SplitAfterCuts(s[1..]);
      var r := SplitAfter(s);
      if s[0] == ';' {
        assert r == [";"] + rest;
        assert EndsAtSemicolon(";") by { assert ";"[..0] == []; }
        assert forall i :: 1 <= i < |r| ==> r[i] == rest[i - 1];
      } else {
        assert r == [[s[0]] + rest[0]] + rest[1..];
        if |rest| > 1 {
          assert EndsAtSemicolon(rest[0]);
          assert r[0][..|r[0]| - 1] == [s[0]] + rest[0][..|rest[0]| - 1];
        }
        assert forall i :: 1 <= i < |r| ==> r[i] == rest[i];
      }
    }
  }

  // ---------------------------------------------------------------------
  // Recording the statements

  /** The result recorded for a piece: none for an empty piece, otherwise its trimmed text, not yet run. */
  function StatementOf(piece: string): Option<SQLExecResult>
  {
    if piece == "" then None else Some(SQLExecResult(TrimSpace(piece), NotExec, 0, 0))
  }

  /** The results recorded for the SQL text, in order. */
  function Statements(sql: string): seq<SQLExecResult>
  {
    FilterMap(SplitAfter(sql), StatementOf)
  }

  /**
   * Each recorded statement is the trimmed text of a non-empty piece, in the
   * pieces' order, and not yet run; every non-empty piece is recorded, even
   * one that trims to nothing.
   */
  lemma StatementsRecorded(sql: string)
    ensures var pieces := SplitAfter(sql);
      var kept := KeptIndices(pieces, StatementOf);
      |Statements(sql)| == |kept|
      && (forall k :: 0 <= k < |kept| ==>
            kept[k] < |pieces| && pieces[kept[k]] != ""
            && Statements(sql)[k] == SQLExecResult(TrimSpace(pieces[kept[k]]), NotExec, 0, 0))
      && (forall k, l :: 0 <= k < l < |kept| ==> kept[k] < kept[l])
      && (forall i :: 0 <= i < |pieces| && pieces[i] != "" ==> i in kept)
  {
    FilterMapKeeps(SplitAfter(sql), StatementOf);
  }

  /** A text without leading or trailing white space trims to itself. */
  lemma TrimSpaceKeeps(s: string)
    requires |s| > 0 && !IsSpace(s[0]) && !IsSpace(s[|s| - 1])
    ensures TrimSpace(s) == s
  {
  }

  lemma SplitAfterTrailingSemicolon()
    ensures SplitAfter("a;") == ["a;", ""]
  {
    SplitAfterCons(';', "");
    assert [';'] + "" == ";";
    assert SplitAfter(";") == [";", ""];
    SplitAfterCons('a', ";");
    assert ['a'] + ";" == "a;";
  }

  lemma SplitAfterBlankTail()
    ensures SplitAfter("a; ") == ["a;", " "]
  {
    SplitAfterCons(' ', "");
    assert [' '] + "" == " ";
    assert SplitAfter(" ") == [" "];
    SplitAfterCons(';', " ");
    assert [';'] + " " == "; ";
    assert SplitAfter("; ") == [";", " "];
    SplitAfterCons('a', "; ");
    assert ['a'] + "; " == "a; ";
    assert ['a'] + ";" == "a;";
  }

  /** The statements recorded for two pieces, the second of them empty or not. */
  lemma FilterMapTwo(p: string, q: string)
    ensures FilterMap([p, q], StatementOf)
         == FilterMap([p], StatementOf) + (match StatementOf(q) case None => [] case Some(u) => [u])
  {
    assert [p, q][..1] == [p];
  }

  /** A non-empty piece is recorded, an empty piece after it is not. */
  lemma StatementsOfPieceAndEmpty(p: string)
    requires p != ""
    ensures FilterMap([p, ""], StatementOf) == [SQLExecResult(TrimSpace(p), NotExec, 0, 0)]
  {
    assert FilterMap([p], StatementOf) == [SQLExecResult(TrimSpace(p), NotExec, 0, 0)] by {
      assert [p][..0] == [];
    }
    FilterMapTwo(p, "");
  }

  /** Two non-empty pieces are both recorded. */
  lemma StatementsOfPieces(p: string, q: string)
    requires p != "" && q != ""
    ensures FilterMap([p, q], StatementOf)
         == [SQLExecResult(TrimSpace(p), NotExec, 0, 0), SQLExecResult(TrimSpace(q), NotExec, 0, 0)]
  {
    assert FilterMap([p], StatementOf) == [SQLExecResult(TrimSpace(p), NotExec, 0, 0)] by {
      assert [p][..0] == [];
    }
    FilterMapTwo(p, q);
  }

  /** A trailing ';' leaves an empty last piece, which is skipped. */
  lemma StatementsSkipEmptyPiece()
    ensures Statements("a;") == [SQLExecResult("a;", NotExec, 0, 0)]
  {
    SplitAfterTrailingSemicolon();
    StatementsOfPieceAndEmpty("a;");
    TrimSpaceKeeps("a;");
  }

  /** A blank piece after the last ';' is kept, as the empty statement. */
  lemma StatementsKeepBlankPiece()
    ensures Statements("a; ") == [SQLExecResult("a;", NotExec, 0, 0), SQLExecResult("", NotExec, 0, 0)]
  {
    SplitAfterBlankTail();
    StatementsOfPieces("a;", " ");
    TrimSpaceKeeps("a;");
    assert TrimSpaceLeft(" ") == "";
  }

  // ---------------------------------------------------------------------
  // Running the statements

  /** An answer that ends the run: an execution error or an affected-rows error. */
  predicate Fails(o: ExecOutcome)
  {
    o.ExecError? || o.rows.Err?
  }

  /** The position of the first statement, from `from` on, whose run fails; |rs| if none does. */
  function FirstFailure(rs: seq<SQLExecResult>, db: Database, from: nat): (k: nat)
    requires from <= |rs|
    ensures from <= k <= |rs|
    ensures forall i :: from <= i < k ==> !Fails(db(i, rs[i].sql))
    ensures k < |rs| ==> Fails(db(k, rs[k].sql))
    decreases |rs| - from
  {
    if from == |rs| || Fails(db(from, rs[from].sql)) then from else FirstFailure(rs, db, from + 1)
  }

  /** A result once its statement has run. */
  function Ran(r: SQLExecResult, o: ExecOutcome): SQLExecResult
  {
    match o
    case ExecError(_) => r.(status := ExecFailed)
    case Executed(elapsed, rows) =>
      r.(status := Success, elapsedTime := elapsed,
         rowsAffected := if rows.Ok? then rows.value else r.rowsAffected)
  }

  const ExecErrorPrefix := "exec SQL \""
  const ExecErrorMiddle := "\" error: "
  const RowsErrorPrefix := "get affect rows error: "
  const ConnectErrorPrefix := "connect db error: "

  /** The error a failing answer ends the run with. */
  function FailureMessage(r: SQLExecResult, o: ExecOutcome): string
    requires Fails(o)
  {
    if o.ExecError? then ExecErrorPrefix + r.sql + ExecErrorMiddle + o.msg
    else RowsErrorPrefix + o.rows.msg
  }

  /** The results after a run, and the error that ended it, if any. */
  datatype ExecRun = ExecRun(results: seq<SQLExecResult>, err: Option<string>)

  /** Run the statements in order up to and including the first failing one. */
  function RunStatements(rs: seq<SQLExecResult>, db: Database): ExecRun
  {
    var k := FirstFailure(rs, db, 0);
    ExecRun(
      seq(|rs|, i requires 0 <= i < |rs| => if i <= k then Ran(rs[i], db(i, rs[i].sql)) else rs[i]),
      if k == |rs| then None else Some(FailureMessage(rs[k], db(k, rs[k].sql))))
  }

  /**
   * ExecMySQLStatement: a connection failure ends it at once; otherwise the
   * job's statements are recorded after the existing results and all of
   * them are run.
   */
  function ExecStatements(results: seq<SQLExecResult>, sql: string, connect: Option<string>, db: Database): ExecRun
  {
    if connect.Some? then ExecRun(results, Some(ConnectErrorPrefix + connect.value))
    else RunStatements(results + Statements(sql), db)
  }

  /**
   * A run succeeds exactly when no statement fails, and then every statement
   * has run successfully; the statements' texts never change.
   */
  lemma RunStatementsSucceeds(rs: seq<SQLExecResult>, db: Database)
    ensures var o := RunStatements(rs, db);
      |o.results| == |rs|
      && (forall i :: 0 <= i < |rs| ==> o.results[i].sql == rs[i].sql)
      && (o.err.None? <==> forall i :: 0 <= i < |rs| ==> !Fails(db(i, rs[i].sql)))
      && (o.err.None? ==> forall i :: 0 <= i < |rs| ==> o.results[i].status == Success)
  {
    var k := FirstFailure(rs, db, 0);
    if k < |rs| {
      assert Fails(db(k, rs[k].sql));
    }
  }

  /**
   * A failing run stops at the first failing statement: the ones before it
   * succeeded, it is ExecFailed exactly when its execution errored (a rows
   * error leaves it Success), and the ones after it are untouched.
   */
  lemma RunStatementsStops(rs: seq<SQLExecResult>, db: Database, k: nat)
    requires k < |rs| && Fails(db(k, rs[k].sql))
    requires forall i :: 0 <= i < k ==> !Fails(db(i, rs[i].sql))
    ensures var o := RunStatements(rs, db);
      o.err == Some(FailureMessage(rs[k], db(k, rs[k].sql)))
      && (forall i :: 0 <= i < k ==> o.results[i].status == Success)
      && (o.results[k].status == ExecFailed <==> db(k, rs[k].sql).ExecError?)
      && (forall i :: k < i < |rs| ==> o.results[i] == rs[i])
  {
    FirstFailureAt(rs, db, k);
  }

  /** The first failure is any position that fails after only successes. */
  lemma FirstFailureAt(rs: seq<SQLExecResult>, db: Database, k: nat)
    requires k <= |rs| && (k == |rs| || Fails(db(k, rs[k].sql)))
    requires forall i :: 0 <= i < k ==> !Fails(db(i, rs[i].sql))
    ensures FirstFailure(rs, db, 0) == k
  {
  }

  /**
   * Executing keeps the existing results in front, with their statements,
   * and the job's own statements, when they are reached at all, after them.
   */
  lemma ExecStatementsKeepsOrder(results: seq<SQLExecResult>, sql: string, connect: Option<string>, db: Database)
    ensures var o := ExecStatements(results, sql, connect, db);
      (connect.Some? ==> o.results == results && o.err.Some?)
      && (connect.None? ==>
            |o.results| == |results| + |Statements(sql)|
            && (forall i :: 0 <= i < |results| ==> o.results[i].sql == results[i].sql)
            && (forall i :: 0 <= i < |Statements(sql)| ==>
                  o.results[|results| + i].sql == Statements(sql)[i].sql))
  {
    if connect.None? {
      RunStatementsSucceeds(results + Statements(sql), db);
    }
  }

  // ---------------------------------------------------------------------
  // The controller

  /** The job-information record saved once the job is over. */
  datatype JobInfo = JobInfo(
    jobType: JobType,
    workflowName: string,
    taskID: int,
    startTime: int,
    endTime: int,
    duration: int,
    status: Status)

  /** A database type the controller can run statements on. */
  predicate IsMySQLFamily(t: DBType)
  {
    t == MySQL || t == MariaDB
  }

  const InvalidDBType := "invalid db type"

  /** The state of the SQL job task and its controller. */
  class SQLJobCtl {
    var jobType: JobType
    var status: Status
    var error: string
    var startTime: int
    var endTime: int
    /** The job's SQL text. */
    var sql: string
    var results: seq<SQLExecResult>
    /** The status the job had at each acknowledgement, in order. */
    var acks: seq<Status>

    constructor(jobType: JobType, sql: string, results: seq<SQLExecResult>)
      ensures this.jobType == jobType && this.sql == sql && this.results == results
      ensures status == NotRun && error == "" && acks == []
    {
      this.jobType := jobType;
      this.sql := sql;
      this.results := results;
      status := NotRun;
      error := "";
      startTime := 0;
      endTime := 0;
      acks := [];
    }

    /** The job fails with the message (the shared error logger). */
    method LogError(msg: string)
      modifies this
      ensures status == Failed && error == msg
      ensures results == old(results) && acks == old(acks) && sql == old(sql)
    {
      status := Failed;
      error := msg;
    }

    /** Record the job's statements after the existing results, then run all of them in order. */
    method ExecMySQLStatement(connect: Option<string>, db: Database) returns (err: Option<string>)
      modifies this
      ensures var o := ExecStatements(old(results), sql, connect, db);
        results == o.results && err == o.err
      ensures status == old(status) && error == old(error) && acks == old(acks) && sql == old(sql)
    {
      if connect.Some? {
        return Some(ConnectErrorPrefix + connect.value);
      }
      var pieces := SplitAfter(sql);
      var i := 0;
      while i < |pieces|
        invariant 0 <= i <= |pieces|
        invariant status == old(status) && error == old(error) && acks == old(acks) && sql == old(sql)
        invariant results == old(results) + FilterMap(pieces[..i], StatementOf)
      {
        FilterMapSnoc(pieces, i, StatementOf);
        if pieces[i] != "" {
          results := results + [SQLExecResult(TrimSpace(pieces[i]), NotExec, 0, 0)];
        }
        i := i + 1;
      }
      assert pieces[..i] == pieces;
      err := RunAll(db);
    }

    /** Run every recorded statement in order, stopping at the first failure. */
    method RunAll(db: Database) returns (err: Option<string>)
      modifies this
      ensures var o := RunStatements(old(results), db);
        results == o.results && err == o.err
      ensures status == old(status) && error == old(error) && acks == old(acks) && sql == old(sql)
    {
      ghost var rs := results;
      var i := 0;
      while i < |results|
        invariant 0 <= i <= |results| && |results| == |rs|
        invariant status == old(status) && error == old(error) && acks == old(acks) && sql == old(sql)
        invariant forall j :: 0 <= j < i ==> !Fails(db(j, rs[j].sql))
        invariant forall j :: 0 <= j < |results| ==>
          results[j] == if j < i then Ran(rs[j], db(j, rs[j].sql)) else rs[j]
      {
        var r := results[i];
        var outcome := db(i, r.sql);
        if outcome.ExecError? {
          results := results[i := r.(status := ExecFailed)];
          FirstFailureAt(rs, db, i);
          return Some(ExecErrorPrefix + r.sql + ExecErrorMiddle + outcome.msg);
        }
        results := results[i := r.(status := Success, elapsedTime := outcome.elapsed)];
        if outcome.rows.Err? {
          FirstFailureAt(rs, db, i);
          return Some(RowsErrorPrefix + outcome.rows.msg);
        }
        results := results[i := results[i].(rowsAffected := outcome.rows.value)];
        i := i + 1;
      }
      FirstFailureAt(rs, db, i);
      err := None;
    }

    /**
     * Run: report Running first, then look the instance up and run the
     * statements; the job passes only on a MySQL or MariaDB instance whose
     * statements all succeed, and otherwise fails with the error.
     */
    method Run(lookup: Result<DBInstance>, connect: Option<string>, db: Database)
      modifies this
      ensures acks == old(acks) + [Running]
      ensures sql == old(sql)
      ensures var ran := lookup.Ok? && IsMySQLFamily(lookup.value.dbType);
        var o := ExecStatements(old(results), old(sql), connect, db);
        (status == Passed <==> ran && o.err.None?)
        && (status == Passed || status == Failed)
        && results == (if ran then o.results else old(results))
        && error == (if lookup.Err? then lookup.msg
                     else if !ran then InvalidDBType
                     else if o.err.Some? then o.err.value
                     else old(error))
    {
      status := Running;
      acks := acks + [status];
      if lookup.Err? {
        LogError(lookup.msg);
        return;
      }
      var info := lookup.value;
      if info.dbType == MySQL || info.dbType == MariaDB {
        var err := ExecMySQLStatement(connect, db);
        if err.Some? {
          LogError(err.value);
          return;
        }
      } else {
        LogError(InvalidDBType);
        return;
      }
      status := Passed;
    }

    /** SaveInfo: the record stored for the job, whose duration is its end time less its start time. */
    function SavedInfo(workflowName: string, taskID: int): (info: JobInfo)
      reads this
      ensures info.duration == info.endTime - info.startTime
      ensures info.startTime == startTime && info.endTime == endTime && info.status == status
    {
      JobInfo(jobType, workflowName, taskID, startTime, endTime, endTime - startTime, status)
    }
  }
}
