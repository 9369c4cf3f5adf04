/**
 * The music catalogue's database layer: a manager that opens one connection
 * lazily and hands it out until it is closed, the statement texts with
 * positional (`?`) parameters for paging, insert, update and delete, and the
 * BEGIN/COMMIT/ROLLBACK wrapper around a callback. The engine is abstract: a
 * connection records the statements it executes and the writes that were
 * committed.
 */
module NextDb {
  import opened Wrappers
  import opened JsValues
  import opened Strings
  import DbUtils

  /** A statement and the positional values it is run with. */
  datatype Statement = Statement(sql: string, args: seq<Value>)

  /** `Object.values(o)`, in key order. */
  function Values(o: DbUtils.Object): (vs: seq<Value>)
    ensures |vs| == |o| && forall i :: 0 <= i < |o| ==> vs[i] == o[i].1
  {
    seq(|o|, i requires 0 <= i < |o| => o[i].1)
  }

  /** n question marks, one per value. */
  function Marks(n: nat): (ms: seq<string>)
    ensures |ms| == n && forall i :: 0 <= i < n ==> ms[i] == "?"
  {
    seq(n, i => "?")
  }

  predicate NoMark(s: string) {
    NoChar(s, '?')
  }

  /** The count query wraps the input text, unchanged, as a subquery. */
  function CountStatement(sql: string, params: seq<Value>): Statement
  {
    Statement("SELECT COUNT(*) as total FROM (" + sql + ")", params)
  }

  /** The data query: the input text with LIMIT and OFFSET markers, bound after the input's own values. */
  function PageStatement(sql: string, params: seq<Value>, limit: Num, offset: Num): Statement
  {
    Statement(sql + " LIMIT ? OFFSET ?", params + [Number(limit), Number(offset)])
  }

  /**
   * The paging query keeps markers and values in step: it adds two of each,
   * and the limit and offset are the last two values.
   */
  lemma PageStatementLinesUp(sql: string, params: seq<Value>, limit: Num, offset: Num)
    ensures var st := PageStatement(sql, params, limit, offset);
            CountChar(st.sql, '?') == CountChar(sql, '?') + 2
            && |st.args| == |params| + 2
            && st.args[..|params|] == params
            && st.args[|params|] == Number(limit) && st.args[|params| + 1] == Number(offset)
  {
    PagingMarks();
    CountCharAppend(sql, " LIMIT ? OFFSET ?", '?');
    var st := PageStatement(sql, params, limit, offset);
    assert st.args == params + [Number(limit), Number(offset)];
  }

  /** The paging suffix holds exactly two markers. */
  lemma PagingMarks()
    ensures CountChar(" LIMIT ? OFFSET ?", '?') == 2
  {
    assert NoMark(" LIMIT ") && NoMark(" OFFSET ");
    TwoMarks(" LIMIT ", " OFFSET ");
    assert " LIMIT " + "?" + " OFFSET " + "?" == " LIMIT ? OFFSET ?";
  }

  /** Two marker-free texts, each followed by a marker, hold two markers. */
  lemma TwoMarks(l: string, o: string)
    requires NoMark(l) && NoMark(o)
    ensures CountChar(l + "?" + o + "?", '?') == 2
  {
    OneMarkAfter(l);
    OneMarkAfter(o);
    assert l + "?" + o + "?" == (l + "?") + (o + "?");
    CountCharAppend(l + "?", o + "?", '?');
  }

  /** A marker-free text followed by one marker holds one marker. */
  lemma OneMarkAfter(pre: string)
    requires NoMark(pre)
    ensures CountChar(pre + "?", '?') == 1
  {
    CountCharAppend(pre, "?", '?');
    assert CountChar("?", '?') == 1;
  }

  /** What `queryWithPagination` returns. */
  datatype PaginatedResult<T> = PaginatedResult(items: seq<T>, total: int, page: Num, limit: Num, totalPages: Num)

  /**
   * `queryWithPagination`: the two statements it runs and what it returns,
   * given the total the count query read (none without a row) and the rows the
   * page query read.
   */
  function QueryWithPagination<T>(sql: string, params: seq<Value>, page: Num, limit: Num,
                                  countRow: Option<int>, items: seq<T>): (r: (Statement, Statement, PaginatedResult<T>))
    ensures r.0 == CountStatement(sql, params)
    ensures r.1 == PageStatement(sql, params, limit, Mul(Sub(page, 1), limit))
    ensures r.2.items == items && r.2.page == page && r.2.limit == limit
    ensures r.2.total == countRow.GetOr(0)
  {
    var offset := Mul(Sub(page, 1), limit);
    var total := countRow.GetOr(0);
    (CountStatement(sql, params), PageStatement(sql, params, limit, offset),
     PaginatedResult(items, total, page, limit, CeilDivNum(total, limit)))
  }

  /**
   * For whole page and a positive limit: offset is (page - 1) * limit and the
   * page count the ceiling of total over limit.
   */
  lemma PaginationArithmetic<T>(sql: string, params: seq<Value>, page: int, limit: int,
                                countRow: Option<int>, items: seq<T>)
    requires limit > 0
    ensures var r := QueryWithPagination(sql, params, Fin(page), Fin(limit), countRow, items);
            r.1.args == params + [Number(Fin(limit)), Number(Fin((page - 1) * limit))]
            && r.2.totalPages.Fin?
            && (r.2.totalPages.v - 1) * limit < r.2.total <= r.2.totalPages.v * limit
            && (countRow.None? ==> r.2.totalPages == Fin(0))
  {
    if countRow.None? {
      assert CeilDiv(0, limit) == Fin(0);
    }
  }

  /** `INSERT INTO t (k1, k2) VALUES (?, ?)`, bound to the values in key order. */
  function InsertStatement(table: string, data: DbUtils.Object): Statement
  {
    Statement("INSERT INTO " + table + " (" + Join(DbUtils.Keys(data), ", ") + ") VALUES ("
                + Join(Marks(|data|), ", ") + ")",
              Values(data))
  }

  /**
   * An insert's VALUES list holds one marker per value, its column list none
   * (keys without '?'), and the i-th value is the i-th column's.
   */
  lemma InsertLinesUp(table: string, data: DbUtils.Object)
    requires forall i :: 0 <= i < |data| ==> NoMark(data[i].0)
    ensures CountChar(Join(Marks(|data|), ", "), '?') == |InsertStatement(table, data).args|
    ensures CountChar(Join(DbUtils.Keys(data), ", "), '?') == 0
    ensures forall i :: 0 <= i < |data| ==> InsertStatement(table, data).args[i] == data[i].1
  {
    var ms := Marks(|data|);
    forall i | 0 <= i < |ms| ensures CountChar(ms[i], '?') == 1 { }
    CountCharJoin(ms, ", ", '?');
    var ks := DbUtils.Keys(data);
    forall i | 0 <= i < |ks| ensures CountChar(ks[i], '?') == 0 { }
    CountCharJoinNone(ks, ", ", '?');
  }

  /** `k = ?`, one per data key. */
  function SetItems(keys: seq<string>): (items: seq<string>)
    ensures |items| == |keys|
  {
    seq(|keys|, i requires 0 <= i < |keys| => keys[i] + " = ?")
  }

  /** `UPDATE t SET k = ?, ... WHERE <where>`, bound to the data values and then the WHERE values. */
  function UpdateStatement(table: string, data: DbUtils.Object, where: string, params: seq<Value>): Statement
  {
    Statement("UPDATE " + table + " SET " + Join(SetItems(DbUtils.Keys(data)), ", ") + " WHERE " + where,
              Values(data) + params)
  }

  /**
   * The SET list holds one marker per data value, and the data values come
   * before the WHERE values: when the WHERE clause has one marker per
   * parameter, markers and values line up.
   */
  lemma UpdateLinesUp(table: string, data: DbUtils.Object, where: string, params: seq<Value>)
    requires forall i :: 0 <= i < |data| ==> NoMark(data[i].0)
    requires CountChar(where, '?') == |params|
    ensures var st := UpdateStatement(table, data, where, params);
            CountChar(Join(SetItems(DbUtils.Keys(data)), ", "), '?') + CountChar(where, '?') == |st.args|
            && st.args[..|data|] == Values(data) && st.args[|data|..] == params
  {
    var ks := DbUtils.Keys(data);
    var items := SetItems(ks);
    forall i | 0 <= i < |items| ensures CountChar(items[i], '?') == 1 {
      CountCharAppend(ks[i], " = ?", '?');
      assert " = ?" == " = " + "?";
      CountCharAppend(" = ", "?", '?');
      assert NoChar(" = ", '?');
    }
    CountCharJoin(items, ", ", '?');
    var st := UpdateStatement(table, data, where, params);
    assert st.args[..|data|] == Values(data);
    assert st.args[|data|..] == params;
  }

  /** `DELETE FROM t WHERE <where>`, bound to the WHERE values. */
  function RemoveStatement(table: string, where: string, params: seq<Value>): (st: Statement)
    ensures st.args == params
  {
    Statement("DELETE FROM " + table + " WHERE " + where, params)
  }

  /** An open database handle; `serial` tells apart successive opens. */
  datatype Handle = Handle(serial: nat, path: string)

  /** The file opened when no path is given (resolved against the working directory). */
  const DefaultPath: string := "../../Chinook.db"

  /** What happens when the manager tries to open a file. */
  datatype OpenOutcome =
    | Opens          // the file opens and both pragmas run
    | OpenFails      // the driver throws while opening: nothing is kept
    | PragmaFails    // the handle is created, then a pragma throws: the handle is kept

  /** What a transaction's callback does: the statements it runs and whether it returns or throws. */
  datatype Callback<T> = Callback(writes: seq<string>, outcome: Result<T, string>)

  /** The statements a transaction executes, in order. */
  function TransactionLog<T>(cb: Callback<T>): (log: seq<string>)
    ensures |log| == |cb.writes| + 2 && log[0] == "BEGIN"
  {
    ["BEGIN"] + cb.writes + (if cb.outcome.Ok? then ["COMMIT"] else ["ROLLBACK"])
  }

  /**
   * COMMIT is issued exactly when the callback returns, ROLLBACK exactly when
   * it throws (for a callback that issues neither itself).
   */
  lemma CommitIffReturns<T>(cb: Callback<T>)
    requires "COMMIT" !in cb.writes && "ROLLBACK" !in cb.writes
    ensures "COMMIT" in TransactionLog(cb) <==> cb.outcome.Ok?
    ensures "ROLLBACK" in TransactionLog(cb) <==> cb.outcome.Err?
  {
    var log := TransactionLog(cb);
    var last := if cb.outcome.Ok? then "COMMIT" else "ROLLBACK";
    assert log == ["BEGIN"] + cb.writes + [last];
    assert "COMMIT" != "BEGIN" && "ROLLBACK" != "BEGIN" && "COMMIT" != "ROLLBACK";
  }

  /** The singleton that owns the connection; `opens` counts the files opened so far. */
  class DatabaseManager {
    var db: Option<Handle>
    var opens: nat
    var executed: seq<string>
    var committed: seq<string>

    /** A fresh manager holds no connection. */
    constructor ()
      ensures db == None && opens == 0 && executed == [] && committed == []
    {
      db, opens, executed, committed := None, 0, [], [];
    }

    /**
     * `getConnection(dbPath)`: opens `dbPath` (or the default when it is
     * absent or empty) only when no handle is held; later calls return the
     * held handle and ignore their path.
     */
    method GetConnection(dbPath: Option<string>, outcome: OpenOutcome) returns (r: Result<Handle, string>)
      modifies this`db, this`opens, this`executed
      ensures old(db).Some? ==> r == Ok(old(db).value) && db == old(db) && opens == old(opens)
                                && executed == old(executed)
      ensures old(db).None? ==>
                var path := if dbPath.Some? && dbPath.value != "" then dbPath.value else DefaultPath;
                var h := Handle(old(opens), path);
                match outcome
                case Opens =>
                  r == Ok(h) && db == Some(h) && opens == old(opens) + 1
                  && executed == old(executed) + ["PRAGMA journal_mode = WAL", "PRAGMA foreign_keys = ON"]
                case OpenFails =>
                  r.Err? && db == None && opens == old(opens) && executed == old(executed)
                case PragmaFails =>
                  r.Err? && db == Some(h) && opens == old(opens) + 1 && executed == old(executed)
    {
      if db.Some? {
        return Ok(db.value);
      }
      var path := if dbPath.Some? && dbPath.value != "" then dbPath.value else DefaultPath;
      if outcome == OpenFails {
        return Err("Failed to connect to database");
      }
      var h := Handle(opens, path);
      db := Some(h);
      opens := opens + 1;
      if outcome == PragmaFails {
        return Err("Failed to connect to database");
      }
      executed := executed + ["PRAGMA journal_mode = WAL", "PRAGMA foreign_keys = ON"];
      r := Ok(h);
    }

    /** `closeConnection()`: drops the held handle; with none held it does nothing. */
    method CloseConnection()
      modifies this`db
      ensures db == None
    {
      if db.Some? {
        db := None;
      }
    }

    /**
     * `transaction(callback)`: gets the connection (opening it if needed), then
     * BEGIN, the callback's statements, and COMMIT when it returns or ROLLBACK
     * when it throws; the callback's value or error is passed on. Only a
     * committed transaction's writes are kept.
     */
    method Transaction<T>(cb: Callback<T>, outcome: OpenOutcome) returns (r: Result<T, string>)
      modifies this`db, this`opens, this`executed, this`committed
      ensures old(db).Some? || outcome == Opens ==>
                r == cb.outcome
                && executed == old(executed)
                   + (if old(db).None? then ["PRAGMA journal_mode = WAL", "PRAGMA foreign_keys = ON"] else [])
                   + TransactionLog(cb)
                && committed == old(committed) + (if cb.outcome.Ok? then cb.writes else [])
      ensures old(db).Some? ==> db == old(db) && opens == old(opens)
      ensures old(db).None? ==>
                var h := Handle(old(opens), DefaultPath);
                match outcome
                case Opens => db == Some(h) && opens == old(opens) + 1
                case OpenFails => db == None && opens == old(opens)
                case PragmaFails => db == Some(h) && opens == old(opens) + 1
      ensures old(db).None? && outcome != Opens ==>
                r.Err? && committed == old(committed) && executed == old(executed)
    {
      var conn := GetConnection(None, outcome);
      if conn.Err? {
        return Err(conn.error);
      }
      executed := executed + ["BEGIN"];
      executed := executed + cb.writes;
      if cb.outcome.Ok? {
        executed := executed + ["COMMIT"];
        committed := committed + cb.writes;
        r := cb.outcome;
      } else {
        executed := executed + ["ROLLBACK"];
        r := cb.outcome;
      }
    }
  }

  /** Holds the one manager instance once it has been created. */
  class Registry {
    var instance: DatabaseManager?

    constructor ()
      ensures instance == null
    {
      instance := null;
    }

    /** `DatabaseManager.getInstance()`: created on first use, the same object afterwards. */
    method GetInstance() returns (m: DatabaseManager)
      modifies this
      ensures old(instance) != null ==> m == old(instance)
      ensures old(instance) == null ==> fresh(m) && m.db.None? && m.opens == 0
      ensures instance == m
    {
      if instance == null {
        instance := new DatabaseManager();
      }
      m := instance;
    }
  }
}
