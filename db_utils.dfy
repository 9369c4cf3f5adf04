/**
 * The DVD-rental app's database helpers: the INSERT/UPDATE/DELETE texts with
 * named (`:name`) parameters, the parameter object each statement is run with,
 * the null mapping of a single-row lookup and the arithmetic of a paginated
 * query. The driver itself is not modelled: whatever it returns is a parameter.
 */
module DbUtils {
  import opened Wrappers
  import opened JsValues
  import opened Strings

  /** A plain JavaScript object (a row or a named-parameter object): its properties in key order. */
  type Object = seq<(string, Value)>

  /** JavaScript object keys are unique. */
  predicate DistinctKeys(o: Object) {
    forall i, j :: 0 <= i < j < |o| ==> o[i].0 != o[j].0
  }

  /** `Object.keys(o)`. */
  function Keys(o: Object): (ks: seq<string>)
    ensures |ks| == |o| && forall i :: 0 <= i < |o| ==> ks[i] == o[i].0
  {
    seq(|o|, i requires 0 <= i < |o| => o[i].0)
  }

  lemma KeysAppend(a: Object, b: Object)
    ensures Keys(a + b) == Keys(a) + Keys(b)
  {
  }

  /** `o[k]`, if the property exists. */
  function Lookup(o: Object, k: string): (r: Option<Value>)
  {
    if o == [] then None else if o[0].0 == k then Some(o[0].1) else Lookup(o[1..], k)
  }

  lemma {:induction false} LookupAt(o: Object, i: int)
    requires DistinctKeys(o) && 0 <= i < |o|
    ensures Lookup(o, o[i].0) == Some(o[i].1)
  {
    if i > 0 {
      assert o[1..][i - 1] == o[i];
      LookupAt(o[1..], i - 1);
    }
  }

  lemma {:induction false} LookupAbsent(o: Object, k: string)
    requires forall i :: 0 <= i < |o| ==> o[i].0 != k
    ensures Lookup(o, k) == None
  {
    if o != [] {
      LookupAbsent(o[1..], k);
    }
  }

  /**
   * `{...o, [k]: v}`: an existing property keeps its place and takes the new
   * value; otherwise the property is added last.
   */
  function WithProp(o: Object, k: string, v: Value): Object
  {
    if o == [] then [(k, v)]
    else if o[0].0 == k then [(k, v)] + o[1..]
    else [o[0]] + WithProp(o[1..], k, v)
  }

  lemma {:induction false} WithPropLookup(o: Object, k: string, v: Value, other: string)
    ensures Lookup(WithProp(o, k, v), k) == Some(v)
    ensures other != k ==> Lookup(WithProp(o, k, v), other) == Lookup(o, other)
  {
    if o != [] && o[0].0 != k {
      WithPropLookup(o[1..], k, v, other);
    }
  }

  /** The value a named placeholder `:name` takes from the parameter object. */
  function Bind(params: Object, placeholder: string): Option<Value>
  {
    if |placeholder| > 0 && placeholder[0] == ':' then Lookup(params, placeholder[1..]) else None
  }

  function Placeholder(k: string): string {
    ":" + k
  }

  /** The `:key` placeholders, one per key, in key order. */
  function Placeholders(keys: seq<string>): (ps: seq<string>)
    ensures |ps| == |keys|
  {
    seq(|keys|, i requires 0 <= i < |keys| => Placeholder(keys[i]))
  }

  /** `INSERT INTO <table> (<keys>) VALUES (<:keys>)`. */
  function InsertSql(table: string, data: Object): string
  {
    "INSERT INTO " + table + " (" + Join(Keys(data), ", ") + ") VALUES ("
      + Join(Placeholders(Keys(data)), ", ") + ")"
  }

  /** Keys and table names free of ':' are the usual case: column names. */
  predicate ColonFree(table: string, data: Object) {
    NoChar(table, ':') && forall i :: 0 <= i < |data| ==> NoChar(data[i].0, ':')
  }

  /**
   * Run with `data` itself, the i-th placeholder of an insert binds the value
   * of the i-th column: the two lists line up one to one.
   */
  lemma InsertPlaceholdersBind(data: Object)
    requires DistinctKeys(data)
    ensures |Placeholders(Keys(data))| == |Keys(data)|
    ensures forall i :: 0 <= i < |data| ==> Bind(data, Placeholders(Keys(data))[i]) == Some(data[i].1)
  {
    forall i | 0 <= i < |data| ensures Bind(data, Placeholders(Keys(data))[i]) == Some(data[i].1) {
      assert Placeholders(Keys(data))[i][1..] == data[i].0;
      LookupAt(data, i);
    }
  }

  /**
   * When no key holds ':', the VALUES list of an insert holds exactly one ':'
   * per column and the column list holds none.
   */
  lemma InsertPlaceholderCount(data: Object)
    requires forall i :: 0 <= i < |data| ==> NoChar(data[i].0, ':')
    ensures CountChar(Join(Placeholders(Keys(data)), ", "), ':') == |data|
    ensures CountChar(Join(Keys(data), ", "), ':') == 0
  {
    var ks := Keys(data);
    var ps := Placeholders(ks);
    forall i | 0 <= i < |ks| ensures CountChar(ks[i], ':') == 0 { }
    forall i | 0 <= i < |ps| ensures CountChar(ps[i], ':') == 1 {
      CountCharAppend(":", ks[i], ':');
    }
    CountCharJoin(ps, ", ", ':');
    CountCharJoinNone(ks, ", ", ':');
  }

  /** The whole INSERT holds one named placeholder per column of the record, and no other ':'. */
  lemma InsertSqlMarkers(table: string, data: Object)
    requires ColonFree(table, data)
    ensures CountChar(InsertSql(table, data), ':') == |data|
  {
    var cols := Join(Keys(data), ", ");
    var ps := Join(Placeholders(Keys(data)), ", ");
    InsertPlaceholderCount(data);
    var s1 := "INSERT INTO " + table;
    assert CountChar(s1, ':') == 0 by {
      CountCharLiteral("INSERT INTO ");
      CountCharAppend("INSERT INTO ", table, ':');
    }
    var s2 := s1 + " (";
    assert CountChar(s2, ':') == 0 by {
      CountCharLiteral(" (");
      CountCharAppend(s1, " (", ':');
    }
    var s3 := s2 + cols;
    assert CountChar(s3, ':') == 0 by {
      CountCharAppend(s2, cols, ':');
    }
    var s4 := s3 + ") VALUES (";
    assert CountChar(s4, ':') == 0 by {
      CountCharLiteral(") VALUES (");
      CountCharAppend(s3, ") VALUES (", ':');
    }
    var s5 := s4 + ps;
    assert CountChar(s5, ':') == |data| by {
      CountCharAppend(s4, ps, ':');
    }
    assert InsertSql(table, data) == s5 + ")";
    CountCharLiteral(")");
    CountCharAppend(s5, ")", ':');
  }

  /** A fixed text of the statements that holds no ':'. */
  lemma CountCharLiteral(lit: string)
    requires NoChar(lit, ':')
    ensures CountChar(lit, ':') == 0
  {
  }

  /** The default name of the key column. */
  const DefaultIdField: string := "id"

  /** `k = :k`, one per data key. */
  function Assignments(keys: seq<string>): (as_: seq<string>)
    ensures |as_| == |keys|
  {
    seq(|keys|, i requires 0 <= i < |keys| => keys[i] + " = " + Placeholder(keys[i]))
  }

  /** `UPDATE <table> SET k = :k, ... WHERE <idField> = :id`; the key column defaults to "id". */
  function UpdateSql(table: string, data: Object, idField: Option<string>): string
  {
    "UPDATE " + table + " SET " + Join(Assignments(Keys(data)), ", ")
      + " WHERE " + idField.GetOr(DefaultIdField) + " = :id"
  }

  /** An assignment `k = :k` over a key free of ':' holds exactly one ':'. */
  lemma AssignmentMarker(k: string)
    requires NoChar(k, ':')
    ensures CountChar(k + " = " + Placeholder(k), ':') == 1
  {
    CountCharLiteral(k);
    CountCharLiteral(" = ");
    CountCharAppend(k, " = ", ':');
    assert Placeholder(k) == [':'] + k;
    CountCharAppend([':'], k, ':');
    CountCharAppend(k + " = ", Placeholder(k), ':');
  }

  /** The WHERE tail of an UPDATE or DELETE holds one ':'. */
  lemma CountCharIdMarker()
    ensures CountChar(" = :id", ':') == 1
  {
    CountCharLiteral(" = ");
    CountCharLiteral("id");
    assert ":id" == [':'] + "id";
    CountCharAppend([':'], "id", ':');
    CountCharAppend(" = ", ":id", ':');
  }

  /**
   * The UPDATE holds one placeholder per assignment plus the WHERE's `:id`,
   * and its key column is the one given, or "id".
   */
  lemma UpdateSqlMarkers(table: string, data: Object, idField: Option<string>)
    requires ColonFree(table, data) && (idField.Some? ==> NoChar(idField.value, ':'))
    ensures CountChar(UpdateSql(table, data, idField), ':') == |data| + 1
    ensures idField.None? ==> UpdateSql(table, data, idField) == UpdateSql(table, data, Some("id"))
  {
    var ks := Keys(data);
    var asg := Assignments(ks);
    var id := idField.GetOr(DefaultIdField);
    var j := Join(asg, ", ");
    assert CountChar(j, ':') == |data| by {
      forall i | 0 <= i < |asg| ensures CountChar(asg[i], ':') == 1 {
        AssignmentMarker(ks[i]);
      }
      CountCharLiteral(", ");
      CountCharJoin(asg, ", ", ':');
    }
    var s1 := "UPDATE " + table;
    assert CountChar(s1, ':') == 0 by {
      CountCharLiteral("UPDATE ");
      CountCharAppend("UPDATE ", table, ':');
    }
    var s2 := s1 + " SET ";
    assert CountChar(s2, ':') == 0 by {
      CountCharLiteral(" SET ");
      CountCharAppend(s1, " SET ", ':');
    }
    var s3 := s2 + j;
    assert CountChar(s3, ':') == |data| by {
      CountCharAppend(s2, j, ':');
    }
    var s4 := s3 + " WHERE ";
    assert CountChar(s4, ':') == |data| by {
      CountCharLiteral(" WHERE ");
      CountCharAppend(s3, " WHERE ", ':');
    }
    var s5 := s4 + id;
    assert CountChar(s5, ':') == |data| by {
      CountCharLiteral(DefaultIdField);
      CountCharAppend(s4, id, ':');
    }
    assert UpdateSql(table, data, idField) == s5 + " = :id";
    CountCharIdMarker();
    CountCharAppend(s5, " = :id", ':');
  }

  /** The object an update runs with: `{...data, id}`. */
  function UpdateParams(data: Object, id: Value): Object
  {
    WithProp(data, "id", id)
  }

  /**
   * Every placeholder of an update binds: the WHERE's `:id` and a data field
   * named "id" take the id argument, every other field its own value.
   */
  lemma UpdateBinds(data: Object, id: Value)
    requires DistinctKeys(data)
    ensures Bind(UpdateParams(data, id), ":id") == Some(id)
    ensures forall i :: 0 <= i < |data| ==>
              Bind(UpdateParams(data, id), Placeholder(data[i].0))
              == (if data[i].0 == "id" then Some(id) else Some(data[i].1))
  {
    var p := UpdateParams(data, id);
    WithPropLookup(data, "id", id, "id");
    assert ":id"[1..] == "id";
    forall i | 0 <= i < |data|
      ensures Bind(p, Placeholder(data[i].0)) == (if data[i].0 == "id" then Some(id) else Some(data[i].1))
    {
      assert Placeholder(data[i].0)[1..] == data[i].0;
      WithPropLookup(data, "id", id, data[i].0);
      LookupAt(data, i);
    }
  }

  /** `DELETE FROM <table> WHERE <idField> = :id`; the key column defaults to "id". */
  function DeleteSql(table: string, idField: Option<string>): string
  {
    "DELETE FROM " + table + " WHERE " + idField.GetOr(DefaultIdField) + " = :id"
  }

  /** The DELETE holds exactly one placeholder, and its key column is the one given, or "id". */
  lemma DeleteSqlMarkers(table: string, idField: Option<string>)
    requires NoChar(table, ':') && (idField.Some? ==> NoChar(idField.value, ':'))
    ensures CountChar(DeleteSql(table, idField), ':') == 1
    ensures idField.None? ==> DeleteSql(table, idField) == DeleteSql(table, Some("id"))
  {
    var id := idField.GetOr(DefaultIdField);
    var s1 := "DELETE FROM " + table;
    assert CountChar(s1, ':') == 0 by {
      CountCharLiteral("DELETE FROM ");
      CountCharAppend("DELETE FROM ", table, ':');
    }
    var s2 := s1 + " WHERE ";
    assert CountChar(s2, ':') == 0 by {
      CountCharLiteral(" WHERE ");
      CountCharAppend(s1, " WHERE ", ':');
    }
    var s3 := s2 + id;
    assert CountChar(s3, ':') == 0 by {
      CountCharLiteral(DefaultIdField);
      CountCharAppend(s2, id, ':');
    }
    assert DeleteSql(table, idField) == s3 + " = :id";
    CountCharIdMarker();
    CountCharAppend(s3, " = :id", ':');
  }

  /** A delete runs with `{ id }`, so its one placeholder binds the id. */
  lemma DeleteBinds(id: Value)
    ensures Bind([("id", id)], ":id") == Some(id)
  {
    assert ":id"[1..] == "id";
  }

  /**
   * `stmt.get(params) || null`: the driver yields a row object (always truthy)
   * or undefined, and the caller sees the row or null, never undefined.
   */
  datatype Fetched = NoRow | Row(row: Object)

  function GetRecord(fetched: Fetched): (r: Option<Object>)
    ensures r.None? <==> fetched.NoRow?
    ensures fetched.Row? ==> r == Some(fetched.row)
  {
    match fetched
    case NoRow => None
    case Row(o) => Some(o)
  }

  /** What a paginated query returns (`data` is whatever the driver yields). */
  datatype Paginated<T> = Paginated(data: seq<T>, total: int, page: Num, pageSize: Num, pageCount: Num)

  /** `(page - 1) * pageSize`. */
  function Offset(page: Num, pageSize: Num): (r: Num)
    ensures page.Fin? && pageSize.Fin? ==> r == Fin((page.v - 1) * pageSize.v)
  {
    Mul(Sub(page, 1), pageSize)
  }

  /** The data query: the input text followed by the LIMIT and OFFSET written out as numbers. */
  function PaginatedSql(sql: string, page: Num, pageSize: Num): string
  {
    sql + " LIMIT " + NumToString(pageSize) + " OFFSET " + NumToString(Offset(page, pageSize))
  }

  /**
   * The count query; the source rewrites the SELECT list with a regular
   * expression, whose result is taken as `selectOne`.
   */
  function CountSql(selectOne: string): string
  {
    CountPrefix + selectOne + ")"
  }

  const CountPrefix: string := "SELECT COUNT(*) as total FROM ("

  /** The count query wraps the rewritten query whole: stripping the wrapper gives it back. */
  lemma CountSqlWraps(selectOne: string)
    ensures var c := CountSql(selectOne);
            |c| == |selectOne| + |CountPrefix| + 1 && c[|CountPrefix|..|c| - 1] == selectOne
  {
    var c := CountSql(selectOne);
    assert c == CountPrefix + selectOne + ")";
    assert c[|CountPrefix|..|c| - 1] == selectOne;
  }

  /** The defaults for a call without page and pageSize. */
  const DefaultPage: Num := Fin(1)
  const DefaultPageSize: Num := Fin(10)

  /**
   * `getPaginatedData`: `page` and `pageSize` are the arguments given (none
   * when left out), `countRow` is the total the count query read (none
   * when it returned no row), `rows` what the data query read.
   */
  function GetPaginatedData<T>(page: Option<Num>, pageSize: Option<Num>, countRow: Option<int>, rows: seq<T>)
    : (r: Paginated<T>)
    ensures r.data == rows
    ensures r.page == (if page.Some? then page.value else Fin(1))
    ensures r.pageSize == (if pageSize.Some? then pageSize.value else Fin(10))
    ensures countRow.None? ==> r.total == 0
    ensures countRow.Some? ==> r.total == countRow.value
  {
    var p := page.GetOr(DefaultPage);
    var size := pageSize.GetOr(DefaultPageSize);
    var total := if countRow.Some? then countRow.value else 0;
    Paginated(rows, total, p, size, CeilDivNum(total, size))
  }

  /**
   * With a positive page size the page count is the ceiling of total over
   * size; with no count row both the total and the page count are 0.
   */
  lemma PageCountIsCeiling<T>(page: Option<Num>, pageSize: int, countRow: Option<int>, rows: seq<T>)
    requires pageSize > 0
    ensures var r := GetPaginatedData(page, Some(Fin(pageSize)), countRow, rows);
            r.pageCount.Fin?
            && (r.pageCount.v - 1) * pageSize < r.total <= r.pageCount.v * pageSize
            && (countRow.None? ==> r.pageCount == Fin(0))
  {
    var r := GetPaginatedData(page, Some(Fin(pageSize)), countRow, rows);
    if countRow.None? {
      assert CeilDiv(0, pageSize) == Fin(0);
    }
  }

  /**
   * A page numbered within the page count starts at a row that exists: its
   * offset is below the total and not negative.
   */
  lemma PageInRangeStartsInside(page: int, pageSize: int, total: int)
    requires pageSize > 0 && total >= 0
    requires 1 <= page
    requires page <= CeilDiv(total, pageSize).v
    ensures Offset(Fin(page), Fin(pageSize)) == Fin((page - 1) * pageSize)
    ensures 0 <= (page - 1) * pageSize < total
  {
    var c := CeilDiv(total, pageSize).v;
    assert (c - 1) * pageSize < total;
    assert (page - 1) * pageSize <= (c - 1) * pageSize by {
      MulMonotone(page - 1, c - 1, pageSize);
    }
    MulMonotone(0, page - 1, pageSize);
  }

  lemma MulMonotone(a: int, b: int, k: int)
    requires a <= b && k >= 0
    ensures a * k <= b * k
  {
    assert b * k - a * k == (b - a) * k;
  }

  /** With whole numbers the data query ends in the size and the offset written in decimal. */
  lemma PaginatedSqlText(sql: string, page: int, pageSize: int)
    ensures PaginatedSql(sql, Fin(page), Fin(pageSize))
            == sql + " LIMIT " + IntToString(pageSize) + " OFFSET " + IntToString((page - 1) * pageSize)
    ensures ToNumber(IntToString((page - 1) * pageSize)) == Fin((page - 1) * pageSize)
  {
    ToNumberRoundTrip((page - 1) * pageSize);
  }
}
