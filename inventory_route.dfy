/**
 * The inventory endpoint of the DVD-rental app: the query string becomes a
 * WHERE clause shared by the count query and the item list, the items carry
 * an is_available flag derived from their open rental, and a summary splits
 * the whole inventory into available and rented copies.
 */
module InventoryRoute {
  import opened Wrappers
  import opened JsValues
  import opened Strings
  import opened RouteCommon
  import DbUtils

  /** `searchParams.get(...)` for each name the handler reads (None when absent). */
  datatype Query = Query(title: Option<string>, storeId: Option<string>, availability: Option<string>,
                         page: Option<string>, pageSize: Option<string>)

  datatype Filters = Filters(title: string, storeId: Option<Num>, availability: string, page: Num, pageSize: Num)

  /**
   * title and availability fall back to '' and 'all'; storeId is read with
   * `parseInt` whenever it is a non-empty string; page and pageSize are
   * `parseInt` of the value or of '1' and '20'.
   */
  function ReadFilters(q: Query): Filters {
    Filters(OrElse(q.title, ""), IntIfGiven(q.storeId), OrElse(q.availability, "all"),
            IntParam(q.page, "1"), IntParam(q.pageSize, "20"))
  }

  datatype Cond = TitleLike | StoreIs | NoOpenRental | HasOpenRental

  function CondSql(c: Cond): string {
    match c
    case TitleLike => "f.title LIKE :title"
    case StoreIs => "i.store_id = :storeId"
    case NoOpenRental => "r2.rental_id IS NULL"
    case HasOpenRental => "r2.rental_id IS NOT NULL"
  }

  function CondTexts(cs: seq<Cond>): (ts: seq<string>)
    ensures |ts| == |cs|
  {
    seq(|cs|, i requires 0 <= i < |cs| => CondSql(cs[i]))
  }

  /** 'available' and 'rented' each add their condition; every other value adds none. */
  function AvailabilityConds(availability: string): seq<Cond> {
    if availability == "available" then [NoOpenRental]
    else if availability == "rented" then [HasOpenRental]
    else []
  }

  /** The conditions in push order. The store test is `storeId !== null`, so 0 and NaN count. */
  function Conditions(f: Filters): seq<Cond> {
    When(f.title != "", TitleLike) + When(f.storeId.Some?, StoreIs) + AvailabilityConds(f.availability)
  }

  function BindingOf(c: Cond, f: Filters): seq<(string, Value)> {
    match c
    case TitleLike => [("title", Str("%" + f.title + "%"))]
    case StoreIs => [("storeId", Number(f.storeId.GetOr(NaN)))]
    case _ => []
  }

  function Bindings(cs: seq<Cond>, f: Filters): DbUtils.Object {
    if cs == [] then [] else Bindings(cs[..|cs| - 1], f) + BindingOf(cs[|cs| - 1], f)
  }

  /**
   * `'WHERE ' + conditions.join(' AND ')`, or nothing without a condition:
   * the shared WHERE clause without its leading space.
   */
  function WhereClause(conds: seq<string>): (w: string)
    ensures conds == [] <==> w == ""
    ensures conds != [] ==> " " + w == Where(conds)
  {
    if conds == [] then "" else "WHERE " + Join(conds, " AND ")
  }

  /** Each condition text holds one named placeholder per parameter it binds. */
  lemma CondMarks(c: Cond, f: Filters)
    ensures CountChar(CondSql(c), ':') == |BindingOf(c, f)|
  {
    match c
    case TitleLike =>
      assert CondSql(c) == "f.title LIKE " + [':'] + "title";
      assert NoChar("f.title LIKE ", ':') && NoChar("title", ':');
      OneCharBetween("f.title LIKE ", ':', "title");
    case StoreIs =>
      assert CondSql(c) == "i.store_id = " + [':'] + "storeId";
      assert NoChar("i.store_id = ", ':') && NoChar("storeId", ':');
      OneCharBetween("i.store_id = ", ':', "storeId");
    case NoOpenRental =>
      assert NoChar(CondSql(c), ':');
    case HasOpenRental =>
      assert NoChar(CondSql(c), ':');
  }

  lemma {:induction false} CondTextsMarks(cs: seq<Cond>, f: Filters)
    ensures CountAll(CondTexts(cs), ':') == |Bindings(cs, f)|
    decreases |cs|
  {
    if cs != [] {
      var init := cs[..|cs| - 1];
      assert CondTexts(cs)[..|cs| - 1] == CondTexts(init);
      CondTextsMarks(init, f);
      CondMarks(cs[|cs| - 1], f);
    }
  }

  /**
   * A WHERE clause built from conditions holds one named placeholder per
   * parameter they bind; for the clause the count and the list share, every
   * `:name` has a value and no value goes unused.
   */
  lemma WhereMarksBindings(cs: seq<Cond>, f: Filters)
    ensures CountChar(WhereClause(CondTexts(cs)), ':') == |Bindings(cs, f)|
  {
    var ts := CondTexts(cs);
    var n := CountAll(ts, ':');
    assert n == |Bindings(cs, f)| by {
      CondTextsMarks(cs, f);
    }
    if ts != [] {
      var j := Join(ts, " AND ");
      assert CountChar(j, ':') == n by {
        assert NoChar(" AND ", ':');
        CountCharJoinAll(ts, " AND ", ':');
      }
      assert CountChar("WHERE " + j, ':') == n by {
        assert NoChar("WHERE ", ':');
        CountCharAppend("WHERE ", j, ':');
      }
      assert WhereClause(ts) == "WHERE " + j;
    }
  }

  const OpenRentals: string :=
    "LEFT JOIN (SELECT inventory_id, MAX(rental_id) as rental_id FROM rental WHERE return_date IS NULL "
    + "GROUP BY inventory_id) r2 ON i.inventory_id = r2.inventory_id "

  const CountBase: string :=
    "SELECT COUNT(*) as total FROM inventory i JOIN film f ON i.film_id = f.film_id " + OpenRentals

  const ListBase: string :=
    "SELECT i.inventory_id, ..., CASE WHEN r2.rental_id IS NULL THEN 1 ELSE 0 END as is_available, ... "
    + "FROM inventory i JOIN film f ON i.film_id = f.film_id LEFT JOIN rental r ON i.inventory_id = r.inventory_id "
    + "LEFT JOIN (SELECT r.rental_id, r.inventory_id, r.customer_id FROM rental r WHERE r.return_date IS NULL) r2 "
    + "ON i.inventory_id = r2.inventory_id LEFT JOIN customer c ON r2.customer_id = c.customer_id "

  const ListTail: string := " GROUP BY i.inventory_id ORDER BY i.inventory_id LIMIT :limit OFFSET :offset"

  /** One `if (...) { conditions.push(...); params.x = ... }` step. */
  method PushIf(conds: seq<Cond>, params: DbUtils.Object, b: bool, c: Cond, binding: seq<(string, Value)>,
                ghost f: Filters)
    returns (conds': seq<Cond>, params': DbUtils.Object)
    requires params == Bindings(conds, f) && binding == BindingOf(c, f)
    ensures conds' == conds + When(b, c) && params' == Bindings(conds', f)
  {
    conds', params' := conds, params;
    if b {
      conds' := conds' + [c];
      params' := params' + binding;
      assert conds'[..|conds'| - 1] == conds;
    }
  }

  method PushFilters(f: Filters) returns (conds: seq<Cond>, params: DbUtils.Object)
    ensures conds == Conditions(f) && params == Bindings(conds, f)
  {
    conds, params := [], [];
    conds, params := PushIf(conds, params, f.title != "", TitleLike, [("title", Str("%" + f.title + "%"))], f);
    conds, params := PushIf(conds, params, f.storeId.Some?, StoreIs, [("storeId", Number(f.storeId.GetOr(NaN)))], f);
    ghost var before := conds;
    if f.availability == "available" {
      conds := conds + [NoOpenRental];
      assert conds[..|conds| - 1] == before;
    } else if f.availability == "rented" {
      conds := conds + [HasOpenRental];
      assert conds[..|conds| - 1] == before;
    }
    assert conds == before + AvailabilityConds(f.availability);
    assert before == When(f.title != "", TitleLike) + When(f.storeId.Some?, StoreIs);
  }

  /**
   * GET's two filtered queries: the count and the item list end in the same
   * WHERE clause, the list binds the filter parameters plus limit and
   * offset = (page - 1) * pageSize.
   */
  method ShapeQueries(q: Query)
    returns (countSql: string, listSql: string, params: DbUtils.Object, listParams: DbUtils.Object,
             page: Num, pageSize: Num, offset: Num)
    ensures var f := ReadFilters(q);
            var w := WhereClause(CondTexts(Conditions(f)));
            countSql == CountBase + w && listSql == ListBase + w + ListTail
            && params == Bindings(Conditions(f), f)
            && listParams == params + [("limit", Number(pageSize)), ("offset", Number(offset))]
            && page == f.page && pageSize == f.pageSize && offset == Mul(Sub(page, 1), pageSize)
  {
    var f := ReadFilters(q);
    page, pageSize := f.page, f.pageSize;
    var conds;
    conds, params := PushFilters(f);
    var whereClause := "";
    if |conds| > 0 {
      whereClause := "WHERE " + Join(CondTexts(conds), " AND ");
    }
    countSql := CountBase + whereClause;
    offset := Mul(Sub(page, 1), pageSize);
    listSql := ListBase + whereClause + ListTail;
    listParams := params + [("limit", Number(pageSize)), ("offset", Number(offset))];
  }

  /** Absent or empty page and pageSize read as 1 and 20, so the offset is 0. */
  lemma PagingDefaults(q: Query)
    requires q.page.None? || q.page.value == ""
    requires q.pageSize.None? || q.pageSize.value == ""
    ensures var f := ReadFilters(q);
            f.page == Fin(1) && f.pageSize == Fin(20) && Mul(Sub(f.page, 1), f.pageSize) == Fin(0)
  {
    IntParamDefault(q.page, 1);
    IntParamDefault(q.pageSize, 20);
    assert IntToString(1) == "1" && IntToString(20) == "20";
  }

  /**
   * The store condition is added for every non-empty storeId, '0' included,
   * and binds what `parseInt` read.
   */
  lemma StoreFilter(q: Query)
    ensures var f := ReadFilters(q);
            (StoreIs in Conditions(f) <==> q.storeId.Some? && q.storeId.value != "")
            && (q.storeId == Some("0") ==> StoreIs in Conditions(f) && BindingOf(StoreIs, f) == [("storeId", Number(Fin(0)))])
  {
    var f := ReadFilters(q);
    var a, b, c := When(f.title != "", TitleLike), When(f.storeId.Some?, StoreIs), AvailabilityConds(f.availability);
    assert Conditions(f) == a + b + c && StoreIs !in a && StoreIs !in c;
    if q.storeId == Some("0") {
      ParseIntRoundTrip(0);
      assert IntToString(0) == "0";
    }
  }

  /** 'available' adds only the no-open-rental condition, 'rented' only its negation, anything else neither. */
  lemma AvailabilityFilter(q: Query)
    ensures var cs := Conditions(ReadFilters(q));
            (NoOpenRental in cs <==> q.availability == Some("available"))
            && (HasOpenRental in cs <==> q.availability == Some("rented"))
  {
  }

  // ---- the rental table behind is_available and the summary ----

  /** A rental row as the subqueries see it: its id, its copy and whether return_date is set. */
  datatype Rental = Rental(rentalId: int, inventoryId: int, returned: bool)

  /**
   * The `r2` subquery joined to a copy: the largest id among its unreturned
   * rentals, or NULL when there is none.
   */
  function OpenRentalId(inventoryId: int, rentals: seq<Rental>): (r: Option<int>)
    ensures r.None? <==> forall k :: 0 <= k < |rentals| && rentals[k].inventoryId == inventoryId ==> rentals[k].returned
    ensures r.Some? ==> exists k :: 0 <= k < |rentals| && rentals[k].inventoryId == inventoryId
                                    && !rentals[k].returned && rentals[k].rentalId == r.value
  {
    if rentals == [] then None
    else
      var rest := OpenRentalId(inventoryId, rentals[..|rentals| - 1]);
      var last := rentals[|rentals| - 1];
      assert forall k :: 0 <= k < |rentals| - 1 ==> rentals[..|rentals| - 1][k] == rentals[k];
      if last.inventoryId != inventoryId || last.returned then rest
      else if rest.Some? && rest.value >= last.rentalId then rest
      else Some(last.rentalId)
  }

  /** `CASE WHEN r2.rental_id IS NULL THEN 1 ELSE 0 END`. */
  function IsAvailable(inventoryId: int, rentals: seq<Rental>): int {
    if OpenRentalId(inventoryId, rentals).None? then 1 else 0
  }

  /** Whether an availability condition holds for a copy. */
  predicate Holds(c: Cond, inventoryId: int, rentals: seq<Rental>)
    requires c.NoOpenRental? || c.HasOpenRental?
  {
    if c.NoOpenRental? then OpenRentalId(inventoryId, rentals).None? else OpenRentalId(inventoryId, rentals).Some?
  }

  /**
   * is_available is 1 exactly when no rental of the copy is unreturned, and
   * the 'available' and 'rented' filters select the copies flagged 1 and 0.
   */
  lemma AvailableIffNoOpenRental(inventoryId: int, rentals: seq<Rental>)
    ensures IsAvailable(inventoryId, rentals) == 1 <==>
              forall k :: 0 <= k < |rentals| && rentals[k].inventoryId == inventoryId ==> rentals[k].returned
    ensures IsAvailable(inventoryId, rentals) == 0 <==>
              exists k :: 0 <= k < |rentals| && rentals[k].inventoryId == inventoryId && !rentals[k].returned
    ensures Holds(NoOpenRental, inventoryId, rentals) <==> IsAvailable(inventoryId, rentals) == 1
    ensures Holds(HasOpenRental, inventoryId, rentals) <==> IsAvailable(inventoryId, rentals) == 0
  {
  }

  datatype Summary = Summary(totalInventory: int, availableInventory: int, rentedInventory: int)

  /**
   * The summary query over every copy: COUNT(*) and the two SUM(CASE ...)
   * columns on r2.rental_id. Over no copies at all SQL's SUM is NULL; the
   * model gives 0 there, which is what the response shows for a missing total.
   */
  function InventorySummary(copies: seq<int>, rentals: seq<Rental>): Summary {
    if copies == [] then Summary(0, 0, 0)
    else
      var s := InventorySummary(copies[..|copies| - 1], rentals);
      var isNull := OpenRentalId(copies[|copies| - 1], rentals).None?;
      Summary(s.totalInventory + 1, s.availableInventory + (if isNull then 1 else 0),
              s.rentedInventory + (if isNull then 0 else 1))
  }

  /** How many copies a condition selects. */
  function CountHolding(copies: seq<int>, rentals: seq<Rental>, c: Cond): nat
    requires c.NoOpenRental? || c.HasOpenRental?
  {
    if copies == [] then 0
    else CountHolding(copies[..|copies| - 1], rentals, c) + (if Holds(c, copies[|copies| - 1], rentals) then 1 else 0)
  }

  /**
   * Every copy is counted once, as available or as rented: the two columns
   * add up to the total, and each equals the number of copies its filter
   * selects.
   */
  lemma {:induction false} SummaryPartition(copies: seq<int>, rentals: seq<Rental>)
    ensures var s := InventorySummary(copies, rentals);
            s.totalInventory == |copies|
            && s.availableInventory + s.rentedInventory == s.totalInventory
            && s.availableInventory == CountHolding(copies, rentals, NoOpenRental)
            && s.rentedInventory == CountHolding(copies, rentals, HasOpenRental)
  {
    if copies != [] {
      SummaryPartition(copies[..|copies| - 1], rentals);
    }
  }

  // ---- the response ----

  datatype ListResponse = ListResponse(total: int, page: Num, pageSize: Num, totalPages: Num)

  /** `total = totalResult?.total || 0` and `totalPages = Math.ceil(total / pageSize)`. */
  function Respond(countRow: Option<int>, page: Num, pageSize: Num): (r: ListResponse)
    ensures r.page == page && r.pageSize == pageSize
    ensures r.total == (if countRow.Some? then countRow.value else 0)
  {
    var total := if countRow.Some? then countRow.value else 0;
    ListResponse(total, page, pageSize, CeilDivNum(total, pageSize))
  }

  /**
   * For a positive page size totalPages is the ceiling of total over it, and
   * a missing count row gives total 0 and no pages.
   */
  lemma TotalPagesIsCeiling(countRow: Option<int>, page: Num, pageSize: int)
    requires pageSize > 0
    ensures var r := Respond(countRow, page, Fin(pageSize));
            r.totalPages.Fin? && (r.totalPages.v - 1) * pageSize < r.total <= r.totalPages.v * pageSize
            && (countRow.None? ==> r.total == 0 && r.totalPages == Fin(0))
  {
    var r := Respond(countRow, page, Fin(pageSize));
    if countRow.None? {
      assert (r.totalPages.v - 1) * pageSize < 0 <= r.totalPages.v * pageSize;
    }
  }
}
