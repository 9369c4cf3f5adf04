/**
 * The rentals endpoint of the DVD-rental app. GET turns the query string into
 * filters, a condition list, named parameters, a whitelisted ORDER BY and a
 * clamped page; its SQL also derives overdue days and a late fee per row.
 * POST checks the required fields, refuses an item that is out on an open
 * rental, stores the rental and a payment of the film's rental rate.
 */
module RentalsRoute {
  import opened Wrappers
  import opened JsValues
  import opened Strings
  import opened RouteCommon
  import DbUtils
  import RentalUtils

  /** `searchParams.get(...)` for each name the handler reads (None when absent). */
  datatype Query = Query(
    customerId: Option<string>, filmId: Option<string>, storeId: Option<string>, staffId: Option<string>,
    status: Option<string>, startDate: Option<string>, endDate: Option<string>,
    sortBy: Option<string>, sortDirection: Option<string>, page: Option<string>, pageSize: Option<string>)

  /** The `filters` object. */
  datatype Filters = Filters(
    customerId: Option<Num>, filmId: Option<Num>, storeId: Option<Num>, staffId: Option<Num>,
    status: string, startDate: Option<string>, endDate: Option<string>,
    sortBy: string, sortDirection: string)

  function ReadFilters(q: Query): (f: Filters)
  {
    Filters(NumberParam(q.customerId), NumberParam(q.filmId), NumberParam(q.storeId), NumberParam(q.staffId),
            OrElse(q.status, "all"), NonEmpty(q.startDate), NonEmpty(q.endDate),
            OrElse(q.sortBy, "rental_date"), OrElse(q.sortDirection, "desc"))
  }

  /** The conditions the handler can push. */
  datatype Cond =
    | CustomerIs | FilmIs | StoreIs | StaffIs
    | IsReturned | IsOutstanding | IsOverdue
    | StartsFrom | EndsBy

  function CondSql(c: Cond): string {
    match c
    case CustomerIs => "r.customer_id = :customerId"
    case FilmIs => "i.film_id = :filmId"
    case StoreIs => "i.store_id = :storeId"
    case StaffIs => "r.staff_id = :staffId"
    case IsReturned => "r.return_date IS NOT NULL"
    case IsOutstanding => "r.return_date IS NULL"
    case IsOverdue => "r.return_date IS NULL AND date('now') > date(r.rental_date, '+' || f.rental_duration || ' days')"
    case StartsFrom => "date(r.rental_date) >= :startDate"
    case EndsBy => "date(r.rental_date) <= :endDate"
  }

  function CondTexts(cs: seq<Cond>): (ts: seq<string>)
    ensures |ts| == |cs|
  {
    seq(|cs|, i requires 0 <= i < |cs| => CondSql(cs[i]))
  }

  /** The status condition: one per known status, none for 'all' or anything else. */
  function StatusConds(status: string): seq<Cond> {
    if status == "returned" then [IsReturned]
    else if status == "outstanding" then [IsOutstanding]
    else if status == "overdue" then [IsOverdue]
    else []
  }

  /** The id filters' conditions, in push order. */
  function IdConds(f: Filters): seq<Cond> {
    When(Given(f.customerId), CustomerIs) + When(Given(f.filmId), FilmIs)
    + When(Given(f.storeId), StoreIs) + When(Given(f.staffId), StaffIs)
  }

  /** The conditions in the order the handler pushes them. */
  function Conditions(f: Filters): seq<Cond> {
    IdConds(f) + StatusConds(f.status) + When(f.startDate.Some?, StartsFrom) + When(f.endDate.Some?, EndsBy)
  }

  /** The named parameter a condition's placeholder takes, if it has one: `sqlParams.<name> = <filter>`. */
  function BindingOf(c: Cond, f: Filters): seq<(string, Value)> {
    match c
    case CustomerIs => [("customerId", Number(f.customerId.GetOr(NaN)))]
    case FilmIs => [("filmId", Number(f.filmId.GetOr(NaN)))]
    case StoreIs => [("storeId", Number(f.storeId.GetOr(NaN)))]
    case StaffIs => [("staffId", Number(f.staffId.GetOr(NaN)))]
    case StartsFrom => [("startDate", Str(f.startDate.GetOr("")))]
    case EndsBy => [("endDate", Str(f.endDate.GetOr("")))]
    case _ => []
  }

  /** The parameter object for a list of conditions, one binding per placeholder, in push order. */
  function Bindings(cs: seq<Cond>, f: Filters): DbUtils.Object {
    if cs == [] then [] else Bindings(cs[..|cs| - 1], f) + BindingOf(cs[|cs| - 1], f)
  }

  /** The placeholder name of a condition. */
  function ParamName(c: Cond): Option<string> {
    match c
    case CustomerIs => Some("customerId")
    case FilmIs => Some("filmId")
    case StoreIs => Some("storeId")
    case StaffIs => Some("staffId")
    case StartsFrom => Some("startDate")
    case EndsBy => Some("endDate")
    case _ => None
  }

  function ParamNames(cs: seq<Cond>): seq<string> {
    if cs == [] then [] else ParamNames(cs[..|cs| - 1]) + (match ParamName(cs[|cs| - 1]) case Some(n) => [n] case None => [])
  }

  const ValidSortColumns: seq<string> :=
    ["rental_date", "return_date", "customer_name", "film_title", "days_overdue", "late_fee"]

  function OrderBy(f: Filters): string {
    " ORDER BY " + SortColumn(f.sortBy, ValidSortColumns, "rental_date")
    + (if f.sortDirection == "asc" then " ASC" else " DESC")
  }

  /** The SELECT with its joins, before any condition. */
  const BaseSql: string :=
    "SELECT r.*, i.film_id, i.store_id, f.title as film_title, f.rental_rate as film_rental_rate, "
    + "f.rental_duration, overdue, days_overdue, late_fee FROM rental r JOIN inventory i JOIN film f "
    + "JOIN customer c JOIN staff s"

  /** One `if (...) { whereConditions.push(...); sqlParams.x = ... }` step. */
  method PushIf(conds: seq<Cond>, params: DbUtils.Object, b: bool, c: Cond, binding: seq<(string, Value)>, ghost f: Filters)
    returns (conds': seq<Cond>, params': DbUtils.Object)
    requires params == Bindings(conds, f) && binding == BindingOf(c, f)
    ensures conds' == conds + When(b, c) && params' == Bindings(conds', f)
  {
    conds', params' := conds, params;
    if b {
      conds' := conds' + [c];
      params' := params' + binding;
      assert conds'[..|conds'| - 1] == conds;
    }
  }

  /** The status `switch`: one condition for a known status, none otherwise. */
  method PushStatus(conds: seq<Cond>, params: DbUtils.Object, status: string, ghost f: Filters) returns (conds': seq<Cond>)
    requires params == Bindings(conds, f)
    ensures conds' == conds + StatusConds(status) && params == Bindings(conds', f)
  {
    conds' := conds;
    if status != "" {
      if status == "returned" {
        conds' := conds' + [IsReturned];
      } else if status == "outstanding" {
        conds' := conds' + [IsOutstanding];
      } else if status == "overdue" {
        conds' := conds' + [IsOverdue];
      }
    }
    assert conds' == conds + StatusConds(status);
    if conds' != conds {
      assert conds'[..|conds'| - 1] == conds;
      assert BindingOf(conds'[|conds'| - 1], f) == [];
    }
  }

  /** The id filters' pushes. */
  method PushIdFilters(f: Filters) returns (conds: seq<Cond>, params: DbUtils.Object)
    ensures conds == IdConds(f) && params == Bindings(conds, f)
  {
    conds, params := [], [];
    conds, params := PushIf(conds, params, Given(f.customerId), CustomerIs,
                            [("customerId", Number(f.customerId.GetOr(NaN)))], f);
    conds, params := PushIf(conds, params, Given(f.filmId), FilmIs, [("filmId", Number(f.filmId.GetOr(NaN)))], f);
    conds, params := PushIf(conds, params, Given(f.storeId), StoreIs, [("storeId", Number(f.storeId.GetOr(NaN)))], f);
    conds, params := PushIf(conds, params, Given(f.staffId), StaffIs, [("staffId", Number(f.staffId.GetOr(NaN)))], f);
  }

  /** The filter pushes of GET, in source order: each placeholder gets its binding as its condition is pushed. */
  method PushFilters(f: Filters) returns (conds: seq<Cond>, params: DbUtils.Object)
    ensures conds == Conditions(f) && params == Bindings(conds, f)
  {
    conds, params := PushIdFilters(f);
    ghost var ids := conds;
    conds := PushStatus(conds, params, f.status, f);
    ghost var upToStatus := conds;
    assert upToStatus == ids + StatusConds(f.status);
    conds, params := PushIf(conds, params, f.startDate.Some?, StartsFrom, [("startDate", Str(f.startDate.GetOr("")))], f);
    assert conds == upToStatus + When(f.startDate.Some?, StartsFrom);
    conds, params := PushIf(conds, params, f.endDate.Some?, EndsBy, [("endDate", Str(f.endDate.GetOr("")))], f);
    assert conds == ids + StatusConds(f.status) + When(f.startDate.Some?, StartsFrom) + When(f.endDate.Some?, EndsBy);
  }

  /**
   * GET's request shaping: the filters are read and pushed, then the WHERE
   * clause (only with a condition) and the ORDER BY are appended.
   */
  method ShapeListQuery(q: Query) returns (sql: string, params: DbUtils.Object, page: Num, pageSize: Num)
    ensures var f := ReadFilters(q);
            sql == BaseSql + Where(CondTexts(Conditions(f))) + OrderBy(f)
            && params == Bindings(Conditions(f), f)
            && page == ClampedPage(q.page) && pageSize == ClampedPageSize(q.pageSize)
  {
    var f := ReadFilters(q);
    page := ClampedPage(q.page);
    pageSize := ClampedPageSize(q.pageSize);
    var conds;
    conds, params := PushFilters(f);
    var where := "";
    if |conds| > 0 {
      where := " WHERE " + Join(CondTexts(conds), " AND ");
    }
    sql := BaseSql + where + OrderBy(f);
  }

  /**
   * An id filter is applied exactly when its value is truthy, so 0 (and a
   * non-numeric value) adds no condition; the date filters exactly when non-empty.
   */
  lemma IdFiltersOnlyWhenTruthy(q: Query)
    ensures var cs := Conditions(ReadFilters(q));
            (CustomerIs in cs <==> Given(NumberParam(q.customerId)))
            && (FilmIs in cs <==> Given(NumberParam(q.filmId)))
            && (StoreIs in cs <==> Given(NumberParam(q.storeId)))
            && (StaffIs in cs <==> Given(NumberParam(q.staffId)))
            && (StartsFrom in cs <==> q.startDate.Some? && q.startDate.value != "")
            && (EndsBy in cs <==> q.endDate.Some? && q.endDate.value != "")
  {
    var f := ReadFilters(q);
    ConditionsMembers(f, CustomerIs);
    ConditionsMembers(f, FilmIs);
    ConditionsMembers(f, StoreIs);
    ConditionsMembers(f, StaffIs);
    ConditionsMembers(f, StartsFrom);
    ConditionsMembers(f, EndsBy);
  }

  /** Which conditions the list holds, filter by filter. */
  lemma ConditionsMembers(f: Filters, c: Cond)
    ensures c in Conditions(f) <==>
              (c == CustomerIs && Given(f.customerId)) || (c == FilmIs && Given(f.filmId))
              || (c == StoreIs && Given(f.storeId)) || (c == StaffIs && Given(f.staffId))
              || c in StatusConds(f.status)
              || (c == StartsFrom && f.startDate.Some?) || (c == EndsBy && f.endDate.Some?)
  {
    var ids, st := IdConds(f), StatusConds(f.status);
    var s, e := When(f.startDate.Some?, StartsFrom), When(f.endDate.Some?, EndsBy);
    assert Conditions(f) == ids + st + s + e;
    IdMembers(f, c);
    InWhen(f.startDate.Some?, StartsFrom, c);
    InWhen(f.endDate.Some?, EndsBy, c);
    assert c in Conditions(f) <==> c in ids || c in st || c in s || c in e;
  }

  lemma IdMembers(f: Filters, c: Cond)
    ensures c in IdConds(f) <==>
              (c == CustomerIs && Given(f.customerId)) || (c == FilmIs && Given(f.filmId))
              || (c == StoreIs && Given(f.storeId)) || (c == StaffIs && Given(f.staffId))
  {
    var a, b, d, e := When(Given(f.customerId), CustomerIs), When(Given(f.filmId), FilmIs),
                      When(Given(f.storeId), StoreIs), When(Given(f.staffId), StaffIs);
    assert IdConds(f) == a + b + d + e;
    InWhen(Given(f.customerId), CustomerIs, c);
    InWhen(Given(f.filmId), FilmIs, c);
    InWhen(Given(f.storeId), StoreIs, c);
    InWhen(Given(f.staffId), StaffIs, c);
    assert c in IdConds(f) <==> c in a || c in b || c in d || c in e;
  }

  lemma InWhen<T>(b: bool, x: T, y: T)
    ensures y in When(b, x) <==> b && y == x
  {
  }

  /**
   * 'returned', 'outstanding' and 'overdue' add their own condition and only
   * it; 'all' (also the value of an absent or empty status) adds none.
   */
  lemma StatusFilter(q: Query)
    ensures var s, cs := ReadFilters(q).status, Conditions(ReadFilters(q));
            (q.status.None? || q.status.value == "" ==> s == "all")
            && (IsReturned in cs <==> s == "returned")
            && (IsOutstanding in cs <==> s == "outstanding")
            && (IsOverdue in cs <==> s == "overdue")
  {
    var f := ReadFilters(q);
    ConditionsMembers(f, IsReturned);
    ConditionsMembers(f, IsOutstanding);
    ConditionsMembers(f, IsOverdue);
  }

  /**
   * The parameter object binds exactly the placeholders of the pushed
   * conditions, in order, each to the value of its filter.
   */
  lemma {:induction false} ParamsMatchConditions(cs: seq<Cond>, f: Filters)
    ensures DbUtils.Keys(Bindings(cs, f)) == ParamNames(cs)
    ensures forall i :: 0 <= i < |cs| && ParamName(cs[i]).Some? ==>
              (ParamName(cs[i]).value, BindingOf(cs[i], f)[0].1) in Bindings(cs, f)
  {
    if cs != [] {
      var init, last := cs[..|cs| - 1], cs[|cs| - 1];
      ParamsMatchConditions(init, f);
      var b := Bindings(init, f);
      assert Bindings(cs, f) == b + BindingOf(last, f);
      DbUtils.KeysAppend(b, BindingOf(last, f));
      assert DbUtils.Keys(BindingOf(last, f)) == match ParamName(last) case Some(n) => [n] case None => [];
      forall i | 0 <= i < |cs| && ParamName(cs[i]).Some?
        ensures (ParamName(cs[i]).value, BindingOf(cs[i], f)[0].1) in Bindings(cs, f)
      {
        if i < |cs| - 1 {
          assert cs[i] == init[i];
        }
      }
    }
  }

  /** The sort column is always whitelisted (rental_date otherwise); ASC only for 'asc', DESC by default. */
  lemma SortRule(q: Query)
    ensures var f := ReadFilters(q);
            SortColumn(f.sortBy, ValidSortColumns, "rental_date") in ValidSortColumns
            && (q.sortDirection.None? ==> f.sortDirection == "desc")
            && (q.sortBy.None? ==> SortColumn(f.sortBy, ValidSortColumns, "rental_date") == "rental_date")
  {
    SortColumnWhitelisted(ReadFilters(q).sortBy, ValidSortColumns, "rental_date");
  }

  /** A request without parameters lists everything by rental date, newest first, ten to a page. */
  lemma EmptyQueryDefaults()
    ensures var q := Query(None, None, None, None, None, None, None, None, None, None, None);
            Conditions(ReadFilters(q)) == [] && Bindings(Conditions(ReadFilters(q)), ReadFilters(q)) == []
            && OrderBy(ReadFilters(q)) == " ORDER BY rental_date DESC"
            && ClampedPage(q.page) == Fin(1) && ClampedPageSize(q.pageSize) == Fin(10)
  {
    var f := ReadFilters(Query(None, None, None, None, None, None, None, None, None, None, None));
    assert f.status == "all";
    assert StatusConds("all") == [];
  }

  /**
   * The late-fee columns of the list query: `dueDay` is the day number of
   * rental date plus duration, and julianday('now') = nowDay + nowFraction.
   * Returns overdue (0 or 1), days_overdue and late_fee.
   */
  function SqlLateColumns(returned: bool, dueDay: int, nowDay: int, nowFraction: real, rentalRate: real)
    : (r: (int, real, real))
    requires 0.0 <= nowFraction < 1.0
  {
    if !returned && nowDay > dueDay then
      var days := (nowDay - dueDay) as real + nowFraction;
      (1, days, days * rentalRate)
    else (0, 0.0, 0.0)
  }

  /**
   * The columns are non-zero only for an unreturned rental past its due day;
   * then at least one day is overdue and the fee is days times the rate,
   * without the 1.5 factor of the shared late-fee helper.
   */
  lemma SqlLateColumnsRule(returned: bool, dueDay: int, nowDay: int, nowFraction: real, rentalRate: real)
    requires 0.0 <= nowFraction < 1.0
    ensures var (overdue, days, fee) := SqlLateColumns(returned, dueDay, nowDay, nowFraction, rentalRate);
            (overdue == 1 <==> !returned && nowDay > dueDay)
            && (overdue == 0 ==> days == 0.0 && fee == 0.0)
            && (overdue == 1 ==> days >= 1.0 && fee == days * rentalRate)
  {
  }

  /** For a whole number of days the shared helper charges 1.5 times what the list query reports. */
  lemma HelperFeeIsOneAndAHalfTimesSqlFee(days: int, rentalRate: real)
    requires days >= 1
    ensures RentalUtils.CalculateLateFee(days, rentalRate)
            == 1.5 * SqlLateColumns(false, 0, days, 0.0, rentalRate).2
  {
  }

  // ---- POST ----

  /** A rental row; `returnDate` is null or a text. */
  datatype Rental = Rental(inventoryId: Value, customerId: Value, staffId: Value, rentalDate: string,
                           returnDate: Value)

  datatype Payment = Payment(customerId: Value, staffId: Value, rentalId: int, amount: real, paymentDate: string)

  /** An inventory item and the film it copies. */
  datatype Item = Item(filmId: int)

  datatype Response = Created(rentalId: int) | BadRequest(message: string)

  const RequiredFields: seq<string> := ["inventory_id", "customer_id", "staff_id"]

  /** The tables POST reads and writes. */
  class RentalStore {
    var inventory: map<int, Item>
    var filmRates: map<int, real>
    var rentals: map<int, Rental>
    var payments: map<int, Payment>
    var nextRentalId: int
    var nextPaymentId: int

    /** Row ids are handed out above every id in use. */
    ghost predicate Valid()
      reads this
    {
      (forall id :: id in rentals ==> id < nextRentalId)
      && (forall id :: id in payments ==> id < nextPaymentId)
    }

    constructor(inventory: map<int, Item>, filmRates: map<int, real>, rentals: map<int, Rental>,
                payments: map<int, Payment>, nextRentalId: int, nextPaymentId: int)
      requires forall id :: id in rentals ==> id < nextRentalId
      requires forall id :: id in payments ==> id < nextPaymentId
      ensures Valid()
      ensures this.inventory == inventory && this.filmRates == filmRates
      ensures this.rentals == rentals && this.payments == payments
      ensures this.nextRentalId == nextRentalId && this.nextPaymentId == nextPaymentId
    {
      this.inventory, this.filmRates, this.rentals, this.payments := inventory, filmRates, rentals, payments;
      this.nextRentalId, this.nextPaymentId := nextRentalId, nextPaymentId;
    }

    /** The availability check: the item exists and no rental of it is still open. */
    predicate Available(inventoryId: Value)
      reads this
    {
      inventoryId.Number? && inventoryId.n.Fin? && inventoryId.n.v in inventory
      && forall id :: id in rentals ==> !(rentals[id].inventoryId == inventoryId && rentals[id].returnDate.Null?)
    }

    /** The film rate looked up for the payment, when the item's film is known. */
    function RateOf(inventoryId: Value): Option<real>
      reads this
    {
      if inventoryId.Number? && inventoryId.n.Fin? && inventoryId.n.v in inventory
         && inventory[inventoryId.n.v].filmId in filmRates
      then Some(filmRates[inventory[inventoryId.n.v].filmId])
      else None
    }

    /**
     * `POST /api/rentals`: 400 naming the first falsy required field, 400
     * for an unavailable item (nothing is written in either case); otherwise
     * the rental is stored and, when the film is known, a payment of its
     * rental rate for that rental.
     */
    method Post(body: DbUtils.Object, now: string) returns (r: Response)
      requires Valid()
      modifies this
      ensures Valid()
      ensures inventory == old(inventory) && filmRates == old(filmRates)
      ensures FirstFalsy(RequiredFields, body).Some? ==>
                r == BadRequest(FirstFalsy(RequiredFields, body).value + " 필드는 필수입니다.")
                && rentals == old(rentals) && payments == old(payments)
      ensures FirstFalsy(RequiredFields, body).None? && !old(Available(Field(body, "inventory_id"))) ==>
                r.BadRequest? && rentals == old(rentals) && payments == old(payments)
      ensures FirstFalsy(RequiredFields, body).None? && old(Available(Field(body, "inventory_id"))) ==>
                var id := old(nextRentalId);
                r == Created(id) && id !in old(rentals)
                && rentals == old(rentals)[id := Rental(Field(body, "inventory_id"), Field(body, "customer_id"),
                                                        Field(body, "staff_id"), now,
                                                        if Truthy(Field(body, "return_date"))
                                                        then Field(body, "return_date") else Null)]
                && (old(RateOf(Field(body, "inventory_id"))).Some? ==>
                      var pid := old(nextPaymentId);
                      payments == old(payments)[pid := Payment(Field(body, "customer_id"), Field(body, "staff_id"),
                                                               id, old(RateOf(Field(body, "inventory_id"))).value, now)])
                && (old(RateOf(Field(body, "inventory_id"))).None? ==> payments == old(payments))
      ensures r.Created? && !Truthy(Field(body, "return_date")) ==> !Available(Field(body, "inventory_id"))
    {
      var missing := CheckRequired(RequiredFields, body);
      if missing.Some? {
        return BadRequest(missing.value + " 필드는 필수입니다.");
      }
      var inventoryId := Field(body, "inventory_id");
      if !Available(inventoryId) {
        return BadRequest("해당 재고 항목은 현재 대여 불가능합니다.");
      }
      var returnDate := Field(body, "return_date");
      var rentalId := nextRentalId;
      rentals := rentals[rentalId := Rental(inventoryId, Field(body, "customer_id"), Field(body, "staff_id"), now,
                                            if Truthy(returnDate) then returnDate else Null)];
      nextRentalId := nextRentalId + 1;
      var rate := RateOf(inventoryId);
      if rate.Some? {
        payments := payments[nextPaymentId := Payment(Field(body, "customer_id"), Field(body, "staff_id"),
                                                       rentalId, rate.value, now)];
        nextPaymentId := nextPaymentId + 1;
      }
      r := Created(rentalId);
      assert rentals[rentalId].inventoryId == inventoryId;
    }
  }
}
