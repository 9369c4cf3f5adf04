/**
 * The payments endpoint of the DVD-rental app. GET reads its filters with
 * `parseInt`, appends one ` AND ...` per filter to a `WHERE 1=1` query,
 * labels every payment 'other', 'rental' or 'late_fee', orders by a
 * whitelisted column and pages with LIMIT/OFFSET. POST checks three fields
 * and builds the insert parameters.
 */
module PaymentsRoute {
  import opened Wrappers
  import opened JsValues
  import opened Strings
  import opened RouteCommon
  import DbUtils

  /**
   * `searchParams.get(...)` for each name the handler reads (None when
   * absent); `minAmount` and `maxAmount` are the numbers `parseFloat` read.
   */
  datatype Query = Query(customerId: Option<string>, staffId: Option<string>, rentalId: Option<string>,
                         paymentType: Option<string>, minAmount: Option<Num>, maxAmount: Option<Num>,
                         startDate: Option<string>, endDate: Option<string>, sortBy: Option<string>,
                         sortDirection: Option<string>, page: Option<string>, limit: Option<string>)

  /** `get(name) ? parseInt(get(name)) : fallback`. */
  function IntOr(v: Option<string>, fallback: int): (r: Num)
    ensures v.None? || v.value == "" ==> r == Fin(fallback)
    ensures v.Some? && v.value != "" ==> r == ParseInt(v.value)
  {
    if v.Some? && v.value != "" then ParseInt(v.value) else Fin(fallback)
  }

  datatype Filters = Filters(customerId: Option<Num>, staffId: Option<Num>, rentalId: Option<Num>,
                             paymentType: Option<string>, minAmount: Option<Num>, maxAmount: Option<Num>,
                             startDate: Option<string>, endDate: Option<string>, sortBy: string,
                             sortDirection: string)

  function ReadFilters(q: Query): Filters {
    Filters(IntIfGiven(q.customerId), IntIfGiven(q.staffId), IntIfGiven(q.rentalId), NonEmpty(q.paymentType),
            q.minAmount, q.maxAmount, NonEmpty(q.startDate), NonEmpty(q.endDate),
            OrElse(q.sortBy, "payment_date"), OrElse(q.sortDirection, "desc"))
  }

  datatype Cond =
    | CustomerIs | StaffIs | RentalIs
    | RentalType | LateFeeType | OtherType
    | AmountAtLeast | AmountAtMost | PaidFrom | PaidBy

  function CondSql(c: Cond): string {
    match c
    case CustomerIs => "p.customer_id = :customerId"
    case StaffIs => "p.staff_id = :staffId"
    case RentalIs => "p.rental_id = :rentalId"
    case RentalType => "(r.return_date IS NULL OR r.return_date <= date(r.rental_date, '+' || f.rental_duration || ' days'))"
    case LateFeeType => "r.return_date > date(r.rental_date, '+' || f.rental_duration || ' days')"
    case OtherType => "r.rental_id IS NULL"
    case AmountAtLeast => "p.amount >= :minAmount"
    case AmountAtMost => "p.amount <= :maxAmount"
    case PaidFrom => "date(p.payment_date) >= date(:startDate)"
    case PaidBy => "date(p.payment_date) <= date(:endDate)"
  }

  /** The conditions as appended to `WHERE 1=1`, each behind ` AND `. */
  function AndClauses(cs: seq<Cond>): string {
    if cs == [] then "" else AndClauses(cs[..|cs| - 1]) + " AND " + CondSql(cs[|cs| - 1])
  }

  /** The payment-type filter: one condition for 'rental', 'late_fee' or 'other'; none for 'all', absent or anything else. */
  function TypeConds(paymentType: Option<string>): seq<Cond> {
    if paymentType.None? || paymentType.value == "all" then []
    else if paymentType.value == "rental" then [RentalType]
    else if paymentType.value == "late_fee" then [LateFeeType]
    else if paymentType.value == "other" then [OtherType]
    else []
  }

  function Conditions(f: Filters): seq<Cond> {
    When(Given(f.customerId), CustomerIs) + When(Given(f.staffId), StaffIs) + When(Given(f.rentalId), RentalIs)
    + TypeConds(f.paymentType)
    + When(Given(f.minAmount), AmountAtLeast) + When(Given(f.maxAmount), AmountAtMost)
    + When(f.startDate.Some?, PaidFrom) + When(f.endDate.Some?, PaidBy)
  }

  function BindingOf(c: Cond, f: Filters): seq<(string, Value)> {
    match c
    case CustomerIs => [("customerId", Number(f.customerId.GetOr(NaN)))]
    case StaffIs => [("staffId", Number(f.staffId.GetOr(NaN)))]
    case RentalIs => [("rentalId", Number(f.rentalId.GetOr(NaN)))]
    case AmountAtLeast => [("minAmount", Number(f.minAmount.GetOr(NaN)))]
    case AmountAtMost => [("maxAmount", Number(f.maxAmount.GetOr(NaN)))]
    case PaidFrom => [("startDate", Str(f.startDate.GetOr("")))]
    case PaidBy => [("endDate", Str(f.endDate.GetOr("")))]
    case _ => []
  }

  function Bindings(cs: seq<Cond>, f: Filters): DbUtils.Object {
    if cs == [] then [] else Bindings(cs[..|cs| - 1], f) + BindingOf(cs[|cs| - 1], f)
  }

  const ValidSortColumns: seq<string> :=
    ["payment_id", "customer_name", "staff_name", "film_title", "amount", "payment_date", "payment_type"]

  function OrderBy(f: Filters): string {
    " ORDER BY " + SortColumn(f.sortBy, ValidSortColumns, "payment_date")
    + (if f.sortDirection == "asc" then " ASC" else " DESC")
  }

  const BaseSql: string :=
    "SELECT p.*, customer_name, customer_email, staff_name, film_title, r.rental_date, r.return_date, "
    + "payment_type FROM payment p JOIN customer c JOIN staff s LEFT JOIN rental r LEFT JOIN inventory i "
    + "LEFT JOIN film f WHERE 1=1"

  const PageTail: string := " LIMIT :limit OFFSET :offset"

  /** One `if (...) { sql += ' AND ...'; queryParams.x = ... }` step. */
  method PushIf(conds: seq<Cond>, params: DbUtils.Object, b: bool, c: Cond, binding: seq<(string, Value)>,
                ghost f: Filters)
    returns (conds': seq<Cond>, params': DbUtils.Object)
    requires params == Bindings(conds, f) && binding == BindingOf(c, f)
    ensures conds' == conds + When(b, c) && params' == Bindings(conds', f)
  {
    conds', params' := conds, params;
    if b {
      conds' := conds' + [c];
      params' := params' + binding;
      assert conds'[..|conds'| - 1] == conds;
    }
  }

  /** The payment-type `if` chain; it binds nothing. */
  method PushType(conds: seq<Cond>, params: DbUtils.Object, paymentType: Option<string>, ghost f: Filters)
    returns (conds': seq<Cond>)
    requires params == Bindings(conds, f)
    ensures conds' == conds + TypeConds(paymentType) && params == Bindings(conds', f)
  {
    conds' := conds;
    if paymentType.Some? && paymentType.value != "all" {
      if paymentType.value == "rental" {
        conds' := conds' + [RentalType];
      } else if paymentType.value == "late_fee" {
        conds' := conds' + [LateFeeType];
      } else if paymentType.value == "other" {
        conds' := conds' + [OtherType];
      }
    }
    if conds' != conds {
      assert conds'[..|conds'| - 1] == conds;
    }
  }

  method PushIdFilters(f: Filters) returns (conds: seq<Cond>, params: DbUtils.Object)
    ensures conds == When(Given(f.customerId), CustomerIs) + When(Given(f.staffId), StaffIs)
                     + When(Given(f.rentalId), RentalIs)
    ensures params == Bindings(conds, f)
  {
    conds, params := [], [];
    conds, params := PushIf(conds, params, Given(f.customerId), CustomerIs,
                            [("customerId", Number(f.customerId.GetOr(NaN)))], f);
    conds, params := PushIf(conds, params, Given(f.staffId), StaffIs, [("staffId", Number(f.staffId.GetOr(NaN)))], f);
    conds, params := PushIf(conds, params, Given(f.rentalId), RentalIs,
                            [("rentalId", Number(f.rentalId.GetOr(NaN)))], f);
  }

  method PushFilters(f: Filters) returns (conds: seq<Cond>, params: DbUtils.Object)
    ensures conds == Conditions(f) && params == Bindings(conds, f)
  {
    conds, params := PushIdFilters(f);
    conds := PushType(conds, params, f.paymentType, f);
    conds, params := PushIf(conds, params, Given(f.minAmount), AmountAtLeast,
                            [("minAmount", Number(f.minAmount.GetOr(NaN)))], f);
    conds, params := PushIf(conds, params, Given(f.maxAmount), AmountAtMost,
                            [("maxAmount", Number(f.maxAmount.GetOr(NaN)))], f);
    conds, params := PushIf(conds, params, f.startDate.Some?, PaidFrom, [("startDate", Str(f.startDate.GetOr("")))], f);
    conds, params := PushIf(conds, params, f.endDate.Some?, PaidBy, [("endDate", Str(f.endDate.GetOr("")))], f);
  }

  /**
   * GET's list query: every filter as ` AND ...` after `WHERE 1=1`, then
   * ORDER BY and LIMIT/OFFSET; the filter bindings come first, then limit
   * and offset = (page - 1) * limit.
   */
  method ShapeListQuery(q: Query) returns (sql: string, params: DbUtils.Object, page: Num, limit: Num)
    ensures var f := ReadFilters(q);
            sql == BaseSql + AndClauses(Conditions(f)) + OrderBy(f) + PageTail
            && params == Bindings(Conditions(f), f)
                         + [("limit", Number(limit)), ("offset", Number(Mul(Sub(page, 1), limit)))]
            && page == IntOr(q.page, 1) && limit == IntOr(q.limit, 10)
  {
    var f := ReadFilters(q);
    page := IntOr(q.page, 1);
    limit := IntOr(q.limit, 10);
    var offset := Mul(Sub(page, 1), limit);
    var conds;
    conds, params := PushFilters(f);
    sql := BaseSql + AndClauses(conds) + OrderBy(f) + PageTail;
    params := params + [("limit", Number(limit)), ("offset", Number(offset))];
  }

  /** Absent page and limit read as 1 and 10, so the first ten payments are listed. */
  lemma PagingDefaults(q: Query)
    requires q.page.None? && q.limit.None?
    ensures IntOr(q.page, 1) == Fin(1) && IntOr(q.limit, 10) == Fin(10)
    ensures Mul(Sub(IntOr(q.page, 1), 1), IntOr(q.limit, 10)) == Fin(0)
  {
  }

  /** A page and limit written as whole numbers give offset (page - 1) * limit. */
  lemma OffsetOfWholeNumbers(page: int, limit: int)
    ensures var p, l := IntOr(Some(IntToString(page)), 1), IntOr(Some(IntToString(limit)), 10);
            p == Fin(page) && l == Fin(limit) && Mul(Sub(p, 1), l) == Fin((page - 1) * limit)
  {
    ParseIntRoundTrip(page);
    ParseIntRoundTrip(limit);
  }

  /** 'rental', 'late_fee' and 'other' each add their condition and only it; 'all' or absent adds none. */
  lemma TypeFilter(q: Query)
    ensures var t, cs := ReadFilters(q).paymentType, Conditions(ReadFilters(q));
            (RentalType in cs <==> t == Some("rental"))
            && (LateFeeType in cs <==> t == Some("late_fee"))
            && (OtherType in cs <==> t == Some("other"))
            && (q.paymentType.None? || q.paymentType == Some("all") ==>
                  RentalType !in cs && LateFeeType !in cs && OtherType !in cs)
  {
    var f := ReadFilters(q);
    TypeCondOnly(f, RentalType);
    TypeCondOnly(f, LateFeeType);
    TypeCondOnly(f, OtherType);
    var t := f.paymentType;
    assert t.Some? ==> t == q.paymentType;
    if t.Some? && t.value == "rental" {
      assert TypeConds(t) == [RentalType];
    } else if t.Some? && t.value == "late_fee" {
      assert TypeConds(t) == [LateFeeType];
    } else if t.Some? && t.value == "other" {
      assert TypeConds(t) == [OtherType];
    } else {
      assert TypeConds(t) == [];
    }
  }

  /** Only the payment-type filter contributes a type condition. */
  lemma TypeCondOnly(f: Filters, c: Cond)
    requires c.RentalType? || c.LateFeeType? || c.OtherType?
    ensures c in Conditions(f) <==> c in TypeConds(f.paymentType)
  {
    var a1, a2, a3 := When(Given(f.customerId), CustomerIs), When(Given(f.staffId), StaffIs),
                      When(Given(f.rentalId), RentalIs);
    var p1, p2, p3, p4 := When(Given(f.minAmount), AmountAtLeast), When(Given(f.maxAmount), AmountAtMost),
                          When(f.startDate.Some?, PaidFrom), When(f.endDate.Some?, PaidBy);
    assert Conditions(f) == a1 + a2 + a3 + TypeConds(f.paymentType) + p1 + p2 + p3 + p4;
    assert c !in a1 && c !in a2 && c !in a3 && c !in p1 && c !in p2 && c !in p3 && c !in p4;
  }

  // ---- payment_type ----

  /**
   * What the list query's LEFT JOINs see of a payment's rental: nothing, or
   * its return date (null while out) and due date as comparable day numbers.
   */
  datatype RentalInfo = RentalInfo(returnDate: Option<int>, dueDate: int)

  datatype PaymentType = Other | RentalPayment | LateFee

  /** The `CASE` computing payment_type. */
  function Classify(rental: Option<RentalInfo>): PaymentType {
    if rental.None? then Other
    else if rental.value.returnDate.None? then RentalPayment
    else if rental.value.returnDate.value > rental.value.dueDate then LateFee
    else RentalPayment
  }

  /** Whether a type condition holds for a row; a comparison with NULL is not true. */
  predicate Holds(c: Cond, rental: Option<RentalInfo>)
    requires c.RentalType? || c.LateFeeType? || c.OtherType?
  {
    match c
    case RentalType => rental.None? || rental.value.returnDate.None? || rental.value.returnDate.value <= rental.value.dueDate
    case LateFeeType => rental.Some? && rental.value.returnDate.Some? && rental.value.returnDate.value > rental.value.dueDate
    case OtherType => rental.None?
  }

  /**
   * Every payment gets exactly one label, and the 'late_fee' and 'other'
   * filters select exactly the payments with that label. The 'rental' filter
   * selects every 'rental' payment and, because a missing rental has a NULL
   * return date, every 'other' payment too.
   */
  lemma TypeFiltersAgainstLabels(rental: Option<RentalInfo>)
    ensures Holds(LateFeeType, rental) <==> Classify(rental) == LateFee
    ensures Holds(OtherType, rental) <==> Classify(rental) == Other
    ensures Holds(RentalType, rental) <==> Classify(rental) == RentalPayment || Classify(rental) == Other
  {
  }

  /** A payment without a rental passes the 'rental' filter although it is labelled 'other'. */
  lemma RentalFilterAdmitsOther()
    ensures Holds(RentalType, None) && Classify(None) == Other
  {
  }

  // ---- pagination block and POST ----

  datatype PageInfo = PageInfo(total: int, page: Num, limit: Num, pages: Num)

  /**
   * The pagination block: `total` is the count row's total or 0 when the
   * row or total is missing or 0; `pages` is the ceiling of total over limit
   * when a row exists, else 0.
   */
  function Pagination(countRow: Option<int>, page: Num, limit: Num): (r: PageInfo)
    ensures r.page == page && r.limit == limit
    ensures countRow.None? ==> r.total == 0 && r.pages == Fin(0)
    ensures countRow.Some? ==> r.total == countRow.value
  {
    PageInfo(if countRow.Some? then countRow.value else 0, page, limit,
             if countRow.Some? then CeilDivNum(countRow.value, limit) else Fin(0))
  }

  /** With a positive limit and a count row, pages is the ceiling of total over limit. */
  lemma PagesIsCeiling(total: int, page: Num, limit: int)
    requires limit > 0
    ensures var r := Pagination(Some(total), page, Fin(limit));
            r.pages.Fin? && (r.pages.v - 1) * limit < total <= r.pages.v * limit
  {
  }

  /** `rental_id || null`. */
  function OrNull(v: Value): Value {
    if Truthy(v) then v else Null
  }

  /**
   * POST: a 400 (nothing inserted) when customer_id, staff_id or amount is
   * falsy; otherwise the insert's named parameters, with a falsy rental_id
   * stored as null.
   */
  function PostParams(body: DbUtils.Object): (r: Option<DbUtils.Object>)
    ensures r.None? <==> !Truthy(Field(body, "customer_id")) || !Truthy(Field(body, "staff_id"))
                         || !Truthy(Field(body, "amount"))
  {
    var customerId, staffId, rentalId, amount :=
      Field(body, "customer_id"), Field(body, "staff_id"), Field(body, "rental_id"), Field(body, "amount");
    if !Truthy(customerId) || !Truthy(staffId) || !Truthy(amount) then None
    else Some([("customer_id", customerId), ("staff_id", staffId), ("rental_id", OrNull(rentalId)),
               ("amount", amount)])
  }

  /** The insert binds every named placeholder it has, a missing rental as null. */
  lemma PostBindsAll(body: DbUtils.Object)
    requires PostParams(body).Some?
    ensures var ps := PostParams(body).value;
            DbUtils.Bind(ps, ":customer_id") == Some(Field(body, "customer_id"))
            && DbUtils.Bind(ps, ":staff_id") == Some(Field(body, "staff_id"))
            && DbUtils.Bind(ps, ":amount") == Some(Field(body, "amount"))
            && (DbUtils.Bind(ps, ":rental_id") == Some(Null) <==> !Truthy(Field(body, "rental_id")))
            && (Truthy(Field(body, "rental_id")) ==> DbUtils.Bind(ps, ":rental_id") == Some(Field(body, "rental_id")))
  {
    var ps := PostParams(body).value;
    assert ":customer_id"[1..] == "customer_id";
    assert ":staff_id"[1..] == "staff_id";
    assert ":amount"[1..] == "amount";
    assert ":rental_id"[1..] == "rental_id";
    DbUtils.LookupAt(ps, 0);
    DbUtils.LookupAt(ps, 1);
    DbUtils.LookupAt(ps, 2);
    DbUtils.LookupAt(ps, 3);
  }
}
