/**
 * The customers endpoint of the DVD-rental app. GET reads name, email,
 * active and store filters into AND-joined conditions with named
 * parameters, a whitelisted ORDER BY and a clamped page. POST checks the
 * required fields and stores an address and then a customer pointing at it,
 * both or neither.
 */
module CustomersRoute {
  import opened Wrappers
  import opened JsValues
  import opened Strings
  import opened RouteCommon
  import DbUtils

  /** `searchParams.get(...)` for each name the handler reads (None when absent). */
  datatype Query = Query(name: Option<string>, email: Option<string>, active: Option<string>,
                         storeId: Option<string>, sortBy: Option<string>, sortDirection: Option<string>,
                         page: Option<string>, pageSize: Option<string>)

  datatype Direction = Asc | Desc

  /** The `filters` object; `active` is absent unless the parameter is present. */
  datatype Filters = Filters(name: Option<string>, email: Option<string>, active: Option<bool>,
                             storeId: Option<Num>, sortBy: string, sortDirection: Direction)

  function ReadFilters(q: Query): (f: Filters)
  {
    Filters(NonEmpty(q.name), NonEmpty(q.email),
            if q.active.Some? then Some(q.active.value == "true") else None,
            NumberParam(q.storeId), OrElse(q.sortBy, "last_name"),
            if q.sortDirection == Some("desc") then Desc else Asc)
  }

  datatype Cond = NameLike | EmailLike | ActiveIs | StoreIs

  function CondSql(c: Cond): string {
    match c
    case NameLike => "(c.first_name LIKE :name OR c.last_name LIKE :name)"
    case EmailLike => "c.email LIKE :email"
    case ActiveIs => "c.active = :active"
    case StoreIs => "c.store_id = :storeId"
  }

  function CondTexts(cs: seq<Cond>): (ts: seq<string>)
    ensures |ts| == |cs|
  {
    seq(|cs|, i requires 0 <= i < |cs| => CondSql(cs[i]))
  }

  /** The conditions in push order. */
  function Conditions(f: Filters): seq<Cond> {
    When(f.name.Some?, NameLike) + When(f.email.Some?, EmailLike) + When(f.active.Some?, ActiveIs)
    + When(Given(f.storeId), StoreIs)
  }

  /** A substring pattern: `%text%`. */
  function Like(text: string): string {
    "%" + text + "%"
  }

  /** The parameter each condition binds. */
  function BindingOf(c: Cond, f: Filters): (string, Value) {
    match c
    case NameLike => ("name", Str(Like(f.name.GetOr(""))))
    case EmailLike => ("email", Str(Like(f.email.GetOr(""))))
    case ActiveIs => ("active", Number(Fin(if f.active == Some(true) then 1 else 0)))
    case StoreIs => ("storeId", Number(f.storeId.GetOr(NaN)))
  }

  function Bindings(cs: seq<Cond>, f: Filters): (ps: DbUtils.Object)
    ensures |ps| == |cs|
  {
    if cs == [] then [] else Bindings(cs[..|cs| - 1], f) + [BindingOf(cs[|cs| - 1], f)]
  }

  /** One `if (...) { whereConditions.push(...); sqlParams.x = ... }` step. */
  method PushIf(conds: seq<Cond>, params: DbUtils.Object, b: bool, c: Cond, binding: (string, Value), ghost f: Filters)
    returns (conds': seq<Cond>, params': DbUtils.Object)
    requires params == Bindings(conds, f) && binding == BindingOf(c, f)
    ensures conds' == conds + When(b, c) && params' == Bindings(conds', f)
  {
    conds', params' := conds, params;
    if b {
      conds' := conds' + [c];
      params' := params' + [binding];
      assert conds'[..|conds'| - 1] == conds;
    }
  }

  method PushFilters(f: Filters) returns (conds: seq<Cond>, params: DbUtils.Object)
    ensures conds == Conditions(f) && params == Bindings(conds, f)
  {
    conds, params := [], [];
    conds, params := PushIf(conds, params, f.name.Some?, NameLike, ("name", Str(Like(f.name.GetOr("")))), f);
    conds, params := PushIf(conds, params, f.email.Some?, EmailLike, ("email", Str(Like(f.email.GetOr("")))), f);
    conds, params := PushIf(conds, params, f.active.Some?, ActiveIs,
                            ("active", Number(Fin(if f.active == Some(true) then 1 else 0))), f);
    conds, params := PushIf(conds, params, Given(f.storeId), StoreIs, ("storeId", Number(f.storeId.GetOr(NaN))), f);
  }

  const ValidSortColumns: seq<string> :=
    ["last_name", "first_name", "email", "create_date", "rental_count", "total_payments"]

  function OrderBy(f: Filters): string {
    " ORDER BY " + SortColumn(f.sortBy, ValidSortColumns, "last_name")
    + (if f.sortDirection == Desc then " DESC" else " ASC")
  }

  /** The SELECT with its joins and per-customer totals, before any condition. */
  const BaseSql: string :=
    "SELECT c.*, a.address, a.address2, a.district, a.postal_code, a.phone, ci.city as city_name, "
    + "co.country as country_name, rental_count, total_payments FROM customer c JOIN address a "
    + "JOIN city ci JOIN country co"

  /** GET's request shaping: filters pushed in order, then WHERE (only with a condition) and ORDER BY. */
  method ShapeListQuery(q: Query) returns (sql: string, params: DbUtils.Object, page: Num, pageSize: Num)
    ensures var f := ReadFilters(q);
            sql == BaseSql + Where(CondTexts(Conditions(f))) + OrderBy(f)
            && params == Bindings(Conditions(f), f)
            && page == ClampedPage(q.page) && pageSize == ClampedPageSize(q.pageSize)
  {
    var f := ReadFilters(q);
    page := ClampedPage(q.page);
    pageSize := ClampedPageSize(q.pageSize);
    var conds;
    conds, params := PushFilters(f);
    var where := "";
    if |conds| > 0 {
      where := " WHERE " + Join(CondTexts(conds), " AND ");
    }
    sql := BaseSql + where + OrderBy(f);
  }

  /**
   * The name filter matches first or last name and both it and the email
   * filter are substring patterns; each is applied only for a non-empty value.
   */
  lemma TextFilters(q: Query)
    ensures var f := ReadFilters(q);
            var cs, ps := Conditions(f), Bindings(Conditions(f), f);
            (NameLike in cs <==> q.name.Some? && q.name.value != "")
            && (EmailLike in cs <==> q.email.Some? && q.email.value != "")
            && (forall i :: 0 <= i < |cs| && cs[i] == NameLike ==> ps[i] == ("name", Str("%" + q.name.value + "%")))
            && (forall i :: 0 <= i < |cs| && cs[i] == EmailLike ==> ps[i] == ("email", Str("%" + q.email.value + "%")))
  {
    var f := ReadFilters(q);
    var cs := Conditions(f);
    BindingsAt(cs, f);
    ConditionsMembers(f);
    var ps := Bindings(cs, f);
    forall i | 0 <= i < |cs| && cs[i] == NameLike
      ensures ps[i] == ("name", Str("%" + q.name.value + "%"))
    {
      assert f.name == q.name;
    }
    forall i | 0 <= i < |cs| && cs[i] == EmailLike
      ensures ps[i] == ("email", Str("%" + q.email.value + "%"))
    {
      assert f.email == q.email;
    }
  }

  /** Each condition is pushed exactly when its filter is set. */
  lemma ConditionsMembers(f: Filters)
    ensures NameLike in Conditions(f) <==> f.name.Some?
    ensures EmailLike in Conditions(f) <==> f.email.Some?
    ensures ActiveIs in Conditions(f) <==> f.active.Some?
    ensures StoreIs in Conditions(f) <==> Given(f.storeId)
  {
    var a, b, c, d := When(f.name.Some?, NameLike), When(f.email.Some?, EmailLike),
                      When(f.active.Some?, ActiveIs), When(Given(f.storeId), StoreIs);
    assert Conditions(f) == a + b + c + d;
    assert forall x :: x in Conditions(f) <==> x in a || x in b || x in c || x in d;
  }

  /**
   * The active filter is applied whenever the parameter is present, whatever
   * its text, and binds 1 exactly for 'true'.
   */
  lemma ActiveFilter(q: Query)
    ensures var f := ReadFilters(q);
            var cs, ps := Conditions(f), Bindings(Conditions(f), f);
            (ActiveIs in cs <==> q.active.Some?)
            && forall i :: 0 <= i < |cs| && cs[i] == ActiveIs ==>
                 ps[i] == ("active", Number(Fin(if q.active.value == "true" then 1 else 0)))
  {
    var f := ReadFilters(q);
    var cs := Conditions(f);
    BindingsAt(cs, f);
    assert f.active.Some? <==> q.active.Some?;
    assert ActiveIs in cs <==> ActiveIs in When(f.active.Some?, ActiveIs);
    if q.active.Some? {
      assert f.active == Some(q.active.value == "true");
      assert BindingOf(ActiveIs, f) == ("active", Number(Fin(if q.active.value == "true" then 1 else 0)));
    }
  }

  /** The store filter is applied only for a truthy number. */
  lemma StoreFilter(q: Query)
    ensures StoreIs in Conditions(ReadFilters(q)) <==> Given(NumberParam(q.storeId))
  {
  }

  /** The i-th binding belongs to the i-th condition. */
  lemma {:induction false} BindingsAt(cs: seq<Cond>, f: Filters)
    ensures forall i :: 0 <= i < |cs| ==> Bindings(cs, f)[i] == BindingOf(cs[i], f)
  {
    if cs != [] {
      var init := cs[..|cs| - 1];
      BindingsAt(init, f);
      assert forall i :: 0 <= i < |init| ==> cs[i] == init[i];
    }
  }

  /** ORDER BY is DESC exactly for 'desc' and ASC otherwise; the column falls back to last_name. */
  lemma SortRule(q: Query)
    ensures var f := ReadFilters(q);
            (f.sortDirection == Desc <==> q.sortDirection == Some("desc"))
            && SortColumn(f.sortBy, ValidSortColumns, "last_name") in ValidSortColumns
            && (q.sortBy.None? ==> SortColumn(f.sortBy, ValidSortColumns, "last_name") == "last_name")
  {
    SortColumnWhitelisted(ReadFilters(q).sortBy, ValidSortColumns, "last_name");
  }

  // ---- POST ----

  const RequiredFields: seq<string> :=
    ["store_id", "first_name", "last_name", "email", "address", "district", "city_id", "phone"]

  datatype Address = Address(address: Value, address2: Value, district: Value, cityId: Value,
                             postalCode: Value, phone: Value, lastUpdate: string)

  datatype Customer = Customer(storeId: Value, firstName: Value, lastName: Value, email: Value,
                               addressId: int, active: int, createDate: string)

  datatype Response = Created(customerId: int) | BadRequest(field: string) | ServerError

  /** `x || null`. */
  function OrNull(v: Value): Value {
    if Truthy(v) then v else Null
  }

  /** `active !== undefined ? (active ? 1 : 0) : 1`. */
  function ActiveFlag(v: Value): (flag: int)
    ensures v.Undefined? ==> flag == 1
    ensures !v.Undefined? ==> (flag == 1 <==> Truthy(v))
  {
    if !v.Undefined? then (if Truthy(v) then 1 else 0) else 1
  }

  function AddressOf(body: DbUtils.Object, now: string): Address {
    Address(Field(body, "address"), OrNull(Field(body, "address2")), Field(body, "district"),
            Field(body, "city_id"), OrNull(Field(body, "postal_code")), Field(body, "phone"), now)
  }

  function CustomerOf(body: DbUtils.Object, addressId: int, now: string): Customer {
    Customer(Field(body, "store_id"), Field(body, "first_name"), Field(body, "last_name"),
             Field(body, "email"), addressId, ActiveFlag(Field(body, "active")), now)
  }

  /** The two tables POST writes; an insert may be refused by the engine (a constraint). */
  class CustomerStore {
    var addresses: map<int, Address>
    var customers: map<int, Customer>
    var nextAddressId: int
    var nextCustomerId: int

    /** Row ids are handed out above every id in use. */
    ghost predicate Valid()
      reads this
    {
      (forall id :: id in addresses ==> id < nextAddressId)
      && (forall id :: id in customers ==> id < nextCustomerId)
    }

    constructor(addresses: map<int, Address>, customers: map<int, Customer>, nextAddressId: int, nextCustomerId: int)
      requires forall id :: id in addresses ==> id < nextAddressId
      requires forall id :: id in customers ==> id < nextCustomerId
      ensures Valid()
      ensures this.addresses == addresses && this.customers == customers
      ensures this.nextAddressId == nextAddressId && this.nextCustomerId == nextCustomerId
    {
      this.addresses, this.customers := addresses, customers;
      this.nextAddressId, this.nextCustomerId := nextAddressId, nextCustomerId;
    }

    /**
     * `POST /api/customers`: 400 naming the first falsy required field;
     * otherwise, in one transaction, the address and then the customer with
     * that address's id. When either insert is refused the transaction rolls
     * back and neither row is kept.
     */
    method Post(body: DbUtils.Object, now: string, addressInsertOk: bool, customerInsertOk: bool)
      returns (r: Response)
      requires Valid()
      modifies this
      ensures Valid()
      ensures FirstFalsy(RequiredFields, body).Some? ==>
                r == BadRequest(FirstFalsy(RequiredFields, body).value)
                && addresses == old(addresses) && customers == old(customers)
                && nextAddressId == old(nextAddressId) && nextCustomerId == old(nextCustomerId)
      ensures FirstFalsy(RequiredFields, body).None? && !(addressInsertOk && customerInsertOk) ==>
                r == ServerError && addresses == old(addresses) && customers == old(customers)
                && nextAddressId == old(nextAddressId) && nextCustomerId == old(nextCustomerId)
      ensures FirstFalsy(RequiredFields, body).None? && addressInsertOk && customerInsertOk ==>
                var aid, cid := old(nextAddressId), old(nextCustomerId);
                r == Created(cid) && aid !in old(addresses) && cid !in old(customers)
                && addresses == old(addresses)[aid := AddressOf(body, now)]
                && customers == old(customers)[cid := CustomerOf(body, aid, now)]
                && nextAddressId == aid + 1 && nextCustomerId == cid + 1
    {
      var missing := CheckRequired(RequiredFields, body);
      if missing.Some? {
        return BadRequest(missing.value);
      }
      // BEGIN
      var savedAddresses, savedCustomers := addresses, customers;
      var savedNextAddress, savedNextCustomer := nextAddressId, nextCustomerId;
      if !addressInsertOk {
        return ServerError;
      }
      var addressId := nextAddressId;
      addresses := addresses[addressId := AddressOf(body, now)];
      nextAddressId := nextAddressId + 1;
      if !customerInsertOk {
        // ROLLBACK
        addresses, customers := savedAddresses, savedCustomers;
        nextAddressId, nextCustomerId := savedNextAddress, savedNextCustomer;
        return ServerError;
      }
      var customerId := nextCustomerId;
      customers := customers[customerId := CustomerOf(body, addressId, now)];
      nextCustomerId := nextCustomerId + 1;
      // COMMIT
      r := Created(customerId);
    }
  }

  /** A new customer is active unless the body says otherwise with a falsy value. */
  lemma NewCustomerActiveByDefault(body: DbUtils.Object, addressId: int, now: string)
    requires DbUtils.Lookup(body, "active").None?
    ensures CustomerOf(body, addressId, now).active == 1
  {
  }
}
