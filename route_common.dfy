/**
 * Request shaping shared by the route handlers: reading query-string values,
 * clamping page and page size, picking a whitelisted sort column, joining
 * the filter conditions into a WHERE clause and checking the required fields
 * of a JSON body in order.
 */
module RouteCommon {
  import opened Wrappers
  import opened JsValues
  import opened Strings
  import DbUtils

  /** `searchParams.get(name) || fallback`: an absent or empty value takes the fallback. */
  function OrElse(v: Option<string>, fallback: string): (r: string)
    ensures v.Some? && v.value != "" ==> r == v.value
    ensures v.None? || v.value == "" ==> r == fallback
  {
    if v.Some? && v.value != "" then v.value else fallback
  }

  /** `searchParams.get(name) || undefined`: only a non-empty value is kept. */
  function NonEmpty(v: Option<string>): (r: Option<string>)
    ensures r.Some? <==> v.Some? && v.value != ""
    ensures r.Some? ==> r == v
  {
    if v.Some? && v.value != "" then v else None
  }

  /** `searchParams.has(name) ? Number(searchParams.get(name)) : undefined`. */
  function NumberParam(v: Option<string>): (r: Option<Num>)
    ensures r.Some? <==> v.Some?
    ensures r.Some? ==> r.value == ToNumber(v.value)
  {
    if v.Some? then Some(ToNumber(v.value)) else None
  }

  /** `if (filters.x)` on an optional number: absent, 0 and NaN are all skipped. */
  predicate Given(n: Option<Num>) {
    n.Some? && NumTruthy(n.value)
  }

  /**
   * `get(name) ? parseInt(get(name)) : undefined` (or `: null`): only a
   * non-empty value is read, and then whatever `parseInt` makes of it.
   */
  function IntIfGiven(v: Option<string>): (r: Option<Num>)
    ensures r.Some? <==> v.Some? && v.value != ""
    ensures r.Some? ==> r.value == ParseInt(v.value)
  {
    if v.Some? && v.value != "" then Some(ParseInt(v.value)) else None
  }

  /** `has('page') ? Math.max(1, Number(get('page'))) : 1`. */
  function ClampedPage(raw: Option<string>): Num
  {
    if raw.Some? then Max(Fin(1), ToNumber(raw.value)) else Fin(1)
  }

  /** `has('pageSize') ? Math.min(100, Math.max(1, Number(get('pageSize')))) : 10`. */
  function ClampedPageSize(raw: Option<string>): Num
  {
    if raw.Some? then Min(Fin(100), Max(Fin(1), ToNumber(raw.value))) else Fin(10)
  }

  /**
   * For a numeric value (any text `Number` reads as a number) page is at
   * least 1 and page size lies in 1..100; absent values give 1 and 10. Only
   * a non-numeric value gives NaN, and an in-range value is kept as is.
   */
  lemma ClampedPaging(page: Option<string>, pageSize: Option<string>)
    ensures page.None? ==> ClampedPage(page) == Fin(1)
    ensures pageSize.None? ==> ClampedPageSize(pageSize) == Fin(10)
    ensures ClampedPage(page).NaN? <==> page.Some? && ToNumber(page.value).NaN?
    ensures ClampedPageSize(pageSize).NaN? <==> pageSize.Some? && ToNumber(pageSize.value).NaN?
    ensures !ClampedPage(page).NaN? ==> ClampedPage(page).Fin? && ClampedPage(page).v >= 1
    ensures !ClampedPageSize(pageSize).NaN? ==>
              ClampedPageSize(pageSize).Fin? && 1 <= ClampedPageSize(pageSize).v <= 100
    ensures pageSize.Some? && ToNumber(pageSize.value).Fin? && 1 <= ToNumber(pageSize.value).v <= 100 ==>
              ClampedPageSize(pageSize) == ToNumber(pageSize.value)
  {
    if pageSize.Some? {
      ClampBounds(1, 100, ToNumber(pageSize.value));
    }
  }

  /** `parseInt(get(name) || fallback)`: the fallback text is read when the value is absent or empty. */
  function IntParam(v: Option<string>, fallback: string): Num
  {
    ParseInt(OrElse(v, fallback))
  }

  /** An absent or empty value reads as the fallback number. */
  lemma IntParamDefault(v: Option<string>, fallback: int)
    requires v.None? || v.value == ""
    ensures IntParam(v, IntToString(fallback)) == Fin(fallback)
  {
    ParseIntRoundTrip(fallback);
  }

  /** `validSortColumns.includes(sortBy) ? sortBy : fallback`. */
  function SortColumn(sortBy: string, valid: seq<string>, fallback: string): (col: string)
  {
    if sortBy in valid then sortBy else fallback
  }

  /** The chosen column is always one the whitelist allows, and a listed request is honoured. */
  lemma SortColumnWhitelisted(sortBy: string, valid: seq<string>, fallback: string)
    requires fallback in valid
    ensures SortColumn(sortBy, valid, fallback) in valid
    ensures sortBy in valid <==> SortColumn(sortBy, valid, fallback) == sortBy
  {
  }

  /** One guarded `push`: the item when the guard holds, nothing otherwise. */
  function When<T>(b: bool, x: T): seq<T> {
    if b then [x] else []
  }

  /** ` WHERE c1 AND c2 ...`, or nothing when there is no condition. */
  function Where(conds: seq<string>): (w: string)
    ensures conds == [] <==> w == ""
    ensures conds != [] ==> |w| >= 7 && w[..7] == " WHERE "
  {
    if conds == [] then "" else " WHERE " + Join(conds, " AND ")
  }

  /** A WHERE clause over conditions with one `?` marker each holds one marker per condition. */
  lemma WhereMarkers(conds: seq<string>)
    requires forall i :: 0 <= i < |conds| ==> CountChar(conds[i], '?') == 1
    ensures CountChar(Where(conds), '?') == |conds|
  {
    if conds != [] {
      assert NoChar(" WHERE ", '?') && NoChar(" AND ", '?');
      CountCharJoin(conds, " AND ", '?');
      CountCharAppend(" WHERE ", Join(conds, " AND "), '?');
    }
  }

  /** What a handler sends back: a success body, or an error status with its message. */
  datatype ApiResponse = Success | Failure(status: int, message: string)

  /**
   * How SQLite matches an integer key column against an id bound as text: a
   * text that reads as an integer matches that key, any other text nothing.
   */
  function SqlId(id: string): (r: Option<int>)
    ensures r.Some? ==> id != "" && ToNumber(id) == Fin(r.value)
  {
    if id != "" && ToNumber(id).Fin? then Some(ToNumber(id).v) else None
  }

  /** `body[name]`: a missing property reads as undefined. */
  function Field(body: DbUtils.Object, name: string): Value
  {
    DbUtils.Lookup(body, name).GetOr(Undefined)
  }

  /** The first required field whose value in the body is falsy. */
  function FirstFalsy(fields: seq<string>, body: DbUtils.Object): (r: Option<string>)
    ensures r.None? <==> forall i :: 0 <= i < |fields| ==> Truthy(Field(body, fields[i]))
    ensures r.Some? ==> exists i :: 0 <= i < |fields| && fields[i] == r.value
                                    && !Truthy(Field(body, fields[i]))
                                    && forall j :: 0 <= j < i ==> Truthy(Field(body, fields[j]))
  {
    if fields == [] then None
    else if !Truthy(Field(body, fields[0])) then Some(fields[0])
    else
      var r := FirstFalsy(fields[1..], body);
      assert forall i :: 0 <= i < |fields[1..]| ==> fields[1..][i] == fields[i + 1];
      if r.Some? then
        assert exists i :: 1 <= i < |fields| && fields[i] == r.value && !Truthy(Field(body, fields[i]))
                           && forall j :: 0 <= j < i ==> Truthy(Field(body, fields[j]));
        r
      else r
  }

  /**
   * The `for (const field of requiredFields)` loop: returns the field named
   * in the 400 response, or nothing when every field is present.
   */
  method CheckRequired(fields: seq<string>, body: DbUtils.Object) returns (missing: Option<string>)
    ensures missing == FirstFalsy(fields, body)
  {
    var i := 0;
    while i < |fields|
      invariant 0 <= i <= |fields|
      invariant FirstFalsy(fields, body) == FirstFalsy(fields[i..], body)
    {
      assert fields[i..][1..] == fields[i + 1..];
      if !Truthy(Field(body, fields[i])) {
        return Some(fields[i]);
      }
      i := i + 1;
    }
    missing := None;
  }
}
