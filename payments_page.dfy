/**
 * The payments list page: its query-string handling (URLSearchParams), the
 * filter apply/reset and sort-toggle handlers, and the five-number page window
 * under the table.
 */
module PaymentsPage {
  import opened Wrappers

  /** A parameter name: the ones the page reads and writes, and any other name as its text. */
  datatype Key =
    | Page | CustomerId | StaffId | PaymentType | StartDate | EndDate
    | MinAmount | MaxAmount | SortBy | SortDirection
    | Other(text: string)

  /** The text of a parameter name as it appears in the URL. */
  function KeyText(k: Key): string {
    match k
    case Page => "page"
    case CustomerId => "customerId"
    case StaffId => "staffId"
    case PaymentType => "paymentType"
    case StartDate => "startDate"
    case EndDate => "endDate"
    case MinAmount => "minAmount"
    case MaxAmount => "maxAmount"
    case SortBy => "sortBy"
    case SortDirection => "sortDirection"
    case Other(t) => t
  }

  /** Reads a name from the URL: a known name becomes its key, any other stays text. */
  function ParseKey(t: string): (k: Key)
    ensures KeyText(k) == t
  {
    match t
    case "page" => Page
    case "customerId" => CustomerId
    case "staffId" => StaffId
    case "paymentType" => PaymentType
    case "startDate" => StartDate
    case "endDate" => EndDate
    case "minAmount" => MinAmount
    case "maxAmount" => MaxAmount
    case "sortBy" => SortBy
    case "sortDirection" => SortDirection
    case _ => Other(t)
  }

  /** Two parsed names are equal exactly when their texts are. */
  lemma ParseKeyInjective(s: string, t: string)
    ensures ParseKey(s) == ParseKey(t) <==> s == t
  {
    if ParseKey(s) == ParseKey(t) {
      assert KeyText(ParseKey(s)) == KeyText(ParseKey(t));
    }
  }

  /** A URLSearchParams object: its name/value pairs in order. */
  type Params = seq<(Key, string)>

  /** `params.get(name)`: the value of the first pair with that name. */
  function Get(ps: Params, name: Key): (r: Option<string>)
  {
    if ps == [] then None
    else if ps[0].0 == name then Some(ps[0].1)
    else Get(ps[1..], name)
  }

  /** The pairs whose name is not `name`, in order. */
  function Without(ps: Params, name: Key): (r: Params)
    ensures forall i :: 0 <= i < |r| ==> r[i].0 != name
    ensures |r| <= |ps|
  {
    if ps == [] then []
    else if ps[0].0 == name then Without(ps[1..], name)
    else [ps[0]] + Without(ps[1..], name)
  }

  /**
   * `params.set(name, value)`: the first pair with that name gets the value and
   * every later pair with the name is removed; with no such pair, one is appended.
   */
  function Set(ps: Params, name: Key, value: string): Params
  {
    if ps == [] then [(name, value)]
    else if ps[0].0 == name then [(name, value)] + Without(ps[1..], name)
    else [ps[0]] + Set(ps[1..], name, value)
  }

  /** How many pairs carry the name. */
  function Count(ps: Params, name: Key): nat {
    if ps == [] then 0 else (if ps[0].0 == name then 1 else 0) + Count(ps[1..], name)
  }

  lemma {:induction false} WithoutKeeps(ps: Params, name: Key, other: Key)
    requires other != name
    ensures Get(Without(ps, name), other) == Get(ps, other)
    ensures Count(Without(ps, name), other) == Count(ps, other)
  {
    if ps != [] {
      WithoutKeeps(ps[1..], name, other);
    }
  }

  lemma {:induction false} WithoutRemoves(ps: Params, name: Key)
    ensures Count(Without(ps, name), name) == 0
  {
    if ps != [] {
      WithoutRemoves(ps[1..], name);
    }
  }

  /** After `set`, `get` of that name gives the new value and the name occurs exactly once. */
  lemma {:induction false} SetThenGet(ps: Params, name: Key, value: string)
    ensures Get(Set(ps, name, value), name) == Some(value)
    ensures Count(Set(ps, name, value), name) == 1
  {
    if ps != [] {
      if ps[0].0 == name {
        WithoutRemoves(ps[1..], name);
      } else {
        SetThenGet(ps[1..], name, value);
      }
    }
  }

  /** `set` leaves every other name's value and multiplicity alone. */
  lemma {:induction false} SetKeepsOthers(ps: Params, name: Key, value: string, other: Key)
    requires other != name
    ensures Get(Set(ps, name, value), other) == Get(ps, other)
    ensures Count(Set(ps, name, value), other) == Count(ps, other)
  {
    if ps != [] {
      if ps[0].0 == name {
        assert Set(ps, name, value) == [(name, value)] + Without(ps[1..], name);
        WithoutKeeps(ps[1..], name, other);
      } else {
        var r := Set(ps, name, value);
        assert r == [ps[0]] + Set(ps[1..], name, value);
        assert r[1..] == Set(ps[1..], name, value);
        SetKeepsOthers(ps[1..], name, value, other);
      }
    }
  }

  /** `get` after `set`, for every name at once. */
  lemma SetGet(ps: Params, name: Key, value: string)
    ensures forall k :: Get(Set(ps, name, value), k) == if k == name then Some(value) else Get(ps, k)
  {
    forall k ensures Get(Set(ps, name, value), k) == if k == name then Some(value) else Get(ps, k) {
      if k == name {
        SetThenGet(ps, name, value);
      } else {
        SetKeepsOthers(ps, name, value, k);
      }
    }
  }

  /** The value if it is present, otherwise nothing. */
  function When(present: bool, value: string): Option<string>
  {
    if present then Some(value) else None
  }

  /** `if (present) params.set(name, value)`. */
  method SetIf(ps: Params, name: Key, value: string, present: bool) returns (r: Params)
    ensures present ==> Get(r, name) == Some(value)
    ensures Get(ps, name) == None ==> Get(r, name) == When(present, value)
    ensures forall k :: k != name ==> Get(r, k) == Get(ps, k)
  {
    r := ps;
    if present {
      SetGet(ps, name, value);
      r := Set(ps, name, value);
    }
  }

  /** `params.toString()` (percent-encoding is not modelled). */
  function QueryString(ps: Params): string {
    if ps == [] then ""
    else KeyText(ps[0].0) + "=" + ps[0].1 + (if |ps| == 1 then "" else "&" + QueryString(ps[1..]))
  }

  /** The new sort column and direction after clicking a column header. */
  function SortClick(sortBy: string, sortDirection: string, column: string): (r: (string, string))
    ensures sortBy == column ==> r.0 == sortBy && r.1 == (if sortDirection == "asc" then "desc" else "asc")
    ensures sortBy != column ==> r == (column, "desc")
  {
    if sortBy == column then (sortBy, if sortDirection == "asc" then "desc" else "asc")
    else (column, "desc")
  }

  /**
   * Two clicks on the current column restore the direction when it is "asc" or
   * "desc"; any other direction read from the URL ends as "desc".
   */
  lemma SortClickTwice(sortBy: string, sortDirection: string)
    ensures var once := SortClick(sortBy, sortDirection, sortBy);
            var twice := SortClick(once.0, once.1, sortBy);
            twice.0 == sortBy
            && (sortDirection in {"asc", "desc"} ==> twice.1 == sortDirection)
            && (sortDirection !in {"asc", "desc"} ==> twice.1 == "desc")
  {
  }

  /** The id and type filters of the form, each set only when given. */
  method SetIdFilters(ps: Params, customerId: string, staffId: string, paymentType: string) returns (q: Params)
    requires Get(ps, CustomerId) == None && Get(ps, StaffId) == None && Get(ps, PaymentType) == None
    ensures Get(q, CustomerId) == When(customerId != "", customerId)
    ensures Get(q, StaffId) == When(staffId != "", staffId)
    ensures Get(q, PaymentType) == When(paymentType != "all", paymentType)
    ensures forall k :: k != CustomerId && k != StaffId && k != PaymentType ==> Get(q, k) == Get(ps, k)
  {
    q := SetIf(ps, CustomerId, customerId, customerId != "");
    q := SetIf(q, StaffId, staffId, staffId != "");
    q := SetIf(q, PaymentType, paymentType, paymentType != "all");
  }

  /** The date and amount filters of the form, each set only when non-empty. */
  method SetRangeFilters(ps: Params, startDate: string, endDate: string, minAmount: string, maxAmount: string)
    returns (q: Params)
    requires Get(ps, StartDate) == None && Get(ps, EndDate) == None
    requires Get(ps, MinAmount) == None && Get(ps, MaxAmount) == None
    ensures Get(q, StartDate) == When(startDate != "", startDate)
    ensures Get(q, EndDate) == When(endDate != "", endDate)
    ensures Get(q, MinAmount) == When(minAmount != "", minAmount)
    ensures Get(q, MaxAmount) == When(maxAmount != "", maxAmount)
    ensures forall k :: k != StartDate && k != EndDate && k != MinAmount && k != MaxAmount ==>
              Get(q, k) == Get(ps, k)
  {
    q := SetIf(ps, StartDate, startDate, startDate != "");
    q := SetIf(q, EndDate, endDate, endDate != "");
    q := SetIf(q, MinAmount, minAmount, minAmount != "");
    q := SetIf(q, MaxAmount, maxAmount, maxAmount != "");
  }

  /**
   * The query the filter form produces: a fresh parameter list with page 1,
   * each non-empty filter (the payment type unless it is "all") and the sort.
   */
  method BuildFilterQuery(customerId: string, staffId: string, paymentType: string, startDate: string,
                          endDate: string, minAmount: string, maxAmount: string,
                          sortBy: string, sortDirection: string) returns (q: Params)
    ensures Get(q, Page) == Some("1")
    ensures Get(q, CustomerId) == When(customerId != "", customerId)
    ensures Get(q, StaffId) == When(staffId != "", staffId)
    ensures Get(q, PaymentType) == When(paymentType != "all", paymentType)
    ensures Get(q, StartDate) == When(startDate != "", startDate)
    ensures Get(q, EndDate) == When(endDate != "", endDate)
    ensures Get(q, MinAmount) == When(minAmount != "", minAmount)
    ensures Get(q, MaxAmount) == When(maxAmount != "", maxAmount)
    ensures Get(q, SortBy) == Some(sortBy) && Get(q, SortDirection) == Some(sortDirection)
  {
    q := SetIf([], Page, "1", true);
    q := SetIdFilters(q, customerId, staffId, paymentType);
    q := SetRangeFilters(q, startDate, endDate, minAmount, maxAmount);
    q := SetIf(q, SortBy, sortBy, true);
    q := SetIf(q, SortDirection, sortDirection, true);
  }

  /** The page's filter and sort state, the current URL's parameters and the URLs pushed to the router. */
  class PaymentsPageState {
    var filterCustomerId: string
    var filterStaffId: string
    var filterPaymentType: string
    var filterStartDate: string
    var filterEndDate: string
    var filterMinAmount: string
    var filterMaxAmount: string
    var sortBy: string
    var sortDirection: string
    var searchParams: Params
    var pushed: seq<string>

    /** The initial state over the parameters of the current URL, names as written there. */
    constructor (url: seq<(string, string)>)
      ensures filterCustomerId == "" && filterStaffId == "" && filterPaymentType == "all"
      ensures filterStartDate == "" && filterEndDate == "" && filterMinAmount == "" && filterMaxAmount == ""
      ensures sortBy == "payment_date" && sortDirection == "desc"
      ensures |searchParams| == |url| && pushed == []
      ensures forall i :: 0 <= i < |url| ==> searchParams[i] == (ParseKey(url[i].0), url[i].1)
    {
      filterCustomerId, filterStaffId, filterPaymentType := "", "", "all";
      filterStartDate, filterEndDate, filterMinAmount, filterMaxAmount := "", "", "", "";
      sortBy, sortDirection := "payment_date", "desc";
      searchParams := seq(|url|, i requires 0 <= i < |url| => (ParseKey(url[i].0), url[i].1));
      pushed := [];
    }

    /** Applies the filter form and navigates to the resulting query. */
    method HandleFilterApply() returns (q: Params)
      modifies this`pushed
      ensures Get(q, Page) == Some("1")
      ensures Get(q, CustomerId) == When(filterCustomerId != "", filterCustomerId)
      ensures Get(q, StaffId) == When(filterStaffId != "", filterStaffId)
      ensures Get(q, PaymentType) == When(filterPaymentType != "all", filterPaymentType)
      ensures Get(q, StartDate) == When(filterStartDate != "", filterStartDate)
      ensures Get(q, EndDate) == When(filterEndDate != "", filterEndDate)
      ensures Get(q, MinAmount) == When(filterMinAmount != "", filterMinAmount)
      ensures Get(q, MaxAmount) == When(filterMaxAmount != "", filterMaxAmount)
      ensures Get(q, SortBy) == Some(sortBy) && Get(q, SortDirection) == Some(sortDirection)
      ensures pushed == old(pushed) + ["/payments?" + QueryString(q)]
    {
      q := BuildFilterQuery(filterCustomerId, filterStaffId, filterPaymentType, filterStartDate,
                            filterEndDate, filterMinAmount, filterMaxAmount, sortBy, sortDirection);
      pushed := pushed + ["/payments?" + QueryString(q)];
    }

    /** Resets every filter and the sort to their defaults and navigates to the bare list. */
    method HandleFilterReset()
      modifies this
      ensures filterCustomerId == "" && filterStaffId == "" && filterPaymentType == "all"
      ensures filterStartDate == "" && filterEndDate == "" && filterMinAmount == "" && filterMaxAmount == ""
      ensures sortBy == "payment_date" && sortDirection == "desc"
      ensures searchParams == old(searchParams) && pushed == old(pushed) + ["/payments"]
    {
      filterCustomerId, filterStaffId, filterPaymentType := "", "", "all";
      filterStartDate, filterEndDate, filterMinAmount, filterMaxAmount := "", "", "", "";
      sortBy, sortDirection := "payment_date", "desc";
      pushed := pushed + ["/payments"];
    }

    /** A click on a column header: same column flips the direction, another column sorts it descending. */
    method HandleSortChange(column: string) returns (q: Params)
      modifies this`sortBy, this`sortDirection, this`pushed
      ensures (sortBy, sortDirection) == SortClick(old(sortBy), old(sortDirection), column)
      ensures Get(q, SortDirection) == Some(sortDirection)
      ensures Get(q, SortBy) == (if old(sortBy) == column then Get(searchParams, SortBy) else Some(column))
      ensures forall k :: k != SortBy && k != SortDirection ==> Get(q, k) == Get(searchParams, k)
      ensures pushed == old(pushed) + ["/payments?" + QueryString(q)]
    {
      q := searchParams;
      if sortBy == column {
        var newDirection := if sortDirection == "asc" then "desc" else "asc";
        sortDirection := newDirection;
        q := Set(q, SortDirection, newDirection);
        SetThenGet(searchParams, SortDirection, newDirection);
        forall k | k != SortDirection ensures Get(q, k) == Get(searchParams, k) {
          SetKeepsOthers(searchParams, SortDirection, newDirection, k);
        }
      } else {
        sortBy := column;
        sortDirection := "desc";
        var q1 := Set(q, SortBy, column);
        q := Set(q1, SortDirection, "desc");
        SetThenGet(searchParams, SortBy, column);
        SetThenGet(q1, SortDirection, "desc");
        SetKeepsOthers(q1, SortDirection, "desc", SortBy);
        forall k | k != SortBy && k != SortDirection ensures Get(q, k) == Get(searchParams, k) {
          SetKeepsOthers(searchParams, SortBy, column, k);
          SetKeepsOthers(q1, SortDirection, "desc", k);
        }
      }
      pushed := pushed + ["/payments?" + QueryString(q)];
    }
  }

  /** The number on the i-th button of the window under the table. */
  function WindowPage(i: int, page: int, pages: int): int {
    if pages <= 5 then i + 1
    else if page <= 3 then i + 1
    else if page >= pages - 2 then pages - 4 + i
    else page - 2 + i
  }

  /** `Array.from({length: Math.min(5, pages)}, ...)`: the window's page numbers. */
  function PageWindow(page: int, pages: int): (w: seq<int>)
    ensures |w| == if pages < 0 then 0 else if pages < 5 then pages else 5
  {
    var n := if pages < 0 then 0 else if pages < 5 then pages else 5;
    seq(n, i requires 0 <= i < n => WindowPage(i, page, pages))
  }

  /** The window is a run of consecutive pages starting at the stated first page. */
  lemma PageWindowShape(page: int, pages: int)
    requires pages >= 1
    ensures var w := PageWindow(page, pages);
            var first := if pages <= 5 || page <= 3 then 1
                         else if page >= pages - 2 then pages - 4
                         else page - 2;
            forall i :: 0 <= i < |w| ==> w[i] == first + i
  {
  }

  /** Every number lies in 1..pages, consecutive and increasing. */
  lemma PageWindowInRange(page: int, pages: int)
    requires pages >= 1
    ensures var w := PageWindow(page, pages);
            (forall i :: 0 <= i < |w| ==> 1 <= w[i] <= pages)
            && (forall i :: 0 < i < |w| ==> w[i] == w[i - 1] + 1)
  {
  }

  /** A current page within range is always one of the buttons. */
  lemma PageWindowHoldsCurrent(page: int, pages: int)
    requires 1 <= page <= pages
    ensures page in PageWindow(page, pages)
  {
    var w := PageWindow(page, pages);
    var first := if pages <= 5 || page <= 3 then 1 else if page >= pages - 2 then pages - 4 else page - 2;
    assert w[page - first] == page;
  }
}
