/**
 * The films list endpoint of the DVD-rental app: the query string becomes
 * joins (for the category and actor filters), AND-joined conditions with
 * named parameters, a GROUP BY when a join can repeat a film, a whitelisted
 * ORDER BY on the film table and a clamped page.
 */
module FilmsRoute {
  import opened Wrappers
  import opened JsValues
  import opened Strings
  import opened RouteCommon
  import DbUtils

  /** `searchParams.get(...)` for each name the handler reads (None when absent). */
  datatype Query = Query(title: Option<string>, categoryId: Option<string>, releaseYear: Option<string>,
                         rating: Option<string>, actorId: Option<string>, minLength: Option<string>,
                         maxLength: Option<string>, sortBy: Option<string>, sortDirection: Option<string>,
                         page: Option<string>, pageSize: Option<string>)

  datatype Direction = Asc | Desc

  datatype Filters = Filters(title: Option<string>, categoryId: Option<Num>, releaseYear: Option<Num>,
                             rating: Option<string>, actorId: Option<Num>, minLength: Option<Num>,
                             maxLength: Option<Num>, sortBy: string, sortDirection: Direction)

  function ReadFilters(q: Query): (f: Filters)
  {
    Filters(NonEmpty(q.title), NumberParam(q.categoryId), NumberParam(q.releaseYear), NonEmpty(q.rating),
            NumberParam(q.actorId), NumberParam(q.minLength), NumberParam(q.maxLength),
            OrElse(q.sortBy, "title"), if q.sortDirection == Some("desc") then Desc else Asc)
  }

  datatype Cond = TitleLike | CategoryIs | ActorIs | YearIs | RatingIs | LengthAtLeast | LengthAtMost

  function CondSql(c: Cond): string {
    match c
    case TitleLike => "f.title LIKE :title"
    case CategoryIs => "c.category_id = :categoryId"
    case ActorIs => "fa.actor_id = :actorId"
    case YearIs => "f.release_year = :releaseYear"
    case RatingIs => "f.rating = :rating"
    case LengthAtLeast => "f.length >= :minLength"
    case LengthAtMost => "f.length <= :maxLength"
  }

  function CondTexts(cs: seq<Cond>): (ts: seq<string>)
    ensures |ts| == |cs|
  {
    seq(|cs|, i requires 0 <= i < |cs| => CondSql(cs[i]))
  }

  /** The conditions in push order. */
  function Conditions(f: Filters): seq<Cond> {
    When(f.title.Some?, TitleLike) + When(Given(f.categoryId), CategoryIs) + When(Given(f.actorId), ActorIs)
    + When(Given(f.releaseYear), YearIs) + When(f.rating.Some?, RatingIs)
    + When(Given(f.minLength), LengthAtLeast) + When(Given(f.maxLength), LengthAtMost)
  }

  function BindingOf(c: Cond, f: Filters): (string, Value) {
    match c
    case TitleLike => ("title", Str("%" + f.title.GetOr("") + "%"))
    case CategoryIs => ("categoryId", Number(f.categoryId.GetOr(NaN)))
    case ActorIs => ("actorId", Number(f.actorId.GetOr(NaN)))
    case YearIs => ("releaseYear", Number(f.releaseYear.GetOr(NaN)))
    case RatingIs => ("rating", Str(f.rating.GetOr("")))
    case LengthAtLeast => ("minLength", Number(f.minLength.GetOr(NaN)))
    case LengthAtMost => ("maxLength", Number(f.maxLength.GetOr(NaN)))
  }

  function Bindings(cs: seq<Cond>, f: Filters): (ps: DbUtils.Object)
    ensures |ps| == |cs|
  {
    if cs == [] then [] else Bindings(cs[..|cs| - 1], f) + [BindingOf(cs[|cs| - 1], f)]
  }

  const CategoryJoin: string :=
    " JOIN film_category fc ON f.film_id = fc.film_id JOIN category c ON fc.category_id = c.category_id"
  const ActorJoin: string := " JOIN film_actor fa ON f.film_id = fa.film_id"
  const GroupByFilm: string := " GROUP BY f.film_id"

  /** The joins the category and actor filters add, in that order. */
  function Joins(f: Filters): string {
    (if Given(f.categoryId) then CategoryJoin else "") + (if Given(f.actorId) then ActorJoin else "")
  }

  /** A join can repeat a film, so the rows are grouped by film whenever one was added. */
  function GroupBy(f: Filters): string {
    if Given(f.categoryId) || Given(f.actorId) then GroupByFilm else ""
  }

  const ValidSortColumns: seq<string> := ["title", "release_year", "rental_rate", "length", "rating"]

  function OrderBy(f: Filters): string {
    " ORDER BY f." + SortColumn(f.sortBy, ValidSortColumns, "title")
    + (if f.sortDirection == Desc then " DESC" else " ASC")
  }

  const BaseSql: string :=
    "SELECT f.*, l.name as language_name, inventory_count, available_count FROM film f "
    + "JOIN language l ON f.language_id = l.language_id"

  /** One `if (...) { whereConditions.push(...); sqlParams.x = ... }` step. */
  method PushIf(conds: seq<Cond>, params: DbUtils.Object, b: bool, c: Cond, binding: (string, Value), ghost f: Filters)
    returns (conds': seq<Cond>, params': DbUtils.Object)
    requires params == Bindings(conds, f) && binding == BindingOf(c, f)
    ensures conds' == conds + When(b, c) && params' == Bindings(conds', f)
  {
    conds', params' := conds, params;
    if b {
      conds' := conds' + [c];
      params' := params' + [binding];
      assert conds'[..|conds'| - 1] == conds;
    }
  }

  /** The title, category and actor pushes; the category and actor ones also extend the joins. */
  method PushJoinFilters(f: Filters) returns (joins: string, conds: seq<Cond>, params: DbUtils.Object)
    ensures joins == Joins(f)
    ensures conds == When(f.title.Some?, TitleLike) + When(Given(f.categoryId), CategoryIs)
                     + When(Given(f.actorId), ActorIs)
    ensures params == Bindings(conds, f)
  {
    conds, params := [], [];
    conds, params := PushIf(conds, params, f.title.Some?, TitleLike, ("title", Str("%" + f.title.GetOr("") + "%")), f);
    var categoryJoin, actorJoin := "", "";
    if Given(f.categoryId) {
      categoryJoin := CategoryJoin;
    }
    conds, params := PushIf(conds, params, Given(f.categoryId), CategoryIs,
                            ("categoryId", Number(f.categoryId.GetOr(NaN))), f);
    if Given(f.actorId) {
      actorJoin := ActorJoin;
    }
    conds, params := PushIf(conds, params, Given(f.actorId), ActorIs, ("actorId", Number(f.actorId.GetOr(NaN))), f);
    joins := categoryJoin + actorJoin;
  }

  method PushFilters(f: Filters) returns (joins: string, conds: seq<Cond>, params: DbUtils.Object)
    ensures joins == Joins(f) && conds == Conditions(f) && params == Bindings(conds, f)
  {
    joins, conds, params := PushJoinFilters(f);
    conds, params := PushIf(conds, params, Given(f.releaseYear), YearIs,
                            ("releaseYear", Number(f.releaseYear.GetOr(NaN))), f);
    conds, params := PushIf(conds, params, f.rating.Some?, RatingIs, ("rating", Str(f.rating.GetOr(""))), f);
    conds, params := PushIf(conds, params, Given(f.minLength), LengthAtLeast,
                            ("minLength", Number(f.minLength.GetOr(NaN))), f);
    conds, params := PushIf(conds, params, Given(f.maxLength), LengthAtMost,
                            ("maxLength", Number(f.maxLength.GetOr(NaN))), f);
  }

  /**
   * GET's request shaping: the SELECT, the joins, WHERE (only with a
   * condition), GROUP BY (only with a join) and ORDER BY, in that order.
   */
  method ShapeListQuery(q: Query) returns (sql: string, params: DbUtils.Object, page: Num, pageSize: Num)
    ensures var f := ReadFilters(q);
            sql == BaseSql + Joins(f) + Where(CondTexts(Conditions(f))) + GroupBy(f) + OrderBy(f)
            && params == Bindings(Conditions(f), f)
            && page == ClampedPage(q.page) && pageSize == ClampedPageSize(q.pageSize)
  {
    var f := ReadFilters(q);
    page := ClampedPage(q.page);
    pageSize := ClampedPageSize(q.pageSize);
    var joins, conds;
    joins, conds, params := PushFilters(f);
    var where := "";
    if |conds| > 0 {
      where := " WHERE " + Join(CondTexts(conds), " AND ");
    }
    var groupBy := "";
    if Given(f.categoryId) || Given(f.actorId) {
      groupBy := GroupByFilm;
    }
    sql := BaseSql + joins + where + groupBy + OrderBy(f);
  }

  /**
   * The category filter brings its two joins and the actor filter its one;
   * GROUP BY is there exactly when one of them is.
   */
  lemma JoinsAndGrouping(q: Query)
    ensures var f := ReadFilters(q);
            (Given(f.categoryId) || Given(f.actorId) <==> GroupBy(f) == GroupByFilm)
            && (!Given(f.categoryId) && !Given(f.actorId) <==> Joins(f) == "" && GroupBy(f) == "")
            && (CategoryIs in Conditions(f) <==> Given(f.categoryId))
            && (ActorIs in Conditions(f) <==> Given(f.actorId))
  {
    var f := ReadFilters(q);
    assert |CategoryJoin| > 0 && |ActorJoin| > 0;
    assert GroupByFilm != "";
  }

  /**
   * Numeric filters are applied only for truthy numbers, so a year or length
   * of 0 adds no condition.
   */
  lemma ZeroFiltersIgnored(q: Query)
    ensures var f := ReadFilters(q);
            (f.releaseYear == Some(Fin(0)) ==> YearIs !in Conditions(f))
            && (f.minLength == Some(Fin(0)) ==> LengthAtLeast !in Conditions(f))
            && (f.maxLength == Some(Fin(0)) ==> LengthAtMost !in Conditions(f))
            && (YearIs in Conditions(f) <==> Given(f.releaseYear))
  {
  }

  /** The sort column is always a whitelisted film column (title otherwise); DESC only for 'desc'. */
  lemma SortRule(q: Query)
    ensures var f := ReadFilters(q);
            SortColumn(f.sortBy, ValidSortColumns, "title") in ValidSortColumns
            && (f.sortDirection == Desc <==> q.sortDirection == Some("desc"))
  {
    SortColumnWhitelisted(ReadFilters(q).sortBy, ValidSortColumns, "title");
  }
}
