/**
 * The albums endpoint of the music catalogue. GET AND-joins a title search
 * and an artist filter, groups by album and orders by the requested column;
 * POST needs a title and an artist; PUT updates only the truthy fields of
 * the two; PUT and DELETE answer 400 without an id and 404 when no row
 * changed.
 */
module AlbumsRoute {
  import opened Wrappers
  import opened JsValues
  import opened Strings
  import opened RouteCommon
  import DbUtils

  /** `searchParams.get(...)` for each name GET reads (None when absent). */
  datatype Query = Query(page: Option<string>, limit: Option<string>, search: Option<string>,
                         sortBy: Option<string>, sortOrder: Option<string>, artistId: Option<string>)

  datatype Cond = TitleLike | ArtistIs

  function CondSql(c: Cond): string {
    match c
    case TitleLike => "a.Title LIKE ?"
    case ArtistIs => "a.ArtistId = ?"
  }

  function CondTexts(cs: seq<Cond>): (ts: seq<string>)
    ensures |ts| == |cs|
  {
    seq(|cs|, i requires 0 <= i < |cs| => CondSql(cs[i]))
  }

  /** The conditions in push order: the title search, then the artist, each only when given. */
  function Conditions(search: string, artistId: Option<string>): seq<Cond> {
    (if search != "" then [TitleLike] else []) + (if artistId.Some? && artistId.value != "" then [ArtistIs] else [])
  }

  const BaseSql: string :=
    "SELECT a.*, ar.Name as ArtistName, COUNT(t.TrackId) as TrackCount, SUM(t.Milliseconds) as TotalDuration "
    + "FROM Album a LEFT JOIN Artist ar ON a.ArtistId = ar.ArtistId LEFT JOIN Track t ON a.AlbumId = t.AlbumId"
  const GroupByAlbum: string := " GROUP BY a.AlbumId"

  /**
   * GET's list query before paging: the base SELECT, WHERE only with a
   * condition, GROUP BY and then ORDER BY; the markers are bound in condition
   * order; page and limit are `parseInt` of the value or of '1' and '10'.
   */
  method ShapeListQuery(q: Query) returns (sql: string, params: seq<Value>, page: Num, limit: Num)
    ensures var search := OrElse(q.search, "");
            var conds := Conditions(search, q.artistId);
            sql == BaseSql + Where(CondTexts(conds)) + GroupByAlbum
                   + " ORDER BY " + OrElse(q.sortBy, "Title") + " " + Upper(OrElse(q.sortOrder, "asc"))
            && params == (if search != "" then [Str("%" + search + "%")] else [])
                         + (if q.artistId.Some? && q.artistId.value != "" then [Str(q.artistId.value)] else [])
            && page == IntParam(q.page, "1") && limit == IntParam(q.limit, "10")
  {
    page := IntParam(q.page, "1");
    limit := IntParam(q.limit, "10");
    var search := OrElse(q.search, "");
    var sortBy := OrElse(q.sortBy, "Title");
    var sortOrder := OrElse(q.sortOrder, "asc");
    var conditions: seq<Cond> := [];
    params := [];
    if search != "" {
      conditions := conditions + [TitleLike];
      params := params + [Str("%" + search + "%")];
    }
    if q.artistId.Some? && q.artistId.value != "" {
      conditions := conditions + [ArtistIs];
      params := params + [Str(q.artistId.value)];
    }
    assert conditions == Conditions(search, q.artistId);
    var where := "";
    if |conditions| > 0 {
      where := " WHERE " + Join(CondTexts(conditions), " AND ");
    }
    assert where == Where(CondTexts(conditions));
    sql := BaseSql + where + GroupByAlbum + " ORDER BY " + sortBy + " " + Upper(sortOrder);
  }

  /**
   * The WHERE clause holds one marker per bound value, so the conditions and
   * the parameters line up; without a filter there is neither.
   */
  lemma MarkersMatchParams(search: string, artistId: Option<string>)
    ensures var conds := Conditions(search, artistId);
            CountChar(Where(CondTexts(conds)), '?')
            == (if search != "" then 1 else 0) + (if artistId.Some? && artistId.value != "" then 1 else 0)
            && (conds == [] <==> search == "" && (artistId.None? || artistId.value == ""))
  {
    var conds := Conditions(search, artistId);
    var ts := CondTexts(conds);
    forall i | 0 <= i < |ts|
      ensures CountChar(ts[i], '?') == 1
    {
      CondMarker(conds[i]);
    }
    WhereMarkers(ts);
  }

  /** Each condition text ends in its one `?` marker. */
  lemma CondMarker(c: Cond)
    ensures CountChar(CondSql(c), '?') == 1
  {
    var pre := if c == TitleLike then "a.Title LIKE " else "a.ArtistId = ";
    assert NoChar(pre, '?');
    assert CondSql(c) == pre + "?";
    CountCharAppend(pre, "?", '?');
  }

  /** The PUT update object: Title and then ArtistId, each only when truthy. */
  function UpdateData(title: Value, artistId: Value): (data: DbUtils.Object)
    ensures data == [] <==> !Truthy(title) && !Truthy(artistId)
    ensures DbUtils.Lookup(data, "Title") == (if Truthy(title) then Some(title) else None)
    ensures DbUtils.Lookup(data, "ArtistId") == (if Truthy(artistId) then Some(artistId) else None)
  {
    (if Truthy(title) then [("Title", title)] else []) + (if Truthy(artistId) then [("ArtistId", artistId)] else [])
  }

  datatype Album = Album(title: Value, artistId: Value)

  /** The Album table: AlbumId to its title and artist. */
  class AlbumStore {
    var albums: map<int, Album>
    var nextId: int

    ghost predicate Valid()
      reads this
    {
      forall k :: k in albums ==> k < nextId
    }

    constructor(albums: map<int, Album>, nextId: int)
      requires forall k :: k in albums ==> k < nextId
      ensures Valid() && this.albums == albums && this.nextId == nextId
    {
      this.albums, this.nextId := albums, nextId;
    }

    /** POST: 400 and no insert unless Title and ArtistId are both truthy. */
    method Post(title: Value, artistId: Value) returns (r: ApiResponse, newId: Option<int>)
      requires Valid()
      modifies this
      ensures Valid()
      ensures !Truthy(title) || !Truthy(artistId) ==>
                r == Failure(400, "Title and ArtistId are required") && newId.None?
                && albums == old(albums) && nextId == old(nextId)
      ensures Truthy(title) && Truthy(artistId) ==>
                r.Success? && newId == Some(old(nextId)) && old(nextId) !in old(albums)
                && albums == old(albums)[old(nextId) := Album(title, artistId)]
    {
      if !Truthy(title) || !Truthy(artistId) {
        return Failure(400, "Title and ArtistId are required"), None;
      }
      newId := Some(nextId);
      albums := albums[nextId := Album(title, artistId)];
      nextId := nextId + 1;
      r := Success;
    }

    /**
     * PUT: 400 without an id, then 400 when neither field is truthy, then 404
     * when no row has the id; otherwise only the truthy fields change.
     */
    method Put(id: Option<string>, title: Value, artistId: Value) returns (r: ApiResponse)
      requires Valid()
      modifies this
      ensures Valid() && nextId == old(nextId)
      ensures (id.None? || id.value == "") ==> r == Failure(400, "Album ID is required") && albums == old(albums)
      ensures id.Some? && id.value != "" && !Truthy(title) && !Truthy(artistId) ==>
                r == Failure(400, "At least one field to update is required") && albums == old(albums)
      ensures id.Some? && id.value != "" && (Truthy(title) || Truthy(artistId)) ==>
                if SqlId(id.value).Some? && SqlId(id.value).value in old(albums)
                then
                  var before := old(albums)[SqlId(id.value).value];
                  r.Success? && albums == old(albums)[SqlId(id.value).value :=
                    Album(if Truthy(title) then title else before.title,
                          if Truthy(artistId) then artistId else before.artistId)]
                else r == Failure(404, "Album not found") && albums == old(albums)
    {
      if id.None? || id.value == "" {
        return Failure(400, "Album ID is required");
      }
      if !Truthy(title) && !Truthy(artistId) {
        return Failure(400, "At least one field to update is required");
      }
      var key := SqlId(id.value);
      var changes := if key.Some? && key.value in albums then 1 else 0;
      if changes == 0 {
        return Failure(404, "Album not found");
      }
      var row := albums[key.value];
      if Truthy(title) {
        row := row.(title := title);
      }
      if Truthy(artistId) {
        row := row.(artistId := artistId);
      }
      albums := albums[key.value := row];
      r := Success;
    }

    /** DELETE: 400 without an id, 404 when no row has it, otherwise the row is removed. */
    method Delete(id: Option<string>) returns (r: ApiResponse)
      requires Valid()
      modifies this
      ensures Valid() && nextId == old(nextId)
      ensures (id.None? || id.value == "") ==> r == Failure(400, "Album ID is required") && albums == old(albums)
      ensures id.Some? && id.value != "" ==>
                if SqlId(id.value).Some? && SqlId(id.value).value in old(albums)
                then r.Success? && albums == old(albums) - {SqlId(id.value).value}
                else r == Failure(404, "Album not found") && albums == old(albums)
    {
      if id.None? || id.value == "" {
        return Failure(400, "Album ID is required");
      }
      var key := SqlId(id.value);
      var changes := if key.Some? && key.value in albums then 1 else 0;
      if changes == 0 {
        return Failure(404, "Album not found");
      }
      albums := albums - {key.value};
      r := Success;
    }
  }
}
