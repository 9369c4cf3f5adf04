/**
 * The artists endpoint of the music catalogue. GET pages the artists and
 * merges in each one's album count; POST, PUT and DELETE validate their
 * input, refuse to delete an artist that still has albums and answer 404
 * when no row changed.
 */
module ArtistsRoute {
  import opened Wrappers
  import opened JsValues
  import opened Strings
  import opened RouteCommon
  import NextDb
  import DbUtils

  /** `searchParams.get(...)` for each name GET reads (None when absent). */
  datatype Query = Query(page: Option<string>, limit: Option<string>, search: Option<string>,
                         sortBy: Option<string>, sortOrder: Option<string>)

  /**
   * GET's list query before paging: an optional name search bound to one
   * marker, then ORDER BY the requested column and upper-cased direction;
   * page and limit are `parseInt` of the value or of '1' and '10'.
   */
  method ShapeListQuery(q: Query) returns (sql: string, params: seq<Value>, page: Num, limit: Num)
    ensures var search := OrElse(q.search, "");
            sql == "SELECT * FROM Artist" + (if search != "" then " WHERE Name LIKE ?" else "")
                   + " ORDER BY " + OrElse(q.sortBy, "Name") + " " + Upper(OrElse(q.sortOrder, "asc"))
            && params == (if search != "" then [Str("%" + search + "%")] else [])
            && page == IntParam(q.page, "1") && limit == IntParam(q.limit, "10")
  {
    page := IntParam(q.page, "1");
    limit := IntParam(q.limit, "10");
    var search := OrElse(q.search, "");
    var sortBy := OrElse(q.sortBy, "Name");
    var sortOrder := OrElse(q.sortOrder, "asc");
    var where := "";
    params := [];
    if search != "" {
      where := " WHERE Name LIKE ?";
      params := params + [Str("%" + search + "%")];
    }
    sql := "SELECT * FROM Artist" + where + " ORDER BY " + sortBy + " " + Upper(sortOrder);
  }

  /** Absent page and limit read as 1 and 10; a search term is bound with wildcards on both sides. */
  lemma ListDefaults(q: Query)
    requires q.page.None? && q.limit.None?
    ensures IntParam(q.page, "1") == Fin(1) && IntParam(q.limit, "10") == Fin(10)
  {
    IntParamDefault(q.page, 1);
    IntParamDefault(q.limit, 10);
    assert IntToString(1) == "1" && IntToString(10) == "10";
  }

  // ---- album counts ----

  datatype Artist = Artist(artistId: int, name: Value)

  /** A row of the album-count query. */
  datatype CountRow = CountRow(artistId: int, count: nat)

  /** An artist as returned, with its album count. */
  datatype ArtistEntry = ArtistEntry(artist: Artist, albumCount: nat)

  /** How many albums of the Album table (given by their ArtistId column) belong to an artist. */
  function AlbumsOf(albumArtists: seq<int>, artistId: int): nat {
    if albumArtists == [] then 0
    else AlbumsOf(albumArtists[..|albumArtists| - 1], artistId)
         + (if albumArtists[|albumArtists| - 1] == artistId then 1 else 0)
  }

  /** The `GROUP BY ArtistId` count query restricted to the page's ids: one row per id that has albums. */
  function CountRows(ids: seq<int>, albumArtists: seq<int>): (rows: seq<CountRow>)
    ensures forall k :: 0 <= k < |rows| ==> rows[k].artistId in ids && rows[k].count == AlbumsOf(albumArtists, rows[k].artistId)
    ensures forall id :: id in ids && AlbumsOf(albumArtists, id) > 0 ==> exists k :: 0 <= k < |rows| && rows[k].artistId == id
  {
    if ids == [] then []
    else
      var rest := CountRows(ids[1..], albumArtists);
      assert forall id :: id in ids[1..] ==> id in ids;
      if AlbumsOf(albumArtists, ids[0]) > 0 then
        var rows := [CountRow(ids[0], AlbumsOf(albumArtists, ids[0]))] + rest;
        assert forall k :: 0 <= k < |rest| ==> rows[k + 1] == rest[k];
        assert forall id :: id in ids ==> id == ids[0] || id in ids[1..];
        assert rows[0].artistId == ids[0];
        rows
      else rest
  }

  /** `albumCounts.find(c => c.ArtistId === id)?.count || 0`. */
  function FoundCount(rows: seq<CountRow>, artistId: int): (n: nat)
    ensures (forall k :: 0 <= k < |rows| ==> rows[k].artistId != artistId) ==> n == 0
    ensures (exists k :: 0 <= k < |rows| && rows[k].artistId == artistId)
            ==> exists k :: 0 <= k < |rows| && rows[k].artistId == artistId && n == rows[k].count
  {
    if rows == [] then 0
    else if rows[0].artistId == artistId then rows[0].count
    else
      var n := FoundCount(rows[1..], artistId);
      assert forall k :: 0 <= k < |rows[1..]| ==> rows[1..][k] == rows[k + 1];
      n
  }

  /**
   * GET's merge step: for a non-empty page the count query runs over the
   * page's ids and each artist gets the count found for it, or 0; an empty
   * page issues no count query.
   */
  method AttachAlbumCounts(items: seq<Artist>, albumArtists: seq<int>)
    returns (entries: seq<ArtistEntry>, countQueried: bool)
    ensures countQueried <==> items != []
    ensures |entries| == |items|
    ensures forall i :: 0 <= i < |items| ==> entries[i] == ArtistEntry(items[i], AlbumsOf(albumArtists, items[i].artistId))
  {
    var ids := seq(|items|, i requires 0 <= i < |items| => items[i].artistId);
    countQueried := |ids| > 0;
    entries := [];
    if countQueried {
      var rows := CountRows(ids, albumArtists);
      entries := seq(|items|, i requires 0 <= i < |items| => ArtistEntry(items[i], FoundCount(rows, items[i].artistId)));
      forall i | 0 <= i < |items|
        ensures FoundCount(rows, items[i].artistId) == AlbumsOf(albumArtists, items[i].artistId)
      {
        assert ids[i] == items[i].artistId;
      }
    }
  }

  // ---- POST, PUT and DELETE ----

  /**
   * The Artist table (ArtistId to Name) and the ArtistId column of the
   * Album table, which the delete guard consults.
   */
  class ArtistStore {
    var artists: map<int, Value>
    var albums: map<int, int>
    var nextId: int

    ghost predicate Valid()
      reads this
    {
      forall k :: k in artists ==> k < nextId
    }

    /** Whether every album's artist exists. */
    predicate AlbumsHaveArtists()
      reads this
    {
      forall a :: a in albums ==> albums[a] in artists
    }

    /** The `COUNT(*) FROM Album WHERE ArtistId = ?` of the delete guard. */
    predicate HasAlbums(artistId: int)
      reads this
    {
      exists a :: a in albums && albums[a] == artistId
    }

    constructor(artists: map<int, Value>, albums: map<int, int>, nextId: int)
      requires forall k :: k in artists ==> k < nextId
      ensures Valid()
      ensures this.artists == artists && this.albums == albums && this.nextId == nextId
    {
      this.artists, this.albums, this.nextId := artists, albums, nextId;
    }

    /** POST: 400 and no insert without a truthy Name, otherwise a new artist row. */
    method Post(name: Value) returns (r: ApiResponse, newId: Option<int>)
      requires Valid()
      modifies this
      ensures Valid() && albums == old(albums)
      ensures !Truthy(name) ==> r == Failure(400, "Artist name is required") && newId.None?
                                && artists == old(artists) && nextId == old(nextId)
      ensures Truthy(name) ==> r.Success? && newId == Some(old(nextId)) && old(nextId) !in old(artists)
                               && artists == old(artists)[old(nextId) := name]
    {
      if !Truthy(name) {
        return Failure(400, "Artist name is required"), None;
      }
      newId := Some(nextId);
      artists := artists[nextId := name];
      nextId := nextId + 1;
      r := Success;
    }

    /**
     * PUT: 400 without an id, then 400 without a truthy Name, then 404 when
     * no row has the id; otherwise only that artist's name changes.
     */
    method Put(id: Option<string>, name: Value) returns (r: ApiResponse)
      requires Valid()
      modifies this
      ensures Valid() && albums == old(albums) && nextId == old(nextId)
      ensures (id.None? || id.value == "") ==> r == Failure(400, "Artist ID is required") && artists == old(artists)
      ensures id.Some? && id.value != "" && !Truthy(name) ==>
                r == Failure(400, "Artist name is required") && artists == old(artists)
      ensures id.Some? && id.value != "" && Truthy(name) ==>
                if SqlId(id.value).Some? && SqlId(id.value).value in old(artists)
                then r.Success? && artists == old(artists)[SqlId(id.value).value := name]
                else r == Failure(404, "Artist not found") && artists == old(artists)
    {
      if id.None? || id.value == "" {
        return Failure(400, "Artist ID is required");
      }
      if !Truthy(name) {
        return Failure(400, "Artist name is required");
      }
      var key := SqlId(id.value);
      var changes := if key.Some? && key.value in artists then 1 else 0;
      if changes == 0 {
        return Failure(404, "Artist not found");
      }
      artists := artists[key.value := name];
      r := Success;
    }

    /**
     * DELETE: 400 without an id, then 400 while albums reference the artist
     * (nothing removed), then 404 when no row has the id; otherwise the
     * artist is removed. Albums never lose their artist.
     */
    method Delete(id: Option<string>) returns (r: ApiResponse)
      requires Valid()
      modifies this
      ensures Valid() && albums == old(albums) && nextId == old(nextId)
      ensures (id.None? || id.value == "") ==> r == Failure(400, "Artist ID is required") && artists == old(artists)
      ensures id.Some? && id.value != "" && SqlId(id.value).Some? && old(HasAlbums(SqlId(id.value).value)) ==>
                r == Failure(400, "Cannot delete artist with existing albums") && artists == old(artists)
      ensures id.Some? && id.value != "" && (SqlId(id.value).None? || !old(HasAlbums(SqlId(id.value).value))) ==>
                if SqlId(id.value).Some? && SqlId(id.value).value in old(artists)
                then r.Success? && artists == old(artists) - {SqlId(id.value).value}
                else r == Failure(404, "Artist not found") && artists == old(artists)
      ensures old(AlbumsHaveArtists()) ==> AlbumsHaveArtists()
    {
      if id.None? || id.value == "" {
        return Failure(400, "Artist ID is required");
      }
      var key := SqlId(id.value);
      if key.Some? && HasAlbums(key.value) {
        return Failure(400, "Cannot delete artist with existing albums");
      }
      var changes := if key.Some? && key.value in artists then 1 else 0;
      if changes == 0 {
        return Failure(404, "Artist not found");
      }
      artists := artists - {key.value};
      r := Success;
    }
  }

  /** PUT's statement sets only the name, bound before the id of the WHERE clause. */
  lemma PutStatement(name: Value, id: string)
    ensures var st := NextDb.UpdateStatement("Artist", [("Name", name)], "ArtistId = ?", [Str(id)]);
            st.args == [name, Str(id)]
            && st.sql == "UPDATE " + "Artist" + " SET " + ("Name" + " = ?") + " WHERE " + "ArtistId = ?"
  {
    assert DbUtils.Keys([("Name", name)]) == ["Name"];
    assert NextDb.SetItems(["Name"]) == ["Name" + " = ?"];
  }
}
