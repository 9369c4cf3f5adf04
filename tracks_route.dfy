/**
 * The tracks endpoint of the music catalogue. GET lists the tracks, of one
 * album when one is named; POST requires six truthy fields; PUT copies the
 * defined whitelisted fields of the body into the update; PUT and DELETE
 * answer 400 without an id and 404 when no row changed.
 */
module TracksRoute {
  import opened Wrappers
  import opened JsValues
  import opened Strings
  import opened RouteCommon
  import DbUtils
  import NextDb

  /** GET's two query texts: every track, and the tracks of one album. */
  const AllTracks: string := "SELECT * FROM Track"
  const AlbumPrefix: string := "SELECT * FROM Track WHERE AlbumId = "
  const ByAlbum: string := AlbumPrefix + "?"

  /** The unfiltered text holds no `?`; the album text holds exactly one. */
  lemma QueryMarkers()
    ensures CountChar(AllTracks, '?') == 0 && CountChar(ByAlbum, '?') == 1
  {
    assert NoChar(AllTracks, '?');
    assert NoChar(AlbumPrefix, '?');
    assert ByAlbum == AlbumPrefix + ['?'] + "";
    OneCharBetween(AlbumPrefix, '?', "");
  }

  /**
   * GET's query: the album filter and its marker only when `albumId` is a
   * non-empty string, which is then the one argument, bound as text.
   */
  function ListQuery(albumId: Option<string>): (st: NextDb.Statement)
    ensures (albumId.None? || albumId.value == "") <==> st.args == []
    ensures albumId.Some? && albumId.value != "" ==> st.args == [Str(albumId.value)]
    ensures CountChar(st.sql, '?') == |st.args|
  {
    QueryMarkers();
    if albumId.Some? && albumId.value != "" then NextDb.Statement(ByAlbum, [Str(albumId.value)])
    else NextDb.Statement(AllTracks, [])
  }

  /** The columns PUT may change, in the order it copies them. */
  const ValidFields: seq<string> :=
    ["Name", "AlbumId", "MediaTypeId", "GenreId", "Composer", "Milliseconds", "Bytes", "UnitPrice"]

  /** The fields POST requires to be truthy. */
  const RequiredFields: seq<string> := ["Name", "AlbumId", "MediaTypeId", "GenreId", "Milliseconds", "UnitPrice"]

  /**
   * The defined fields among `fields`, with their body values, in order: what
   * the copy loop puts into `updateData`.
   */
  function Collected(fields: seq<string>, body: DbUtils.Object): (data: DbUtils.Object)
    ensures forall i :: 0 <= i < |data| ==>
              data[i].0 in fields && data[i].1 == Field(body, data[i].0) && data[i].1 != Undefined
    ensures forall f :: f in fields && Field(body, f) != Undefined ==> f in DbUtils.Keys(data)
    ensures data == [] <==> forall f :: f in fields ==> Field(body, f) == Undefined
    ensures |data| <= |fields|
  {
    if fields == [] then []
    else
      var init := fields[..|fields| - 1];
      var f := fields[|fields| - 1];
      var rest := Collected(init, body);
      assert forall g :: g in fields ==> g in init || g == f;
      assert forall g :: g in init ==> g in fields;
      if Field(body, f) != Undefined then
        var data := rest + [(f, Field(body, f))];
        assert DbUtils.Keys(data) == DbUtils.Keys(rest) + [f];
        data
      else rest
  }

  /** Distinct fields give an update with distinct columns. */
  lemma {:induction false} CollectedDistinct(fields: seq<string>, body: DbUtils.Object)
    requires forall i, j :: 0 <= i < j < |fields| ==> fields[i] != fields[j]
    ensures DbUtils.DistinctKeys(Collected(fields, body))
  {
    if fields != [] {
      var init := fields[..|fields| - 1];
      CollectedDistinct(init, body);
      assert fields[|fields| - 1] !in init;
    }
  }

  /**
   * PUT's copy loop: every whitelisted field whose body value is not
   * undefined is copied, and `hasUpdates` records whether any was.
   */
  method CollectUpdates(body: DbUtils.Object) returns (updateData: DbUtils.Object, hasUpdates: bool)
    ensures updateData == Collected(ValidFields, body)
    ensures hasUpdates <==> updateData != []
  {
    updateData := [];
    hasUpdates := false;
    var i := 0;
    while i < |ValidFields|
      invariant 0 <= i <= |ValidFields|
      invariant updateData == Collected(ValidFields[..i], body)
      invariant hasUpdates <==> updateData != []
    {
      var field := ValidFields[i];
      assert ValidFields[..i + 1][..i] == ValidFields[..i];
      if Field(body, field) != Undefined {
        updateData := updateData + [(field, Field(body, field))];
        hasUpdates := true;
      }
      i := i + 1;
    }
    assert ValidFields[..i] == ValidFields;
  }

  /** A row after `UPDATE ... SET` of the given columns, in order. */
  function Updated(row: map<string, Value>, data: DbUtils.Object): map<string, Value> {
    if data == [] then row
    else Updated(row, data[..|data| - 1])[data[|data| - 1].0 := data[|data| - 1].1]
  }

  /** Each listed column takes its value; every other column keeps its own. */
  lemma {:induction false} UpdatedColumns(row: map<string, Value>, data: DbUtils.Object, c: string)
    requires DbUtils.DistinctKeys(data)
    ensures c in Updated(row, data) <==> c in row || c in DbUtils.Keys(data)
    ensures forall i :: 0 <= i < |data| && data[i].0 == c ==> Updated(row, data)[c] == data[i].1
    ensures c !in DbUtils.Keys(data) && c in row ==> Updated(row, data)[c] == row[c]
  {
    if data != [] {
      var init := data[..|data| - 1];
      UpdatedColumns(row, init, c);
      assert DbUtils.Keys(data) == DbUtils.Keys(init) + [data[|data| - 1].0];
    }
  }

  /**
   * PUT changes exactly the whitelisted columns the body defines, to the
   * body's values; the other columns and any other body keys are ignored.
   */
  lemma PutChangesListedColumns(row: map<string, Value>, body: DbUtils.Object, c: string)
    requires c in row
    ensures var after := Updated(row, Collected(ValidFields, body));
            c in after
            && after[c] == (if c in ValidFields && Field(body, c) != Undefined then Field(body, c) else row[c])
  {
    var data := Collected(ValidFields, body);
    ValidFieldsDistinct();
    CollectedDistinct(ValidFields, body);
    UpdatedColumns(row, data, c);
    if c in ValidFields && Field(body, c) != Undefined {
      assert c in DbUtils.Keys(data);
      var i :| 0 <= i < |data| && DbUtils.Keys(data)[i] == c;
      assert data[i].0 == c;
    }
  }

  /** No column is listed twice. */
  lemma ValidFieldsDistinct()
    ensures forall i, j :: 0 <= i < j < |ValidFields| ==> ValidFields[i] != ValidFields[j]
  {
  }

  /** POST's insert: the eight columns in order, Composer and Bytes as the body has them. */
  function InsertData(body: DbUtils.Object): (data: DbUtils.Object)
    ensures DbUtils.Keys(data) == ValidFields
  {
    seq(|ValidFields|, i requires 0 <= i < |ValidFields| => (ValidFields[i], Field(body, ValidFields[i])))
  }

  /** The Track table: TrackId to the row's columns. */
  class TrackStore {
    var tracks: map<int, map<string, Value>>
    var nextId: int

    ghost predicate Valid()
      reads this
    {
      forall k :: k in tracks ==> k < nextId
    }

    constructor(tracks: map<int, map<string, Value>>, nextId: int)
      requires forall k :: k in tracks ==> k < nextId
      ensures Valid() && this.tracks == tracks && this.nextId == nextId
    {
      this.tracks, this.nextId := tracks, nextId;
    }

    /**
     * POST: 400 unless Name, AlbumId, MediaTypeId, GenreId, Milliseconds and
     * UnitPrice are all truthy (so a price of 0 is refused); otherwise a new
     * row holding the eight columns.
     */
    method Post(body: DbUtils.Object) returns (r: ApiResponse, newId: Option<int>)
      requires Valid()
      modifies this
      ensures Valid()
      ensures (exists f :: f in RequiredFields && !Truthy(Field(body, f))) ==>
                r == Failure(400, "Required fields are missing") && newId.None?
                && tracks == old(tracks) && nextId == old(nextId)
      ensures (forall f :: f in RequiredFields ==> Truthy(Field(body, f))) ==>
                r.Success? && newId == Some(old(nextId)) && old(nextId) !in old(tracks)
                && tracks == old(tracks)[old(nextId) := Updated(map[], InsertData(body))]
    {
      if !Truthy(Field(body, "Name")) || !Truthy(Field(body, "AlbumId")) || !Truthy(Field(body, "MediaTypeId"))
         || !Truthy(Field(body, "GenreId")) || !Truthy(Field(body, "Milliseconds")) || !Truthy(Field(body, "UnitPrice")) {
        return Failure(400, "Required fields are missing"), None;
      }
      newId := Some(nextId);
      tracks := tracks[nextId := Updated(map[], InsertData(body))];
      nextId := nextId + 1;
      r := Success;
    }

    /**
     * PUT: 400 without an id, then 400 when the body defines no whitelisted
     * field, then 404 when no row has the id; otherwise the row's listed
     * columns are overwritten.
     */
    method Put(id: Option<string>, body: DbUtils.Object) returns (r: ApiResponse)
      requires Valid()
      modifies this
      ensures Valid() && nextId == old(nextId)
      ensures (id.None? || id.value == "") ==> r == Failure(400, "Track ID is required") && tracks == old(tracks)
      ensures id.Some? && id.value != "" && Collected(ValidFields, body) == [] ==>
                r == Failure(400, "At least one field to update is required") && tracks == old(tracks)
      ensures id.Some? && id.value != "" && Collected(ValidFields, body) != [] ==>
                if SqlId(id.value).Some? && SqlId(id.value).value in old(tracks)
                then r.Success? && tracks == old(tracks)[SqlId(id.value).value :=
                                                         Updated(old(tracks)[SqlId(id.value).value], Collected(ValidFields, body))]
                else r == Failure(404, "Track not found") && tracks == old(tracks)
    {
      if id.None? || id.value == "" {
        return Failure(400, "Track ID is required");
      }
      var updateData, hasUpdates := CollectUpdates(body);
      if !hasUpdates {
        return Failure(400, "At least one field to update is required");
      }
      var key := SqlId(id.value);
      var changes := if key.Some? && key.value in tracks then 1 else 0;
      if changes == 0 {
        return Failure(404, "Track not found");
      }
      tracks := tracks[key.value := Updated(tracks[key.value], updateData)];
      r := Success;
    }

    /** DELETE: 400 without an id, 404 when no row has it, otherwise the row is removed. */
    method Delete(id: Option<string>) returns (r: ApiResponse)
      requires Valid()
      modifies this
      ensures Valid() && nextId == old(nextId)
      ensures (id.None? || id.value == "") ==> r == Failure(400, "Track ID is required") && tracks == old(tracks)
      ensures id.Some? && id.value != "" ==>
                if SqlId(id.value).Some? && SqlId(id.value).value in old(tracks)
                then r.Success? && tracks == old(tracks) - {SqlId(id.value).value}
                else r == Failure(404, "Track not found") && tracks == old(tracks)
    {
      if id.None? || id.value == "" {
        return Failure(400, "Track ID is required");
      }
      var key := SqlId(id.value);
      var changes := if key.Some? && key.value in tracks then 1 else 0;
      if changes == 0 {
        return Failure(404, "Track not found");
      }
      tracks := tracks - {key.value};
      r := Success;
    }
  }

  /** A body with UnitPrice 0 is refused although 0 is a valid price: the check is truthiness. */
  lemma ZeroPriceRefused(body: DbUtils.Object)
    requires Field(body, "UnitPrice") == Number(Fin(0))
    ensures exists f :: f in RequiredFields && !Truthy(Field(body, f))
  {
    assert "UnitPrice" in RequiredFields;
  }
}
