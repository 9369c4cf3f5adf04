/**
 * The genre and media-type services of the music catalogue. Both keep a
 * table of named rows referenced by tracks, with the same rules: a name may
 * be held by one row only, an update changes only the name, a row with
 * tracks cannot be deleted, and unknown ids are not found. One `NameTable`
 * models either service.
 */
module NamedCatalogs {
  import opened Wrappers
  import opened ChinookDtos

  /** A genre or media-type table: the name of each row, and the row each track points at. */
  class NameTable {
    var names: map<int, string>
    var trackOwners: map<int, int>
    var nextId: int

    ghost predicate Valid()
      reads this
    {
      forall k :: k in names ==> k < nextId
    }

    /** No two rows share a name. */
    predicate NamesUnique()
      reads this
    {
      forall a, b :: a in names && b in names && a != b ==> names[a] != names[b]
    }

    /** `findByName(name)` finds a row other than `except`. */
    predicate NameHeld(name: string, except: Option<int>)
      reads this
    {
      exists k :: k in names && names[k] == name && Some(k) != except
    }

    /** The tracks of row `id`. */
    function Tracks(id: int): (s: set<int>)
      reads this
      ensures forall t :: t in s <==> t in trackOwners && trackOwners[t] == id
    {
      set t | t in trackOwners && trackOwners[t] == id
    }

    constructor(names: map<int, string>, trackOwners: map<int, int>, nextId: int)
      requires forall k :: k in names ==> k < nextId
      ensures Valid()
      ensures this.names == names && this.trackOwners == trackOwners && this.nextId == nextId
    {
      this.names, this.trackOwners, this.nextId := names, trackOwners, nextId;
    }

    /** createGenre / createMediaType: a name already held is an IllegalArgumentException and nothing is saved. */
    method Create(name: string) returns (r: Result<int, Exception>)
      requires Valid()
      modifies this
      ensures Valid() && trackOwners == old(trackOwners)
      ensures old(NameHeld(name, None)) ==> r == Err(IllegalArgument) && names == old(names) && nextId == old(nextId)
      ensures !old(NameHeld(name, None)) ==>
                r == Ok(old(nextId)) && old(nextId) !in old(names) && names == old(names)[old(nextId) := name]
      ensures old(NamesUnique()) ==> NamesUnique()
    {
      if exists k :: k in names && names[k] == name {
        return Err(IllegalArgument);
      }
      r := Ok(nextId);
      names := names[nextId := name];
      nextId := nextId + 1;
    }

    /**
     * updateGenre / updateMediaType: an unknown id is an
     * EntityNotFoundException; a name held by a different row is an
     * IllegalArgumentException; a row may keep its own name. Only the name
     * changes.
     */
    method Update(id: int, name: string) returns (r: Result<string, Exception>)
      requires Valid()
      modifies this
      ensures Valid() && trackOwners == old(trackOwners) && nextId == old(nextId)
      ensures id !in old(names) ==> r == Err(EntityNotFound) && names == old(names)
      ensures id in old(names) && old(NameHeld(name, Some(id))) ==> r == Err(IllegalArgument) && names == old(names)
      ensures id in old(names) && !old(NameHeld(name, Some(id))) ==> r == Ok(name) && names == old(names)[id := name]
      ensures old(NamesUnique()) ==> NamesUnique()
    {
      if id !in names {
        return Err(EntityNotFound);
      }
      if exists k :: k in names && names[k] == name && k != id {
        return Err(IllegalArgument);
      }
      names := names[id := name];
      r := Ok(name);
    }

    /**
     * deleteGenre / deleteMediaType: an unknown id is an
     * EntityNotFoundException, a row with tracks an IllegalStateException;
     * only otherwise is the row removed.
     */
    method Delete(id: int) returns (thrown: Option<Exception>)
      requires Valid()
      modifies this
      ensures Valid() && trackOwners == old(trackOwners) && nextId == old(nextId)
      ensures id !in old(names) ==> thrown == Some(EntityNotFound) && names == old(names)
      ensures id in old(names) && old(Tracks(id)) != {} ==> thrown == Some(IllegalState) && names == old(names)
      ensures id in old(names) && old(Tracks(id)) == {} ==> thrown == None && names == old(names) - {id}
      ensures old(NamesUnique()) ==> NamesUnique()
    {
      if id !in names {
        return Some(EntityNotFound);
      }
      if Tracks(id) != {} {
        return Some(IllegalState);
      }
      names := names - {id};
      thrown := None;
    }

    /** getGenre / getMediaType (and their with-tracks variants): the name, or an EntityNotFoundException. */
    function Get(id: int): (r: Result<string, Exception>)
      reads this
      ensures r.Ok? <==> id in names
      ensures r.Ok? ==> r.value == names[id]
      ensures r.Err? ==> r.error == EntityNotFound
    {
      if id in names then Ok(names[id]) else Err(EntityNotFound)
    }

    /** getGenreTrackCount / getMediaTypeTrackCount: how many tracks point at the row; unknown ids are not found. */
    function TrackCount(id: int): (r: Result<nat, Exception>)
      reads this
      ensures r.Ok? <==> id in names
      ensures r.Ok? ==> r.value == |Tracks(id)|
      ensures r.Err? ==> r.error == EntityNotFound
    {
      if id in names then Ok(|Tracks(id)|) else Err(EntityNotFound)
    }

    /** getGenreTracks / getMediaTypeTracks: the tracks of the row; unknown ids are not found. */
    function TracksOf(id: int): (r: Result<set<int>, Exception>)
      reads this
      ensures r.Ok? <==> id in names
      ensures r.Ok? ==> forall t :: t in r.value <==> t in trackOwners && trackOwners[t] == id
      ensures r.Err? ==> r.error == EntityNotFound
    {
      if id in names then Ok(Tracks(id)) else Err(EntityNotFound)
    }
  }
}
