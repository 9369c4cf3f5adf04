/**
 * The playlist service of the music catalogue: a playlist is a name and a
 * set of tracks; tracks are added and removed as set members, and unknown
 * playlists and tracks are not found.
 */
module PlaylistService {
  import opened Wrappers
  import opened ChinookDtos

  /** A playlist row: its name and the set of its tracks. */
  datatype Playlist = Playlist(name: string, tracks: set<int>)

  /** `getTracks().add(track)`: the track becomes a member; the name is kept. */
  function WithTrack(p: Playlist, t: int): (q: Playlist)
    ensures q.name == p.name && t in q.tracks
    ensures forall u :: u in q.tracks <==> u == t || u in p.tracks
  {
    p.(tracks := p.tracks + {t})
  }

  /** `getTracks().remove(track)`: the track is no longer a member; the name is kept. */
  function WithoutTrack(p: Playlist, t: int): (q: Playlist)
    ensures q.name == p.name && t !in q.tracks
    ensures forall u :: u in q.tracks <==> u != t && u in p.tracks
  {
    p.(tracks := p.tracks - {t})
  }

  /** Adding a track already in the playlist changes nothing, and adding twice is adding once. */
  lemma AddIdempotent(p: Playlist, t: int)
    ensures t in p.tracks ==> WithTrack(p, t) == p
    ensures WithTrack(WithTrack(p, t), t) == WithTrack(p, t)
  {
  }

  /** Removing a track not in the playlist changes nothing. */
  lemma RemoveAbsent(p: Playlist, t: int)
    requires t !in p.tracks
    ensures WithoutTrack(p, t) == p
  {
  }

  /** Adding a track the playlist did not have, then removing it, restores the playlist. */
  lemma AddThenRemove(p: Playlist, t: int)
    requires t !in p.tracks
    ensures WithoutTrack(WithTrack(p, t), t) == p
  {
  }

  /** Removing a track, then adding it back, restores a playlist that had it. */
  lemma RemoveThenAdd(p: Playlist, t: int)
    requires t in p.tracks
    ensures WithTrack(WithoutTrack(p, t), t) == p
  {
  }

  /** The playlist table and the ids of the existing tracks. */
  class PlaylistStore {
    var playlists: map<int, Playlist>
    var trackIds: set<int>
    var nextId: int

    ghost predicate Valid()
      reads this
    {
      forall k :: k in playlists ==> k < nextId
    }

    constructor(playlists: map<int, Playlist>, trackIds: set<int>, nextId: int)
      requires forall k :: k in playlists ==> k < nextId
      ensures Valid()
      ensures this.playlists == playlists && this.trackIds == trackIds && this.nextId == nextId
    {
      this.playlists, this.trackIds, this.nextId := playlists, trackIds, nextId;
    }

    /** createPlaylist: a new playlist with the given name and no tracks; names need not be unique. */
    method CreatePlaylist(name: string) returns (id: int)
      requires Valid()
      modifies this
      ensures Valid() && trackIds == old(trackIds)
      ensures id == old(nextId) && id !in old(playlists)
      ensures playlists == old(playlists)[id := Playlist(name, {})]
    {
      id := nextId;
      playlists := playlists[id := Playlist(name, {})];
      nextId := nextId + 1;
    }

    /** updatePlaylist: an unknown id is an EntityNotFoundException; otherwise only the name changes. */
    method UpdatePlaylist(id: int, name: string) returns (r: Result<Playlist, Exception>)
      requires Valid()
      modifies this
      ensures Valid() && trackIds == old(trackIds) && nextId == old(nextId)
      ensures id !in old(playlists) ==> r == Err(EntityNotFound) && playlists == old(playlists)
      ensures id in old(playlists) ==>
                r == Ok(old(playlists)[id].(name := name)) && playlists == old(playlists)[id := r.value]
    {
      if id !in playlists {
        return Err(EntityNotFound);
      }
      var p := playlists[id].(name := name);
      playlists := playlists[id := p];
      r := Ok(p);
    }

    /** deletePlaylist: an unknown id is an EntityNotFoundException; otherwise the row is removed. */
    method DeletePlaylist(id: int) returns (thrown: Option<Exception>)
      requires Valid()
      modifies this
      ensures Valid() && trackIds == old(trackIds) && nextId == old(nextId)
      ensures id !in old(playlists) ==> thrown == Some(EntityNotFound) && playlists == old(playlists)
      ensures id in old(playlists) ==> thrown == None && playlists == old(playlists) - {id}
    {
      if id !in playlists {
        return Some(EntityNotFound);
      }
      playlists := playlists - {id};
      thrown := None;
    }

    /**
     * addTrackToPlaylist: an unknown playlist, then an unknown track, is an
     * EntityNotFoundException; otherwise the track joins the playlist's set
     * and every other playlist is untouched.
     */
    method AddTrackToPlaylist(id: int, t: int) returns (r: Result<Playlist, Exception>)
      requires Valid()
      modifies this
      ensures Valid() && trackIds == old(trackIds) && nextId == old(nextId)
      ensures id !in old(playlists) ==> r == Err(EntityNotFound) && playlists == old(playlists)
      ensures id in old(playlists) && t !in trackIds ==> r == Err(EntityNotFound) && playlists == old(playlists)
      ensures id in old(playlists) && t in trackIds ==>
                r == Ok(WithTrack(old(playlists)[id], t)) && playlists == old(playlists)[id := r.value]
    {
      if id !in playlists {
        return Err(EntityNotFound);
      }
      if t !in trackIds {
        return Err(EntityNotFound);
      }
      var p := WithTrack(playlists[id], t);
      playlists := playlists[id := p];
      r := Ok(p);
    }

    /**
     * removeTrackFromPlaylist: an unknown playlist, then an unknown track, is
     * an EntityNotFoundException; otherwise the track leaves the playlist's
     * set and every other playlist is untouched.
     */
    method RemoveTrackFromPlaylist(id: int, t: int) returns (r: Result<Playlist, Exception>)
      requires Valid()
      modifies this
      ensures Valid() && trackIds == old(trackIds) && nextId == old(nextId)
      ensures id !in old(playlists) ==> r == Err(EntityNotFound) && playlists == old(playlists)
      ensures id in old(playlists) && t !in trackIds ==> r == Err(EntityNotFound) && playlists == old(playlists)
      ensures id in old(playlists) && t in trackIds ==>
                r == Ok(WithoutTrack(old(playlists)[id], t)) && playlists == old(playlists)[id := r.value]
    {
      if id !in playlists {
        return Err(EntityNotFound);
      }
      if t !in trackIds {
        return Err(EntityNotFound);
      }
      var p := WithoutTrack(playlists[id], t);
      playlists := playlists[id := p];
      r := Ok(p);
    }

    /** getPlaylistById: the playlist with its tracks, or an EntityNotFoundException. */
    function GetPlaylist(id: int): (r: Result<Playlist, Exception>)
      reads this
      ensures r.Ok? <==> id in playlists
      ensures r.Ok? ==> r.value == playlists[id]
      ensures r.Err? ==> r.error == EntityNotFound
    {
      if id in playlists then Ok(playlists[id]) else Err(EntityNotFound)
    }

    /** getTrackCount: the size of the playlist's track set; unknown ids are not found. */
    function GetTrackCount(id: int): (r: Result<nat, Exception>)
      reads this
      ensures r.Ok? <==> id in playlists
      ensures r.Ok? ==> r.value == |playlists[id].tracks|
      ensures r.Err? ==> r.error == EntityNotFound
    {
      if id in playlists then Ok(|playlists[id].tracks|) else Err(EntityNotFound)
    }
  }

  /** Adding a new track grows the count by one; adding one already present leaves it. */
  lemma AddTrackCount(p: Playlist, t: int)
    ensures |WithTrack(p, t).tracks| == if t in p.tracks then |p.tracks| else |p.tracks| + 1
  {
    if t !in p.tracks {
      assert WithTrack(p, t).tracks == p.tracks + {t};
      assert p.tracks * {t} == {};
    } else {
      assert WithTrack(p, t).tracks == p.tracks;
    }
  }
}
