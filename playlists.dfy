/** The playlists service: editing a playlist's name and songs, and deleting a playlist. */
module Playlists {
  import opened Wrappers
  import opened Strings
  import opened Errors
  import opened IdLists

  const PLAYLIST_NOT_FOUND := "Playlist not found"
  const PLAYLIST_NOT_FOUND_ON_REMOVE := "playlist not found"

  /** A playlist; its songs are kept as their ids, in playlist order. */
  datatype Playlist = Playlist(id: nat, name: string, songs: seq<nat>, updatedAt: Option<int>)

  /** The PATCH body; an absent id list counts as an empty one (the service treats both alike). */
  datatype UpdatePlaylistDto = UpdatePlaylistDto(name: Option<string>, songIdsToAdd: seq<nat>, songIdsToRemove: seq<nat>)

  /** The playlist and song tables. */
  class PlaylistsService {
    var playlists: map<nat, Playlist>
    var songIds: set<nat>

    constructor(playlists: map<nat, Playlist>, songIds: set<nat>)
      ensures this.playlists == playlists && this.songIds == songIds
    {
      this.playlists := playlists;
      this.songIds := songIds;
    }

    /**
     * update: an unknown playlist or an unknown song to add is a 400 and nothing is saved; otherwise the name
     * is replaced when the new one is truthy, and the songs are edited as IdLists.EditIds says.
     */
    method Update(id: nat, dto: UpdatePlaylistDto, now: int) returns (r: Result<Playlist, Exception>)
      modifies this
      ensures songIds == old(songIds)
      ensures id !in old(playlists) ==>
        r == Failure(BadRequestException(PLAYLIST_NOT_FOUND)) && playlists == old(playlists)
      ensures id in old(playlists) ==>
        var before := old(playlists)[id];
        match EditIds(before.songs, songIds, dto.songIdsToAdd, dto.songIdsToRemove)
        case Failure(missing) =>
          r == Failure(BadRequestException(SONGS_NOT_FOUND + JoinIds(missing))) && playlists == old(playlists)
        case Success(songs) =>
          && r == Success(before.(name := if Truthy(dto.name) then dto.name.value else before.name,
                                  songs := songs, updatedAt := Some(now)))
          && playlists == old(playlists)[id := r.value]
    {
      if id !in playlists {
        return Failure(BadRequestException(PLAYLIST_NOT_FOUND));
      }
      var playlist := playlists[id];
      if Truthy(dto.name) {
        playlist := playlist.(name := dto.name.value);
      }
      var found := FindExisting(songIds, dto.songIdsToAdd);
      var missing := MissingIds(found, dto.songIdsToAdd);
      if |missing| > 0 {
        return Failure(BadRequestException(SONGS_NOT_FOUND + JoinIds(missing)));
      }
      playlist := playlist.(songs := AppendNew(playlist.songs, found));
      playlist := playlist.(songs := RemoveIds(playlist.songs, dto.songIdsToRemove));
      playlist := playlist.(updatedAt := Some(now));
      playlists := playlists[id := playlist];
      return Success(playlist);
    }

    /** remove: an unknown playlist is a plain error; otherwise exactly that playlist is deleted. */
    method Remove(id: nat) returns (r: Outcome<Exception>)
      modifies this
      ensures songIds == old(songIds)
      ensures id !in old(playlists) ==> r == Fail(PlainError(PLAYLIST_NOT_FOUND_ON_REMOVE)) && playlists == old(playlists)
      ensures id in old(playlists) ==> r == Pass && playlists == old(playlists) - {id}
    {
      if id !in playlists {
        return Fail(PlainError(PLAYLIST_NOT_FOUND_ON_REMOVE));
      }
      playlists := playlists - {id};
      return Pass;
    }
  }
}
