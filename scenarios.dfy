/** Client code: example scenarios driven through the stores, relying on
    nothing but the reducers' contracts. */
module Scenarios {
  import opened Tracks
  import opened PlayerSlice
  import opened LibrarySlice

  /** nextTrack on an empty queue changes nothing. */
  method NextOnEmptyQueue(now: int, pick: nat) returns (before: PlayerState, after: PlayerState)
    ensures after == before && before.queue == []
  {
    var p := new PlayerStore(None);
    before := p.State();
    p.NextTrack(now, pick);
    after := p.State();
  }

  /** queue [a, b, c] at index 0, shuffle off: nextTrack moves to b. */
  method NextInThreeTrackQueue(a: Track, b: Track, c: Track, now: int) returns (index: nat, current: Option<Track>)
    ensures index == 1 && current == Some(b)
  {
    var p := new PlayerStore(None);
    p.SetQueue([a, b, c]);
    p.SetCurrentTrack(Some(a), now);
    p.NextTrack(now, 0);
    index, current := p.currentIndex, p.currentTrack;
  }

  /** queue [a] at index 0, shuffle on: there is no other index, so nextTrack
      stays at 0. */
  method ShuffleSingleTrack(a: Track, now: int, pick: nat) returns (index: nat, current: Option<Track>)
    ensures index == 0 && current == Some(a)
  {
    var p := new PlayerStore(None);
    p.ToggleShuffleMode();
    p.SetQueue([a]);
    assert ShuffleCandidates(1, 0) == [];
    p.NextTrack(now, pick);
    index, current := p.currentIndex, p.currentTrack;
  }

  /** Starting from index 0, as many sequential nextTrack calls as the queue
      has tracks come back to the first track. */
  method PlayThroughQueue(queue: seq<Track>, now: int) returns (index: nat, current: Option<Track>)
    requires |queue| > 0
    ensures index == 0 && current == Some(queue[0])
  {
    var p := new PlayerStore(None);
    p.SetQueue(queue);
    var k := 0;
    while k < |queue|
      invariant 0 <= k <= |queue|
      invariant p.queue == queue && !p.shuffleMode
      invariant p.currentIndex == Advance(0, |queue|, k)
      invariant k > 0 ==> p.currentTrack == Some(queue[p.currentIndex])
    {
      p.NextTrack(now, 0);
      k := k + 1;
    }
    AdvanceCycle(0, |queue|);
    index, current := p.currentIndex, p.currentTrack;
  }

  /** Nothing usable in local storage: the defaults of `initialState`. */
  method StartWithoutSavedState() returns (volume: real, mode: string, shuffle: bool)
    ensures volume == 0.7 && mode == "none" && !shuffle
  {
    var p := new PlayerStore(None);
    volume, mode, shuffle := p.volume, p.repeatMode, p.shuffleMode;
  }

  /** Create a playlist, add a track, remove it again: the playlist is still
      there and empty. */
  method AddThenRemove(t: Track, newId: string) returns (count: nat, tracks: seq<Track>)
    ensures count == 1 && tracks == []
  {
    var lib := new LibraryStore();
    lib.CreatePlaylist(PlaylistDraft("", "Favorites", None, None, None), newId);
    assert lib.playlists == [Fresh(PlaylistDraft("", "Favorites", None, None, None), newId)];
    assert PlaylistIndex(lib.playlists, newId) == 0;
    lib.AddToPlaylist(newId, t);
    assert lib.playlists[0].tracks == [t];
    assert PlaylistIndex(lib.playlists, newId) == 0;
    lib.RemoveFromPlaylist(newId, t.id);
    count, tracks := |lib.playlists|, lib.playlists[0].tracks;
  }

  /** Upload a track, delete it, upload another: the second upload counts as
      a first upload again, and since "My Uploads" still exists it is left as
      it is, without the new track. */
  method ReuploadAfterDelete(a: Track, b: Track, newId: string) returns (inUploads: bool, uploads: seq<Track>)
    ensures !inUploads && uploads == [b]
  {
    var lib := new LibraryStore();
    lib.UploadTrack(a, newId);
    assert lib.playlists == [UploadsPlaylist(a, newId)];
    lib.DeleteUploadedTrack(a.id);
    assert lib.playlists[0].name == MyUploads && lib.playlists[0].tracks == [];
    lib.UploadTrack(b, newId);
    assert UploadsIndex(lib.playlists) == 0;
    inUploads := HasTrack(lib.playlists[UploadsIndex(lib.playlists)].tracks, b.id);
    uploads := lib.uploadedTracks;
  }
}
