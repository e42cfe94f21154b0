/** The library store: playlists (ordered track lists), favourite track ids,
    uploaded tracks, and the results of the search and popular-tracks fetches
    with their loading and error flags. Every reducer is a method of
    LibraryStore; new playlist ids (`Date.now().toString()` in the store) are
    parameters, and each fetch is reduced to its pending, fulfilled and
    rejected transitions. */
module LibrarySlice {
  import opened Tracks
  import opened Seqs

  datatype Playlist = Playlist(
    id: string,
    name: string,
    tracks: seq<Track>,
    cover: Option<string>,
    description: string)

  /** The payload of createPlaylist. An empty `id` means none was given; a
      missing field is None. */
  datatype PlaylistDraft = PlaylistDraft(
    id: string,
    name: string,
    tracks: Option<seq<Track>>,
    cover: Option<string>,
    description: Option<string>)

  /** The body a fulfilled fetch delivers; `results` may be missing. */
  datatype FetchResponse = FetchResponse(results: Option<seq<Track>>)

  /** The whole state of the library store, as one value. */
  datatype LibraryState = LibraryState(
    searchResults: seq<Track>,
    popularTracks: seq<Track>,
    playlists: seq<Playlist>,
    favoriteTrackIds: seq<string>,
    uploadedTracks: seq<Track>,
    loading: bool,
    error: Option<string>)

  /** The part of the state written to local storage after a change. */
  datatype LibrarySnapshot = LibrarySnapshot(
    playlists: seq<Playlist>,
    favoriteTrackIds: seq<string>,
    uploadedTracks: seq<Track>)

  const MyUploads: string := "My Uploads"
  const MyUploadsDescription: string := "Tracks uploaded by you"
  const SearchFailed: string := "Search failed"
  const PopularFailed: string := "Failed to fetch popular tracks"

  const DefaultLibrary: LibraryState := LibraryState([], [], [], [], [], false, None)

  /** saveStateToLocalStorage: the persisted fields, and nothing else. */
  function Snapshot(s: LibraryState): (r: LibrarySnapshot)
  {
    LibrarySnapshot(s.playlists, s.favoriteTrackIds, s.uploadedTracks)
  }

  /** Two states write the same snapshot exactly when they agree on playlists,
      favourites and uploads; search and popular results, loading and error
      are never persisted. */
  lemma SnapshotFields(s: LibraryState, t: LibraryState)
    ensures Snapshot(s) == Snapshot(t) <==>
      s.playlists == t.playlists && s.favoriteTrackIds == t.favoriteTrackIds &&
      s.uploadedTracks == t.uploadedTracks
  {
  }

  // ---------------------------------------------------------------------
  // Favourites

  predicate NoDuplicates(ids: seq<string>)
  {
    forall i, j :: 0 <= i < j < |ids| ==> ids[i] != ids[j]
  }

  /** Taking one element out of a duplicate-free list leaves it
      duplicate-free and without that element. */
  lemma SpliceKeepsNoDuplicates(ids: seq<string>, i: nat)
    requires i < |ids| && NoDuplicates(ids)
    ensures NoDuplicates(ids[..i] + ids[i + 1..]) && ids[i] !in ids[..i] + ids[i + 1..]
  {
    var r := ids[..i] + ids[i + 1..];
    assert forall k :: 0 <= k < |r| ==> r[k] == ids[if k < i then k else k + 1];
  }

  lemma RemoveFirstKeepsNoDuplicates(ids: seq<string>, id: string)
    requires NoDuplicates(ids)
    ensures NoDuplicates(RemoveFirst(ids, id)) && id !in RemoveFirst(ids, id)
  {
    var i := IndexOf(ids, id);
    if i != -1 {
      SpliceKeepsNoDuplicates(ids, i);
    }
  }

  /** toggleFavorite: an absent id is appended, a present one loses its first
      occurrence. */
  function Toggled(ids: seq<string>, id: string): (r: seq<string>)
    ensures id !in ids ==> r == ids + [id]
    ensures id in ids ==> r == RemoveFirst(ids, id)
    ensures id in ids ==> |r| == |ids| - 1 && multiset(r) == multiset(ids) - multiset{id}
    ensures NoDuplicates(ids) ==> NoDuplicates(r) && (id in r <==> id !in ids)
  {
    if id in ids then
      assert NoDuplicates(ids) ==> NoDuplicates(RemoveFirst(ids, id)) && id !in RemoveFirst(ids, id) by {
        if NoDuplicates(ids) {
          RemoveFirstKeepsNoDuplicates(ids, id);
        }
      }
      RemoveFirst(ids, id)
    else
      assert NoDuplicates(ids) ==> forall k :: 0 <= k < |ids| ==> (ids + [id])[k] != id;
      ids + [id]
  }

  /** Toggling an absent id twice gives back exactly the list it started from. */
  lemma ToggleTwiceAbsent(ids: seq<string>, id: string)
    requires id !in ids
    ensures Toggled(Toggled(ids, id), id) == ids
  {
    var t := ids + [id];
    var i := IndexOf(t, id);
    assert t[|ids|] == id;
    assert i == |ids|;
    assert t[..i] + t[i + 1..] == ids;
  }

  /** Toggling a present id twice in a duplicate-free list gives back the same
      ids (as a multiset), with that id moved to the end. */
  lemma ToggleTwicePresent(ids: seq<string>, id: string)
    requires NoDuplicates(ids) && id in ids
    ensures Toggled(Toggled(ids, id), id) == RemoveFirst(ids, id) + [id]
    ensures multiset(Toggled(Toggled(ids, id), id)) == multiset(ids)
  {
    RemoveFirstKeepsNoDuplicates(ids, id);
  }

  // ---------------------------------------------------------------------
  // Tracks inside a playlist

  /** `tracks.some(t => t.id === id)`. */
  predicate HasTrack(tracks: seq<Track>, id: string)
  {
    exists k :: 0 <= k < |tracks| && tracks[k].id == id
  }

  /** No two tracks of the list share an id. */
  predicate UniqueTrackIds(tracks: seq<Track>)
  {
    forall i, j :: 0 <= i < j < |tracks| ==> tracks[i].id != tracks[j].id
  }

  /** Every playlist is free of duplicate track ids. */
  predicate AllUnique(ps: seq<Playlist>)
  {
    forall k :: 0 <= k < |ps| ==> UniqueTrackIds(ps[k].tracks)
  }

  /** addToPlaylist's step on the found playlist: append the track unless one
      with its id is already there. */
  function WithTrack(p: Playlist, t: Track): (r: Playlist)
    ensures r.id == p.id && r.name == p.name && r.cover == p.cover && r.description == p.description
    ensures HasTrack(p.tracks, t.id) ==> r == p
    ensures !HasTrack(p.tracks, t.id) ==> r.tracks == p.tracks + [t]
    ensures HasTrack(r.tracks, t.id)
    ensures UniqueTrackIds(p.tracks) ==> UniqueTrackIds(r.tracks)
  {
    if HasTrack(p.tracks, t.id) then p
    else
      var r := p.(tracks := p.tracks + [t]);
      assert r.tracks[|p.tracks|].id == t.id;
      r
  }

  /** `t => t.id !== id`. */
  function Keeps(id: string): Track -> bool
  {
    (t: Track) => t.id != id
  }

  /** `tracks.filter(t => t.id !== id)`. */
  function DropTrack(tracks: seq<Track>, id: string): (r: seq<Track>)
    ensures !HasTrack(r, id)
    ensures forall k :: 0 <= k < |tracks| && tracks[k].id != id ==> tracks[k] in r
    ensures forall k :: 0 <= k < |r| ==> r[k] in tracks
    ensures !HasTrack(tracks, id) ==> r == tracks
    ensures UniqueTrackIds(tracks) ==> UniqueTrackIds(r)
  {
    var r := Filter(tracks, Keeps(id));
    if !HasTrack(tracks, id) then
      FilterKeepsAll(tracks, Keeps(id));
      r
    else
      FilterKeepsUnique(tracks, Keeps(id));
      r
  }

  /** Removing a track keeps the others in their order: removing from a
      concatenation is removing from each part. */
  lemma DropTrackKeepsOrder(a: seq<Track>, b: seq<Track>, id: string)
    ensures DropTrack(a + b, id) == DropTrack(a, id) + DropTrack(b, id)
  {
    FilterConcat(a, b, Keeps(id));
  }

  /** Filtering a duplicate-free track list leaves it duplicate-free. */
  lemma {:induction false} FilterKeepsUnique(tracks: seq<Track>, p: Track -> bool)
    ensures UniqueTrackIds(tracks) ==> UniqueTrackIds(Filter(tracks, p))
    decreases |tracks|
  {
    if tracks != [] && UniqueTrackIds(tracks) {
      var rest := Filter(tracks[1..], p);
      FilterKeepsUnique(tracks[1..], p);
      if p(tracks[0]) {
        var r := [tracks[0]] + rest;
        forall k | 0 <= k < |rest|
          ensures rest[k].id != tracks[0].id
        {
          assert rest[k] in tracks[1..];
        }
        assert forall j :: 1 <= j < |r| ==> r[j] == rest[j - 1];
      }
    }
  }

  /** removeFromPlaylist's step on the found playlist. */
  function Strip(p: Playlist, id: string): (r: Playlist)
    ensures r.id == p.id && r.name == p.name && r.cover == p.cover && r.description == p.description
    ensures r.tracks == DropTrack(p.tracks, id)
  {
    p.(tracks := Filter(p.tracks, Keeps(id)))
  }

  // ---------------------------------------------------------------------
  // Finding and changing playlists

  /** `p => p.id === id`. */
  function ById(id: string): Playlist -> bool
  {
    (p: Playlist) => p.id == id
  }

  /** `p => p.name === "My Uploads"`. */
  function IsMyUploads(): Playlist -> bool
  {
    (p: Playlist) => p.name == MyUploads
  }

  function Adding(t: Track): Playlist -> Playlist
  {
    (p: Playlist) => WithTrack(p, t)
  }

  function Stripping(id: string): Playlist -> Playlist
  {
    (p: Playlist) => Strip(p, id)
  }

  /** `playlists.findIndex(p => p.id === id)`. */
  function PlaylistIndex(ps: seq<Playlist>, id: string): (r: int)
    ensures -1 <= r < |ps|
    ensures r == -1 <==> forall k :: 0 <= k < |ps| ==> ps[k].id != id
    ensures 0 <= r ==> ps[r].id == id && forall k :: 0 <= k < r ==> ps[k].id != id
  {
    FindIndex(ps, ById(id))
  }

  /** The position of the first playlist named "My Uploads", or -1. */
  function UploadsIndex(ps: seq<Playlist>): (r: int)
    ensures -1 <= r < |ps|
    ensures r == -1 <==> forall k :: 0 <= k < |ps| ==> ps[k].name != MyUploads
    ensures 0 <= r ==> ps[r].name == MyUploads && forall k :: 0 <= k < r ==> ps[k].name != MyUploads
  {
    FindIndex(ps, IsMyUploads())
  }

  /** addToPlaylist on the list of playlists. */
  function AddTrack(ps: seq<Playlist>, pid: string, t: Track): (r: seq<Playlist>)
    ensures var i := PlaylistIndex(ps, pid);
      r == if i == -1 then ps else ps[i := WithTrack(ps[i], t)]
  {
    UpdateFirstAt(ps, ById(pid), Adding(t));
    UpdateFirst(ps, ById(pid), Adding(t))
  }

  /** Adding the same track to the same playlist a second time changes
      nothing. */
  lemma AddTrackIdempotent(ps: seq<Playlist>, pid: string, t: Track)
    ensures AddTrack(AddTrack(ps, pid, t), pid, t) == AddTrack(ps, pid, t)
  {
    var i := PlaylistIndex(ps, pid);
    if i != -1 {
      FindIndexAfterUpdate(ps, ById(pid), WithTrack(ps[i], t));
    }
  }

  /** Adding keeps every playlist free of duplicate track ids, leaves the
      number of playlists alone, and a known playlist then holds the track. */
  lemma AddTrackKeepsUnique(ps: seq<Playlist>, pid: string, t: Track)
    requires AllUnique(ps)
    ensures AllUnique(AddTrack(ps, pid, t))
    ensures |AddTrack(ps, pid, t)| == |ps|
    ensures PlaylistIndex(ps, pid) != -1 ==> HasTrack(AddTrack(ps, pid, t)[PlaylistIndex(ps, pid)].tracks, t.id)
  {
  }

  /** removeFromPlaylist on the list of playlists. */
  function RemoveTrack(ps: seq<Playlist>, pid: string, tid: string): (r: seq<Playlist>)
    ensures var i := PlaylistIndex(ps, pid);
      r == if i == -1 then ps else ps[i := Strip(ps[i], tid)]
  {
    UpdateFirstAt(ps, ById(pid), Stripping(tid));
    UpdateFirst(ps, ById(pid), Stripping(tid))
  }

  /** Removing leaves every playlist in place (possibly empty), takes every
      track with that id out of the found playlist only, and keeps
      duplicate-freedom. */
  lemma RemoveTrackEffect(ps: seq<Playlist>, pid: string, tid: string)
    ensures var r := RemoveTrack(ps, pid, tid);
      && |r| == |ps|
      && (forall k :: 0 <= k < |ps| ==> r[k].id == ps[k].id && r[k].name == ps[k].name)
      && (forall k :: 0 <= k < |ps| && k != PlaylistIndex(ps, pid) ==> r[k] == ps[k])
      && (PlaylistIndex(ps, pid) != -1 ==> !HasTrack(r[PlaylistIndex(ps, pid)].tracks, tid))
      && (AllUnique(ps) ==> AllUnique(r))
  {
  }

  /** Removing the same track from the same playlist a second time changes
      nothing. */
  lemma RemoveTrackIdempotent(ps: seq<Playlist>, pid: string, tid: string)
    ensures RemoveTrack(RemoveTrack(ps, pid, tid), pid, tid) == RemoveTrack(ps, pid, tid)
  {
    var i := PlaylistIndex(ps, pid);
    if i != -1 {
      FindIndexAfterUpdate(ps, ById(pid), Strip(ps[i], tid));
      FilterIdempotent(ps[i].tracks, Keeps(tid));
    }
  }

  /** `playlists.filter(p => p.id !== id)`. */
  function OtherThan(id: string): Playlist -> bool
  {
    (p: Playlist) => p.id != id
  }

  /** deletePlaylist on the list of playlists: every playlist with that id
      goes, every other one stays. */
  function WithoutPlaylist(ps: seq<Playlist>, id: string): (r: seq<Playlist>)
    ensures PlaylistIndex(r, id) == -1
    ensures forall k :: 0 <= k < |ps| && ps[k].id != id ==> ps[k] in r
    ensures forall k :: 0 <= k < |r| ==> r[k] in ps
    ensures PlaylistIndex(ps, id) == -1 ==> r == ps
  {
    var r := Filter(ps, OtherThan(id));
    assert forall k :: 0 <= k < |r| ==> OtherThan(id)(r[k]);
    if PlaylistIndex(ps, id) == -1 then
      assert forall k :: 0 <= k < |ps| ==> OtherThan(id)(ps[k]);
      FilterKeepsAll(ps, OtherThan(id));
      r
    else r
  }

  /** Deleting keeps the survivors in their order: deleting from a
      concatenation is deleting from each part. */
  lemma WithoutPlaylistKeepsOrder(a: seq<Playlist>, b: seq<Playlist>, id: string)
    ensures WithoutPlaylist(a + b, id) == WithoutPlaylist(a, id) + WithoutPlaylist(b, id)
  {
    FilterConcat(a, b, OtherThan(id));
  }

  /** Deleting a playlist leaves the others as they were, so they stay free
      of duplicate track ids. */
  lemma WithoutPlaylistKeepsUnique(ps: seq<Playlist>, id: string)
    requires AllUnique(ps)
    ensures AllUnique(WithoutPlaylist(ps, id))
  {
    var r := WithoutPlaylist(ps, id);
    forall k | 0 <= k < |r|
      ensures UniqueTrackIds(r[k].tracks)
    {
      var j :| 0 <= j < |ps| && ps[j] == r[k];
    }
  }

  // ---------------------------------------------------------------------
  // Creating playlists

  /** A playlist updated from a draft: the name is always replaced, tracks,
      cover and description only by values that are present (tracks) or
      truthy (cover, description). */
  function Merged(p: Playlist, d: PlaylistDraft): (r: Playlist)
    ensures r.id == p.id && r.name == d.name
    ensures r.tracks == if d.tracks.Some? then d.tracks.value else p.tracks
    ensures r.cover == if Truthy(d.cover) then d.cover else p.cover
    ensures r.description == OrString(d.description, p.description)
  {
    p.(name := d.name,
       tracks := if d.tracks.Some? then d.tracks.value else p.tracks,
       cover := if Truthy(d.cover) then d.cover else p.cover,
       description := if Truthy(d.description) then d.description.value else p.description)
  }

  /** A new playlist from a draft, with tracks defaulting to [], cover to null
      and description to ''. */
  function Fresh(d: PlaylistDraft, newId: string): (r: Playlist)
    ensures r.id == newId && r.name == d.name
    ensures r.tracks == if d.tracks.Some? then d.tracks.value else []
    ensures r.cover == if Truthy(d.cover) then d.cover else None
    ensures r.description == OrString(d.description, "")
  {
    Playlist(newId, d.name,
      if d.tracks.Some? then d.tracks.value else [],
      if Truthy(d.cover) then d.cover else None,
      if Truthy(d.description) then d.description.value else "")
  }

  /** Whether createPlaylist updates in place: the draft names an id that an
      existing playlist has. */
  predicate Updates(ps: seq<Playlist>, d: PlaylistDraft)
  {
    d.id != "" && PlaylistIndex(ps, d.id) != -1
  }

  /** createPlaylist on the list of playlists. */
  function Created(ps: seq<Playlist>, d: PlaylistDraft, newId: string): (r: seq<Playlist>)
    ensures Updates(ps, d) ==>
      var i := PlaylistIndex(ps, d.id);
      |r| == |ps| && r[i] == Merged(ps[i], d) && forall k :: 0 <= k < |ps| && k != i ==> r[k] == ps[k]
    ensures !Updates(ps, d) ==> |r| == |ps| + 1 && r[..|ps|] == ps && r[|ps|] == Fresh(d, newId)
  {
    if Updates(ps, d) then
      var i := PlaylistIndex(ps, d.id);
      ps[i := Merged(ps[i], d)]
    else ps + [Fresh(d, newId)]
  }

  /** After createPlaylist the playlist it wrote can be found again by id:
      the updated one at its old place, a new one (with an id not yet used) at
      the end. */
  lemma CreatedIsFound(ps: seq<Playlist>, d: PlaylistDraft, newId: string)
    ensures Updates(ps, d) ==> PlaylistIndex(Created(ps, d, newId), d.id) == PlaylistIndex(ps, d.id)
    ensures !Updates(ps, d) && PlaylistIndex(ps, newId) == -1 ==>
      PlaylistIndex(Created(ps, d, newId), newId) == |ps|
  {
    if Updates(ps, d) {
      var i := PlaylistIndex(ps, d.id);
      FindIndexAfterUpdate(ps, ById(d.id), Merged(ps[i], d));
    } else if PlaylistIndex(ps, newId) == -1 {
      var r := Created(ps, d, newId);
      assert forall k :: 0 <= k < |ps| ==> r[k] == ps[k];
    }
  }

  /** Saving the same edit of an existing playlist twice is saving it once. */
  lemma CreatedUpdateIdempotent(ps: seq<Playlist>, d: PlaylistDraft, newId: string, newId': string)
    requires Updates(ps, d)
    ensures Created(Created(ps, d, newId), d, newId') == Created(ps, d, newId)
  {
    CreatedIsFound(ps, d, newId);
  }

  /** createPlaylist keeps every playlist free of duplicate track ids as long
      as the tracks it is given are; it does not check them itself. */
  lemma CreatedKeepsUnique(ps: seq<Playlist>, d: PlaylistDraft, newId: string)
    requires AllUnique(ps)
    requires d.tracks.Some? ==> UniqueTrackIds(d.tracks.value)
    ensures AllUnique(Created(ps, d, newId))
  {
    var r := Created(ps, d, newId);
    if !Updates(ps, d) {
      assert forall k :: 0 <= k < |ps| ==> r[k] == ps[k];
    }
  }

  /** A draft whose tracks repeat an id yields a playlist with a duplicate:
      nothing in createPlaylist filters them. */
  lemma CreatedCanDuplicate(t: Track, newId: string)
    ensures !AllUnique(Created([], PlaylistDraft("", "Mix", Some([t, t]), None, None), newId))
  {
    var r := Created([], PlaylistDraft("", "Mix", Some([t, t]), None, None), newId);
    assert r[0].tracks == [t, t];
    assert r[0].tracks[0].id == r[0].tracks[1].id;
  }

  // ---------------------------------------------------------------------
  // Uploads

  /** The playlist created for the first upload. */
  function UploadsPlaylist(t: Track, newId: string): (r: Playlist)
    ensures r.id == newId && r.name == MyUploads && r.tracks == [t]
    ensures r.cover == if Truthy(t.image) then t.image else None
    ensures r.description == MyUploadsDescription
  {
    Playlist(newId, MyUploads, [t], if Truthy(t.image) then t.image else None, MyUploadsDescription)
  }

  /** uploadTrack on the list of playlists; `first` says whether the upload
      list was empty before. */
  function Uploaded(ps: seq<Playlist>, first: bool, t: Track, newId: string): (r: seq<Playlist>)
    ensures first && UploadsIndex(ps) == -1 ==> r == ps + [UploadsPlaylist(t, newId)]
    ensures first && UploadsIndex(ps) != -1 ==> r == ps
    ensures !first ==> var i := UploadsIndex(ps);
      r == if i == -1 then ps else ps[i := WithTrack(ps[i], t)]
  {
    if first then
      if UploadsIndex(ps) == -1 then ps + [UploadsPlaylist(t, newId)] else ps
    else
      UpdateFirstAt(ps, IsMyUploads(), Adding(t));
      UpdateFirst(ps, IsMyUploads(), Adding(t))
  }

  /** After an upload a "My Uploads" playlist exists and holds the track,
      except on a first upload when a playlist of that name already existed:
      then the playlists are left as they were. */
  lemma UploadedHoldsTrack(ps: seq<Playlist>, first: bool, t: Track, newId: string)
    requires !first || UploadsIndex(ps) == -1
    requires first || UploadsIndex(ps) != -1
    ensures var r := Uploaded(ps, first, t, newId);
      UploadsIndex(r) != -1 && HasTrack(r[UploadsIndex(r)].tracks, t.id)
  {
    var r := Uploaded(ps, first, t, newId);
    if first {
      assert forall k :: 0 <= k < |ps| ==> r[k] == ps[k];
      assert r[|ps|].tracks[0] == t;
    } else {
      var i := UploadsIndex(ps);
      FindIndexAfterUpdate(ps, IsMyUploads(), WithTrack(ps[i], t));
    }
  }

  /** The number of playlists grows by one exactly when the first upload
      creates "My Uploads". */
  lemma UploadedCount(ps: seq<Playlist>, first: bool, t: Track, newId: string)
    ensures |Uploaded(ps, first, t, newId)| == |ps| + (if first && UploadsIndex(ps) == -1 then 1 else 0)
  {
  }

  /** Uploading keeps every playlist free of duplicate track ids: the new
      "My Uploads" holds one track, and a later upload appends only a track
      whose id is not there yet. */
  lemma UploadedKeepsUnique(ps: seq<Playlist>, first: bool, t: Track, newId: string)
    requires AllUnique(ps)
    ensures AllUnique(Uploaded(ps, first, t, newId))
  {
    var r := Uploaded(ps, first, t, newId);
    if first && UploadsIndex(ps) == -1 {
      assert forall k :: 0 <= k < |ps| ==> r[k] == ps[k];
    }
  }

  /** deleteUploadedTrack's forEach over the playlists. */
  function StripAll(ps: seq<Playlist>, id: string): (r: seq<Playlist>)
    ensures |r| == |ps|
    ensures forall k :: 0 <= k < |ps| ==> r[k] == Strip(ps[k], id)
    ensures forall k :: 0 <= k < |r| ==> !HasTrack(r[k].tracks, id)
    decreases |ps|
  {
    if ps == [] then []
    else [Strip(ps[0], id)] + StripAll(ps[1..], id)
  }

  /** Removing a track from every playlist keeps them free of duplicate
      track ids. */
  lemma StripAllKeepsUnique(ps: seq<Playlist>, id: string)
    requires AllUnique(ps)
    ensures AllUnique(StripAll(ps, id))
  {
  }

  /** The `forEach` loop of deleteUploadedTrack: every playlist's tracks are
      reassigned to the filtered list, one playlist after the other. */
  method StripEach(ps: seq<Playlist>, id: string) returns (r: seq<Playlist>)
    ensures r == StripAll(ps, id)
  {
    r := ps;
    var k := 0;
    while k < |r|
      invariant 0 <= k <= |r| == |ps|
      invariant forall j :: 0 <= j < k ==> r[j] == Strip(ps[j], id)
      invariant forall j :: k <= j < |r| ==> r[j] == ps[j]
    {
      var playlist := r[k];
      r := r[k := playlist.(tracks := Filter(playlist.tracks, Keeps(id)))];
      k := k + 1;
    }
  }

  // ---------------------------------------------------------------------
  // Fetch lifecycle

  /** `action.payload.results || []`. */
  function Results(resp: FetchResponse): (r: seq<Track>)
    ensures resp.results.Some? ==> r == resp.results.value
    ensures resp.results.None? ==> r == []
  {
    if resp.results.Some? then resp.results.value else []
  }

  /** The rejection payload of a fetch: `error.response?.data || fallback`.
      It is the server's data when that is truthy and the fixed message
      otherwise, so with a non-empty message the recorded error is never
      empty. */
  function RejectValue(responseData: Option<string>, fallback: string): (r: string)
    ensures Truthy(responseData) ==> r == responseData.value
    ensures !Truthy(responseData) ==> r == fallback
    ensures r == fallback || Some(r) == responseData
    ensures fallback != "" ==> r != ""
  {
    OrString(responseData, fallback)
  }

  // ---------------------------------------------------------------------
  // The store

  class LibraryStore {
    var searchResults: seq<Track>
    var popularTracks: seq<Track>
    var playlists: seq<Playlist>
    var favoriteTrackIds: seq<string>
    var uploadedTracks: seq<Track>
    var loading: bool
    var error: Option<string>

    /** The fields as one value. */
    function State(): LibraryState
      reads this
    {
      LibraryState(searchResults, popularTracks, playlists, favoriteTrackIds, uploadedTracks, loading, error)
    }

    /** The store as created when nothing is saved. */
    constructor ()
      ensures State() == DefaultLibrary
    {
      searchResults := [];
      popularTracks := [];
      playlists := [];
      favoriteTrackIds := [];
      uploadedTracks := [];
      loading := false;
      error := None;
    }

    method ToggleFavorite(trackId: string)
      modifies this
      ensures State() == old(State()).(favoriteTrackIds := Toggled(old(favoriteTrackIds), trackId))
    {
      var index := IndexOf(favoriteTrackIds, trackId);
      if index == -1 {
        favoriteTrackIds := favoriteTrackIds + [trackId];
      } else {
        favoriteTrackIds := favoriteTrackIds[..index] + favoriteTrackIds[index + 1..];
      }
    }

    method CreatePlaylist(draft: PlaylistDraft, newId: string)
      modifies this
      ensures State() == old(State()).(playlists := Created(old(playlists), draft, newId))
    {
      if draft.id != "" {
        var index := PlaylistIndex(playlists, draft.id);
        if index != -1 {
          playlists := playlists[index := Merged(playlists[index], draft)];
          return;
        }
      }
      playlists := playlists + [Fresh(draft, newId)];
    }

    method AddToPlaylist(playlistId: string, track: Track)
      modifies this
      ensures State() == old(State()).(playlists := AddTrack(old(playlists), playlistId, track))
    {
      var index := PlaylistIndex(playlists, playlistId);
      if index != -1 {
        var playlist := playlists[index];
        if !HasTrack(playlist.tracks, track.id) {
          playlists := playlists[index := playlist.(tracks := playlist.tracks + [track])];
        }
      }
    }

    method RemoveFromPlaylist(playlistId: string, trackId: string)
      modifies this
      ensures State() == old(State()).(playlists := RemoveTrack(old(playlists), playlistId, trackId))
    {
      var index := PlaylistIndex(playlists, playlistId);
      if index != -1 {
        var playlist := playlists[index];
        playlists := playlists[index := playlist.(tracks := Filter(playlist.tracks, Keeps(trackId)))];
      }
    }

    method DeletePlaylist(playlistId: string)
      modifies this
      ensures State() == old(State()).(playlists := WithoutPlaylist(old(playlists), playlistId))
    {
      playlists := Filter(playlists, OtherThan(playlistId));
    }

    method UploadTrack(track: Track, newId: string)
      modifies this
      ensures State() == old(State()).(
        uploadedTracks := old(uploadedTracks) + [track],
        playlists := Uploaded(old(playlists), old(uploadedTracks) == [], track, newId))
    {
      uploadedTracks := uploadedTracks + [track];
      if |uploadedTracks| == 1 {
        var index := UploadsIndex(playlists);
        if index == -1 {
          playlists := playlists + [UploadsPlaylist(track, newId)];
        }
      } else {
        var index := UploadsIndex(playlists);
        if index != -1 {
          var uploads := playlists[index];
          if !HasTrack(uploads.tracks, track.id) {
            playlists := playlists[index := uploads.(tracks := uploads.tracks + [track])];
          }
        }
      }
    }

    /** Removes an uploaded track everywhere: from the uploads, from every
        playlist, and its first occurrence from the favourites. */
    method DeleteUploadedTrack(trackId: string)
      modifies this
      ensures State() == old(State()).(
        uploadedTracks := DropTrack(old(uploadedTracks), trackId),
        playlists := StripAll(old(playlists), trackId),
        favoriteTrackIds := RemoveFirst(old(favoriteTrackIds), trackId))
      ensures !HasTrack(uploadedTracks, trackId)
      ensures |playlists| == old(|playlists|)
      ensures forall k :: 0 <= k < |playlists| ==> !HasTrack(playlists[k].tracks, trackId)
    {
      var uploads := Filter(uploadedTracks, Keeps(trackId));
      assert uploads == DropTrack(uploadedTracks, trackId);
      var lists := StripEach(playlists, trackId);
      var favorites := favoriteTrackIds;
      var favoriteIndex := IndexOf(favorites, trackId);
      if favoriteIndex != -1 {
        favorites := favorites[..favoriteIndex] + favorites[favoriteIndex + 1..];
      }
      assert favorites == RemoveFirst(favoriteTrackIds, trackId);
      uploadedTracks, playlists, favoriteTrackIds := uploads, lists, favorites;
    }

    method SearchPending()
      modifies this
      ensures State() == old(State()).(loading := true, error := None)
    {
      loading := true;
      error := None;
    }

    method SearchFulfilled(response: FetchResponse)
      modifies this
      ensures State() == old(State()).(loading := false, searchResults := Results(response))
    {
      loading := false;
      searchResults := if response.results.Some? then response.results.value else [];
    }

    /** The thunk rejected with `error.response?.data || '…'`; `responseData`
        is the server's response body, None when there was no response. */
    method SearchRejected(responseData: Option<string>)
      modifies this
      ensures State() == old(State()).(loading := false, error := Some(RejectValue(responseData, SearchFailed)))
      ensures error.Some? && error.value != ""
    {
      loading := false;
      error := Some(RejectValue(responseData, SearchFailed));
    }

    method PopularPending()
      modifies this
      ensures State() == old(State()).(loading := true, error := None)
    {
      loading := true;
      error := None;
    }

    method PopularFulfilled(response: FetchResponse)
      modifies this
      ensures State() == old(State()).(loading := false, popularTracks := Results(response))
    {
      loading := false;
      popularTracks := if response.results.Some? then response.results.value else [];
    }

    /** The thunk rejected with `error.response?.data || '…'`; `responseData`
        is the server's response body, None when there was no response. */
    method PopularRejected(responseData: Option<string>)
      modifies this
      ensures State() == old(State()).(loading := false, error := Some(RejectValue(responseData, PopularFailed)))
      ensures error.Some? && error.value != ""
    {
      loading := false;
      error := Some(RejectValue(responseData, PopularFailed));
    }
  }
}
