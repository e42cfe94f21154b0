# Music-Dimension stores in Dafny

This project models the two Redux slices that hold the application's state. It
proves properties of the model.

- The **player store** (`src/store/playerSlice.js`) holds:
  - the current track, the play flag, and the queue with an index into it;
  - volume, repeat mode and shuffle mode;
  - a resume record per track id (`lastPosition`, `lastPlayed`).
- The **library store** (`src/store/librarySlice.js`) holds:
  - playlists, favourite track ids and uploaded tracks;
  - search and popular-track results, with one shared loading flag and one
    shared error.

Each store is a Dafny class (`PlayerSlice.PlayerStore`, `LibrarySlice.LibraryStore`).
Its fields are the slice's state, and it has one method per reducer. Each method
changes its fields the way the reducer changes the state draft. Its `ensures`
clause gives the whole new state as `State() == old(State()).(…)`. The changed
fields are written with named functions (`NextIndex`, `ShuffleIndex`, `Touched`,
`Rewound`, `Toggled`, `AddTrack`, `Created`, `Uploaded`, …). The properties the
stores promise are proved about those functions, as their own contracts and as
lemmas.

Values from outside the reducers are parameters:
- `now` replaces `Date.now()`;
- `pick` replaces `Math.floor(Math.random() * candidates.length)`. A precondition
  (`PickAllowed`) requires it to be a position in the candidate list;
- `newId` replaces `Date.now().toString()` for new playlists;
- the record parsed from local storage is an `Option<SavedPlayer>`.

How JavaScript values are represented:
- A missing or falsy string (an id, a cover, a description) is `""`, or `None`
  where that field is optional.
- `null`/`undefined` is `None`.
- Volume and positions are `real`s. Timestamps are `int`s.

Files:
- `tracks.dfy`: `Option`, `Track`, and JavaScript truthiness.
- `seqs.dfy`: `findIndex`, `indexOf`, `splice` at the first occurrence, `filter`,
  and "find the first match and change it in place".
- `player.dfy`: the player store.
- `library.dfy`: the library store.
- `scenarios.dfy`: example scenarios driven through the stores, using only the
  reducers' contracts.

Behaviour of the code worth knowing:
- **Repeat cycle.** The store's reducer steps forward through
  `['none', 'one', 'all']`, so the cycle is `none → one → all → none`, and any
  other value becomes `none`. The player component's local copy of the cycle
  goes the other way. The model follows the store.
- **Index past the end.** `setQueue` replaces the queue and leaves
  `currentIndex` alone, so after a shrinking `setQueue` the index can point
  past the end. When it equals the new length, prevTrack steps back to the last
  track. Only when it is greater than the new length does prevTrack read past
  the end and leave `currentTrack` undefined (`At` returns `None`). nextTrack
  always brings the index back into range.
- **Favourites toggled twice.** When the id was absent, two toggles restore the
  exact list. When the id was present, the second toggle appends it at the end.
  So the list is restored only as a multiset (`ToggleTwicePresent`).
- **Re-uploading.** Only the first upload can create "My Uploads", and it does
  nothing when a playlist of that name already exists. After every uploaded
  track has been deleted, the next upload counts as a first upload again. That
  upload does not add the track to the "My Uploads" playlist that is still there
  (`Scenarios.ReuploadAfterDelete`).
- **Duplicate track ids.** addToPlaylist, removeFromPlaylist, deletePlaylist,
  uploadTrack and deleteUploadedTrack keep every playlist free of duplicate
  track ids. createPlaylist copies the tracks it is given without checking
  them, so it keeps the property only when those tracks have distinct ids
  (`CreatedKeepsUnique`, `CreatedCanDuplicate`).

## Model

| member | source | states |
|---|---|---|
| `Seqs.FindIndex` | src/store/librarySlice.js:73 | the result is the first index whose element satisfies the predicate, and it is -1 exactly when no element does |
| `Seqs.FindIndexAfterUpdate` | src/store/librarySlice.js:76 | replacing the found element by one that still matches leaves the found index unchanged |
| `Seqs.IndexOf` | src/store/librarySlice.js:57 | the first position of the value; -1 exactly when it is absent; no earlier occurrence |
| `Seqs.RemoveFirst` | src/store/librarySlice.js:177-180 | removes one occurrence (the multiset loses one copy), and it is the first one; the rest stays in order; an absent value leaves the list unchanged |
| `Seqs.Filter` | src/store/librarySlice.js:120 | every kept element satisfies the predicate and comes from the input, and every input element that satisfies it is kept |
| `Seqs.FilterConcat` | src/store/librarySlice.js:128 | filtering distributes over concatenation, so the survivors keep their relative order |
| `Seqs.FilterKeepsAll` | src/store/librarySlice.js:120 | a filter that every element passes returns the list unchanged |
| `Seqs.FilterIdempotent` | src/store/librarySlice.js:120 | filtering twice is filtering once |
| `Seqs.UpdateFirstAt` | src/store/librarySlice.js:104-109 | "find, then change in place" changes exactly the element at the index `findIndex` reports, or nothing |
| `PlayerSlice.LoadSavedState` | src/store/playerSlice.js:4-25 | nothing stored gives null, and anything stored gives a state; current track, play flag, queue and index are always reset; a loaded state never has volume 0 or an empty repeat mode; every present, truthy stored setting is loaded unchanged, and a missing or falsy one becomes its default (0.7, "none", false, {}) |
| `PlayerSlice.InitialState` | src/store/playerSlice.js:27-36 | the initial state is the loaded state, or the defaults (0.7, "none", false, {}) when nothing was loaded; it is always reset |
| `PlayerSlice.SnapshotFields` | src/store/playerSlice.js:177-182 | two states write equal snapshots exactly when they agree on volume, repeat mode, shuffle mode and resume records |
| `PlayerSlice.SnapshotRoundTrip` | src/store/playerSlice.js:10-18 | saving and then loading restores the persisted settings if and only if the volume is not 0 and the repeat mode is not empty |
| `PlayerSlice.NextIndex` | src/store/playerSlice.js:105 | the sequential successor is always in range, is one more before the end, and wraps the last index to 0 |
| `PlayerSlice.PrevIndex` | src/store/playerSlice.js:124-128 | a positive index goes down by one, 0 wraps to the last index, and an index within the queue stays in range |
| `PlayerSlice.PrevNextInverse` | src/store/playerSlice.js:104-128 | on an in-range index, prevTrack's step undoes nextTrack's sequential step and vice versa |
| `PlayerSlice.AdvanceSplits` | src/store/playerSlice.js:104-107 | k sequential steps followed by m more are k + m steps |
| `PlayerSlice.AdvanceCycle` | src/store/playerSlice.js:104-107 | as many sequential next steps as the queue is long return to the starting index |
| `PlayerSlice.ShuffleCandidates` | src/store/playerSlice.js:94-97 | the candidates are exactly the indices below the length other than the current one, in increasing order; there are length-1 of them when the index is in range and length of them otherwise |
| `PlayerSlice.ShuffleIndex` | src/store/playerSlice.js:92-102 | the shuffled index is in range and differs from the old one when the queue has more than one track (or the old index was out of range); a one-track queue at index 0 stays at 0 |
| `PlayerSlice.ShuffleReachesEvery` | src/store/playerSlice.js:99-101 | every index other than the current one is the result of some allowed draw |
| `PlayerSlice.NextRepeatMode` | src/store/playerSlice.js:140-143 | none goes to one, one to all, and all to none; any other value goes to none; the result is always a known mode |
| `PlayerSlice.RepeatModeCycle` | src/store/playerSlice.js:140-143 | three toggles are the identity on the known modes |
| `PlayerSlice.Touched` | src/store/playerSlice.js:47-57 | with no id nothing changes; a new id gets {0, now}; a known id keeps its lastPosition and gets lastPlayed = now; every other entry is unchanged |
| `PlayerSlice.Rewound` | src/store/playerSlice.js:84-90 | the outgoing track's entry, created if absent, becomes {0, now}; every other entry is unchanged |
| `PlayerSlice.Repositioned` | src/store/playerSlice.js:154-157 | only an existing entry with a truthy id changes, and only its lastPosition; otherwise the map is unchanged |
| `PlayerSlice.ResumeKeysGrow` | src/store/playerSlice.js:42-162 | no reducer removes a resume record |
| `PlayerSlice.PlayerStore.constructor` | src/store/playerSlice.js:27-40 | the store starts in `InitialState` of what was saved |
| `PlayerSlice.PlayerStore.SetCurrentTrack` | src/store/playerSlice.js:42-61 | sets the track, forces isPlaying = true, updates the resume records by `Touched`; nothing else changes |
| `PlayerSlice.PlayerStore.TogglePlayPause` | src/store/playerSlice.js:62-67 | flips isPlaying and nothing else, so two calls restore the state |
| `PlayerSlice.PlayerStore.SetQueue` | src/store/playerSlice.js:68-73 | replaces the queue; the current track and index are left alone |
| `PlayerSlice.PlayerStore.AddToQueue` | src/store/playerSlice.js:74-79 | appends exactly one track at the end of the queue; nothing else changes |
| `PlayerSlice.PlayerStore.NextTrack` | src/store/playerSlice.js:80-111 | on an empty queue the whole state is unchanged; otherwise the outgoing track is rewound, the index moves by `ShuffleIndex` or `NextIndex`, it ends in range, and the current track is the queue entry at that index; nothing else changes |
| `PlayerSlice.PlayerStore.PrevTrack` | src/store/playerSlice.js:112-133 | on an empty queue the whole state is unchanged; otherwise the outgoing track is rewound, the index moves by `PrevIndex`, and the current track is the queue entry there (undefined past the end); an old index at most the queue length gives an in-range index and a track, and one greater than the length gives no track |
| `PlayerSlice.PlayerStore.SetVolume` | src/store/playerSlice.js:134-139 | stores the volume as given, without clamping |
| `PlayerSlice.PlayerStore.ToggleRepeatMode` | src/store/playerSlice.js:140-147 | sets the repeat mode to `NextRepeatMode` of the old one; nothing else changes |
| `PlayerSlice.PlayerStore.ToggleShuffleMode` | src/store/playerSlice.js:148-153 | flips shuffleMode and nothing else |
| `PlayerSlice.PlayerStore.UpdateTrackPosition` | src/store/playerSlice.js:154-162 | changes the resume records by `Repositioned`; without a truthy id that already has an entry, the whole state is unchanged |
| `PlayerSlice.PlayerStore.ClearQueue` | src/store/playerSlice.js:163-169 | empties the queue and resets the index to 0; the current track stays |
| `LibrarySlice.SnapshotFields` | src/store/librarySlice.js:223-227 | two states write equal snapshots exactly when they agree on playlists, favourites and uploads |
| `LibrarySlice.SpliceKeepsNoDuplicates` | src/store/librarySlice.js:64 | splicing one element out of a duplicate-free list leaves it duplicate-free and without that element |
| `LibrarySlice.RemoveFirstKeepsNoDuplicates` | src/store/librarySlice.js:177-180 | removing the first occurrence from a duplicate-free list leaves it duplicate-free and without the id |
| `LibrarySlice.Toggled` | src/store/librarySlice.js:55-65 | an absent id is appended; a present id loses its first occurrence (one copy, the rest in order); a duplicate-free list stays duplicate-free, and the id is then present exactly when it was absent before |
| `LibrarySlice.ToggleTwiceAbsent` | src/store/librarySlice.js:59-61 | toggling an absent id twice restores the exact list |
| `LibrarySlice.ToggleTwicePresent` | src/store/librarySlice.js:62-64 | toggling a present id twice in a duplicate-free list restores the multiset of ids and moves that id to the end |
| `LibrarySlice.WithTrack` | src/store/librarySlice.js:106-110 | appends the track unless its id is already there; afterwards the id is there; a duplicate-free track list stays duplicate-free; id, name, cover and description are kept |
| `LibrarySlice.DropTrack` | src/store/librarySlice.js:120 | no track with the id remains, every other track is kept, nothing new appears, and without such a track the list is unchanged; duplicate-freedom is kept |
| `LibrarySlice.DropTrackKeepsOrder` | src/store/librarySlice.js:120 | removing a track distributes over concatenation, so the remaining tracks keep their order and their repeats, as `filter` does |
| `LibrarySlice.FilterKeepsUnique` | src/store/librarySlice.js:120 | filtering a duplicate-free track list leaves it duplicate-free |
| `LibrarySlice.Strip` | src/store/librarySlice.js:120 | only the playlist's tracks change, to `DropTrack` of them |
| `LibrarySlice.PlaylistIndex` | src/store/librarySlice.js:73 | the first playlist with the id, or -1 exactly when none has it |
| `LibrarySlice.UploadsIndex` | src/store/librarySlice.js:141 | the first playlist named "My Uploads", or -1 exactly when none is |
| `LibrarySlice.AddTrack` | src/store/librarySlice.js:102-115 | an unknown playlist id changes nothing; otherwise only the first playlist with that id changes, by `WithTrack` |
| `LibrarySlice.AddTrackIdempotent` | src/store/librarySlice.js:102-115 | adding the same track to the same playlist twice is the same as adding it once |
| `LibrarySlice.AddTrackKeepsUnique` | src/store/librarySlice.js:106-110 | adding keeps every playlist free of duplicate track ids and keeps the number of playlists; a found playlist then holds the track |
| `LibrarySlice.RemoveTrack` | src/store/librarySlice.js:116-125 | an unknown playlist id changes nothing; otherwise only the first playlist with that id changes, by `Strip` |
| `LibrarySlice.RemoveTrackEffect` | src/store/librarySlice.js:116-125 | every playlist remains with its id and name; only the found one changes, and it no longer holds the track; duplicate-freedom is kept |
| `LibrarySlice.RemoveTrackIdempotent` | src/store/librarySlice.js:116-125 | removing the same track from the same playlist twice is the same as removing it once |
| `LibrarySlice.WithoutPlaylist` | src/store/librarySlice.js:126-128 | no playlist with the id remains, every other playlist is kept, nothing new appears, and an unknown id changes nothing |
| `LibrarySlice.WithoutPlaylistKeepsOrder` | src/store/librarySlice.js:128 | deleting distributes over concatenation, so the remaining playlists keep their order |
| `LibrarySlice.WithoutPlaylistKeepsUnique` | src/store/librarySlice.js:126-128 | deleting a playlist keeps every remaining playlist free of duplicate track ids |
| `LibrarySlice.Created` | src/store/librarySlice.js:70-101 | with a truthy id that an existing playlist has, only that playlist changes (by `Merged`) and the count is unchanged; otherwise exactly one playlist (`Fresh`) is appended |
| `LibrarySlice.CreatedIsFound` | src/store/librarySlice.js:72-97 | the updated playlist is still found at its place; a new playlist with an unused id is found at the end |
| `LibrarySlice.CreatedUpdateIdempotent` | src/store/librarySlice.js:72-87 | saving the same edit of an existing playlist twice is the same as saving it once |
| `LibrarySlice.CreatedKeepsUnique` | src/store/librarySlice.js:70-101 | createPlaylist keeps every playlist free of duplicate track ids when the tracks it is given have distinct ids |
| `LibrarySlice.CreatedCanDuplicate` | src/store/librarySlice.js:79-94 | a draft whose tracks repeat an id produces a playlist with a duplicate id, because createPlaylist does not check the tracks it copies |
| `LibrarySlice.Uploaded` | src/store/librarySlice.js:139-160 | a first upload appends "My Uploads" only if no playlist has that name, and otherwise changes nothing; a later upload applies `WithTrack` to the first "My Uploads", if there is one |
| `LibrarySlice.UploadedHoldsTrack` | src/store/librarySlice.js:139-160 | after a first upload with no "My Uploads", or a later upload with one, a "My Uploads" playlist holds the track |
| `LibrarySlice.UploadedCount` | src/store/librarySlice.js:139-150 | the number of playlists grows by one exactly when a first upload creates "My Uploads" |
| `LibrarySlice.UploadedKeepsUnique` | src/store/librarySlice.js:139-160 | uploading keeps every playlist free of duplicate track ids |
| `LibrarySlice.StripAll` | src/store/librarySlice.js:172-174 | every playlist stays in place with its tracks filtered, and none holds the id afterwards |
| `LibrarySlice.StripAllKeepsUnique` | src/store/librarySlice.js:172-174 | removing a track from every playlist keeps them free of duplicate track ids |
| `LibrarySlice.StripEach` | src/store/librarySlice.js:172-174 | the loop over the playlists computes `StripAll` |
| `LibrarySlice.RejectValue` | src/store/librarySlice.js:11 | the rejection payload is the response data when that is truthy, otherwise the fallback message; it is always one of the two, and it is never empty when the fallback is not |
| `LibrarySlice.LibraryStore.constructor` | src/store/librarySlice.js:41-49 | the store starts empty, not loading, with no error |
| `LibrarySlice.LibraryStore.ToggleFavorite` | src/store/librarySlice.js:55-69 | the favourites become `Toggled` of the old ones; nothing else changes |
| `LibrarySlice.LibraryStore.CreatePlaylist` | src/store/librarySlice.js:70-101 | the playlists become `Created` of the old ones; nothing else changes |
| `LibrarySlice.LibraryStore.AddToPlaylist` | src/store/librarySlice.js:102-115 | the playlists become `AddTrack` of the old ones; nothing else changes |
| `LibrarySlice.LibraryStore.RemoveFromPlaylist` | src/store/librarySlice.js:116-125 | the playlists become `RemoveTrack` of the old ones; nothing else changes |
| `LibrarySlice.LibraryStore.DeletePlaylist` | src/store/librarySlice.js:126-132 | the playlists become `WithoutPlaylist` of the old ones; nothing else changes |
| `LibrarySlice.LibraryStore.UploadTrack` | src/store/librarySlice.js:133-164 | the track is always appended to the uploads, and the playlists become `Uploaded` of the old ones |
| `LibrarySlice.LibraryStore.DeleteUploadedTrack` | src/store/librarySlice.js:165-184 | no uploaded track and no playlist track keeps the id; the number of playlists is unchanged; the first occurrence of the id leaves the favourites |
| `LibrarySlice.LibraryStore.SearchPending` | src/store/librarySlice.js:192-195 | loading becomes true and the error is cleared; nothing else changes |
| `LibrarySlice.LibraryStore.SearchFulfilled` | src/store/librarySlice.js:196-199 | loading becomes false and the search results become `Results` of the response; the error remains |
| `LibrarySlice.LibraryStore.SearchRejected` | src/store/librarySlice.js:200-203 | loading becomes false and the error becomes `RejectValue` of the response data with the fallback "Search failed" (line 11), so it is never empty; the results remain |
| `LibrarySlice.LibraryStore.PopularPending` | src/store/librarySlice.js:204-207 | loading becomes true and the error is cleared |
| `LibrarySlice.LibraryStore.PopularFulfilled` | src/store/librarySlice.js:208-211 | loading becomes false and the popular tracks become `Results` of the response |
| `LibrarySlice.LibraryStore.PopularRejected` | src/store/librarySlice.js:212-215 | loading becomes false and the error becomes `RejectValue` of the response data with the fallback "Failed to fetch popular tracks" (line 23), so it is never empty |
| `Scenarios.NextOnEmptyQueue` | src/store/playerSlice.js:81 | nextTrack on an empty queue leaves the state as it was |
| `Scenarios.NextInThreeTrackQueue` | src/store/playerSlice.js:104-107 | with queue [A, B, C] at index 0 and shuffle off, nextTrack gives index 1 and track B |
| `Scenarios.ShuffleSingleTrack` | src/store/playerSlice.js:92-102 | with queue [A] at index 0 and shuffle on, nextTrack stays at index 0 and track A |
| `Scenarios.PlayThroughQueue` | src/store/playerSlice.js:104-107 | starting at index 0, as many nextTrack calls as there are tracks come back to the first track |
| `Scenarios.StartWithoutSavedState` | src/store/playerSlice.js:27-36 | with nothing saved, volume is 0.7, repeat mode "none" and shuffle off |
| `Scenarios.AddThenRemove` | src/store/librarySlice.js:116-125 | create a playlist, add a track and remove it: the playlist still exists, with no tracks |
| `Scenarios.ReuploadAfterDelete` | src/store/librarySlice.js:139-150 | upload, delete, then upload again: the second track is not put into the "My Uploads" playlist that still exists |

## Left out

- Reading and writing local storage, and `JSON.parse`/`JSON.stringify`, are I/O. Both stores wrap them in `try`/`catch`. The parsed player record is an input (`Option<SavedPlayer>`, with `None` for a missing, empty or unparsable entry). What is written is the projection `Snapshot`. The model does not record which reducers write to storage: every write stores the projection of the current state.
- The parsed player record is assumed to have well-typed fields (a number for volume, a string for the mode, and so on). A stored value of the wrong JSON type is not modelled.
- LibrarySlice.LibraryStore.constructor: models only the state with nothing saved. The library's `loadSavedState` (src/store/librarySlice.js:29-41) is not modelled. It replaces the whole initial library state with the parsed record, so after a reload the search results, popular tracks, loading flag and error are missing.
- `Date.now()` and `Math.random()` are parameters (`now`, `newId`, `pick`). The clock and the random source themselves are not modelled. Nothing forces `newId` to be unused, just as nothing forces `Date.now()` to differ between two calls.
- The network side of `searchTracks` and `fetchPopularTracks`, and `src/api/api.js`, are not modelled. Only the six pending/fulfilled/rejected transitions are. The rejected transitions take the response data as input and compute the payload with `RejectValue`, using `SearchFailed` and `PopularFailed` as the fallbacks. The order in which responses arrive is up to the caller, so the stale-overwrite race is possible but not analysed.
- `error.response?.data` (src/store/librarySlice.js:11, 23) can be any JSON value. It is modelled as an optional string, and a value that is not a string is not modelled.
- A fulfilled fetch whose response body is null would throw in `action.payload.results`. `FetchResponse` always has a body, so that case is not modelled.
- `downloadTrack` only logs its payload and changes no state, so it is not modelled.
- Floating point: volume and positions are `real`s. NaN and -0 are not modelled. The only falsy volume is 0.
- Ids: tracks and playlists have `string` ids compared with `==`. A falsy id is `""`. Numeric ids, and the difference between `undefined` and `""`, are not modelled.
- The player components, pages, sidebar, track list and card, playlist menu, layout, app, router and `store/index.js` are not modelled. They are rendering and event glue that dispatches the reducers above. This includes the audio-element synchronisation and the UI copy of the repeat cycle. The 3D scene and the time-formatting helpers are also not modelled.
