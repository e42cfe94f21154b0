/** The player store: the current track, the play flag, the queue and the
    position in it, volume, repeat and shuffle modes, and a per-track resume
    record. Every reducer is a method of PlayerStore that assigns the fields it
    changes; the clock (`now`) and the random draw (`pick`) are parameters. */
module PlayerSlice {
  import opened Tracks
  import opened Seqs

  /** Resume record of one track: where playback stopped (seconds) and when
      the track was last made current (milliseconds since the epoch). */
  datatype ResumeEntry = ResumeEntry(lastPosition: real, lastPlayed: int)

  type TrackStates = map<string, ResumeEntry>

  /** The whole state of the player store, as one value. */
  datatype PlayerState = PlayerState(
    currentTrack: Option<Track>,
    isPlaying: bool,
    queue: seq<Track>,
    currentIndex: nat,
    volume: real,
    repeatMode: string,
    shuffleMode: bool,
    trackStates: TrackStates)

  /** The part of the state written to local storage after a change. */
  datatype PlayerSnapshot = PlayerSnapshot(
    volume: real,
    repeatMode: string,
    shuffleMode: bool,
    trackStates: TrackStates)

  /** The record parsed back from local storage; a field that is missing or
      null is None. */
  datatype SavedPlayer = SavedPlayer(
    volume: Option<real>,
    repeatMode: Option<string>,
    shuffleMode: Option<bool>,
    trackStates: Option<TrackStates>)

  const DefaultVolume: real := 0.7

  /** The repeat modes in the order the toggle walks them. */
  const RepeatModes: seq<string> := ["none", "one", "all"]

  /** The state the store starts from when nothing usable is saved. */
  const DefaultState: PlayerState :=
    PlayerState(None, false, [], 0, DefaultVolume, "none", false, map[])

  // ---------------------------------------------------------------------
  // Loading and saving

  /** What every load resets: no current track, paused, empty queue, index 0. */
  predicate Reset(s: PlayerState)
  {
    s.currentTrack == None && !s.isPlaying && s.queue == [] && s.currentIndex == 0
  }

  /** loadSavedState: None when nothing (or nothing parsable) is stored;
      otherwise the reset playback fields and the stored settings. Each `||`
      keeps a truthy stored setting and replaces a missing or falsy one by its
      default, so a loaded state never has a volume of 0 or an empty mode. */
  function LoadSavedState(saved: Option<SavedPlayer>): (r: Option<PlayerState>)
    ensures r.Some? <==> saved.Some?
    ensures r.Some? ==> Reset(r.value)
    ensures r.Some? ==> r.value.volume != 0.0 && r.value.repeatMode != ""
    ensures r.Some? ==> var p := saved.value;
      && (p.volume.Some? && p.volume.value != 0.0 ==> r.value.volume == p.volume.value)
      && (p.repeatMode.Some? && p.repeatMode.value != "" ==> r.value.repeatMode == p.repeatMode.value)
      && (p.shuffleMode.Some? ==> r.value.shuffleMode == p.shuffleMode.value)
      && (p.trackStates.Some? ==> r.value.trackStates == p.trackStates.value)
    ensures r.Some? ==> var p := saved.value;
      && (p.volume.None? || p.volume.value == 0.0 ==> r.value.volume == DefaultVolume)
      && (!Truthy(p.repeatMode) ==> r.value.repeatMode == "none")
      && (p.shuffleMode.None? ==> !r.value.shuffleMode)
      && (p.trackStates.None? ==> r.value.trackStates == map[])
  {
    match saved
    case None => None
    case Some(p) =>
      Some(PlayerState(
        None, false, [], 0,
        if p.volume.Some? && p.volume.value != 0.0 then p.volume.value else DefaultVolume,
        if p.repeatMode.Some? && p.repeatMode.value != "" then p.repeatMode.value else "none",
        p.shuffleMode.Some? && p.shuffleMode.value,
        if p.trackStates.Some? then p.trackStates.value else map[]))
  }

  /** The initial state: `loadSavedState() || defaults`. */
  function InitialState(saved: Option<SavedPlayer>): (s: PlayerState)
    ensures Reset(s)
    ensures saved.None? ==> s == DefaultState
    ensures saved.Some? ==> Some(s) == LoadSavedState(saved)
  {
    match LoadSavedState(saved)
    case Some(s) => s
    case None => DefaultState
  }

  /** saveStateToLocalStorage: the persisted fields, and nothing else. */
  function Snapshot(s: PlayerState): (r: PlayerSnapshot)
  {
    PlayerSnapshot(s.volume, s.repeatMode, s.shuffleMode, s.trackStates)
  }

  /** Two states write the same snapshot exactly when they agree on volume,
      repeat mode, shuffle mode and resume records. */
  lemma SnapshotFields(s: PlayerState, t: PlayerState)
    ensures Snapshot(s) == Snapshot(t) <==>
      s.volume == t.volume && s.repeatMode == t.repeatMode &&
      s.shuffleMode == t.shuffleMode && s.trackStates == t.trackStates
  {
  }

  /** The record read back from a written snapshot: every field present. */
  function Stored(p: PlayerSnapshot): (r: SavedPlayer)
  {
    SavedPlayer(Some(p.volume), Some(p.repeatMode), Some(p.shuffleMode), Some(p.trackStates))
  }

  /** Saving and loading again restores the persisted settings exactly when
      the volume is not 0 and the repeat mode is not empty: the `||` defaults
      replace those two falsy values by 0.7 and "none". */
  lemma SnapshotRoundTrip(s: PlayerState)
    ensures Snapshot(InitialState(Some(Stored(Snapshot(s))))) == Snapshot(s)
      <==> s.volume != 0.0 && s.repeatMode != ""
  {
    var loaded := InitialState(Some(Stored(Snapshot(s))));
    if s.volume == 0.0 {
      assert loaded.volume == DefaultVolume;
    }
    if s.repeatMode == "" {
      assert loaded.repeatMode == "none";
    }
  }

  // ---------------------------------------------------------------------
  // Queue navigation

  /** `queue[index]` in JavaScript: undefined past the end. */
  function At(queue: seq<Track>, i: nat): (r: Option<Track>)
    ensures i < |queue| <==> r.Some?
    ensures i < |queue| ==> r.value == queue[i]
  {
    if i < |queue| then Some(queue[i]) else None
  }

  /** The sequential successor of an index in a queue of `n` tracks. */
  function NextIndex(i: nat, n: nat): (r: nat)
    requires n > 0
    ensures r < n
    ensures i + 1 < n ==> r == i + 1
    ensures i + 1 == n ==> r == 0
  {
    (i + 1) % n
  }

  /** The predecessor used by prevTrack: one back, wrapping 0 to the last. */
  function PrevIndex(i: nat, n: nat): (r: nat)
    requires n > 0
    ensures i <= n ==> r < n
    ensures 0 < i ==> r + 1 == i
    ensures i == 0 ==> r == n - 1
  {
    if i > 0 then i - 1 else n - 1
  }

  /** Going back undoes going forward on an in-range index, and vice versa. */
  lemma PrevNextInverse(i: nat, n: nat)
    requires i < n
    ensures PrevIndex(NextIndex(i, n), n) == i
    ensures NextIndex(PrevIndex(i, n), n) == i
  {
  }

  /** The index after `k` sequential nextTrack calls. */
  function Advance(i: nat, n: nat, k: nat): (r: nat)
    requires n > 0
    decreases k
  {
    if k == 0 then i else NextIndex(Advance(i, n, k - 1), n)
  }

  lemma {:induction false} AdvanceClimbs(i: nat, n: nat, k: nat)
    requires i + k < n
    ensures Advance(i, n, k) == i + k
    decreases k
  {
    if k > 0 {
      AdvanceClimbs(i, n, k - 1);
    }
  }

  lemma {:induction false} AdvanceSplits(i: nat, n: nat, k: nat, m: nat)
    requires n > 0
    ensures Advance(i, n, k + m) == Advance(Advance(i, n, k), n, m)
    decreases m
  {
    if m > 0 {
      AdvanceSplits(i, n, k, m - 1);
    }
  }

  /** `n` sequential nextTrack calls on a queue of `n` tracks come back to the
      index they started from. */
  lemma AdvanceCycle(i: nat, n: nat)
    requires i < n
    ensures Advance(i, n, n) == i
  {
    AdvanceClimbs(i, n, n - 1 - i);
    assert Advance(i, n, n - i) == 0;
    AdvanceSplits(i, n, n - i, i);
    AdvanceClimbs(0, n, i);
  }

  /** `Array.from({length: n}, (_, i) => i).filter(i => i !== cur)`: the
      indices shuffle may move to, in increasing order. */
  function ShuffleCandidates(n: nat, cur: nat): (r: seq<nat>)
    ensures forall i: nat :: i in r <==> i < n && i != cur
    ensures |r| == if cur < n then n - 1 else n
    ensures forall j, k :: 0 <= j < k < |r| ==> r[j] < r[k]
    decreases n
  {
    if n == 0 then []
    else
      var r := ShuffleCandidates(n - 1, cur);
      forall j | 0 <= j < |r|
        ensures r[j] < n - 1
      {
        assert r[j] in r;
      }
      r + (if n - 1 == cur then [] else [n - 1])
  }

  /** The random draw `Math.floor(Math.random() * candidates.length)` is a
      position in the candidate list, whenever that list is not empty. */
  predicate PickAllowed(n: nat, cur: nat, pick: nat)
  {
    var c := ShuffleCandidates(n, cur);
    |c| == 0 || pick < |c|
  }

  /** The index shuffle moves to: the drawn candidate, or the current index
      when there is no other index to go to. */
  function ShuffleIndex(n: nat, cur: nat, pick: nat): (r: nat)
    requires n > 0 && PickAllowed(n, cur, pick)
    ensures r < n
    ensures n > 1 || cur >= n ==> r != cur
    ensures n == 1 && cur == 0 ==> r == 0
  {
    var c := ShuffleCandidates(n, cur);
    if |c| > 0 then
      assert c[pick] in c;
      c[pick]
    else cur
  }

  /** Every index other than the current one can be drawn. */
  lemma ShuffleReachesEvery(n: nat, cur: nat, j: nat)
    requires j < n && j != cur
    ensures exists pick :: PickAllowed(n, cur, pick) && ShuffleIndex(n, cur, pick) == j
  {
    var c := ShuffleCandidates(n, cur);
    assert j in c;
    var pick :| 0 <= pick < |c| && c[pick] == j;
    assert PickAllowed(n, cur, pick);
  }

  // ---------------------------------------------------------------------
  // Repeat mode

  /** `modes[(modes.indexOf(mode) + 1) % modes.length]`. */
  function NextRepeatMode(mode: string): (r: string)
    ensures r in RepeatModes
    ensures mode == "none" ==> r == "one"
    ensures mode == "one" ==> r == "all"
    ensures mode == "all" ==> r == "none"
    ensures mode !in RepeatModes ==> r == "none"
  {
    var i := IndexOf(RepeatModes, mode);
    assert mode == "one" ==> RepeatModes[..1] == ["none"];
    assert mode == "all" ==> RepeatModes[..2] == ["none", "one"];
    RepeatModes[(i + 1) % |RepeatModes|]
  }

  /** Three toggles bring a recognised mode back; any other value reaches the
      cycle in one toggle. */
  lemma RepeatModeCycle(mode: string)
    ensures mode in RepeatModes ==> NextRepeatMode(NextRepeatMode(NextRepeatMode(mode))) == mode
    ensures NextRepeatMode(mode) in RepeatModes
  {
  }

  // ---------------------------------------------------------------------
  // Resume records

  /** setCurrentTrack's bookkeeping: a new id gets {lastPosition: 0,
      lastPlayed: now}; a known id only has lastPlayed restamped. */
  function Touched(ts: TrackStates, track: Option<Track>, now: int): (r: TrackStates)
    ensures !HasId(track) ==> r == ts
    ensures HasId(track) ==> var id := track.value.id;
      && r.Keys == ts.Keys + {id}
      && r[id].lastPlayed == now
      && r[id].lastPosition == (if id in ts then ts[id].lastPosition else 0.0)
    ensures forall k :: k in ts && !(HasId(track) && k == track.value.id) ==> k in r && r[k] == ts[k]
  {
    if !HasId(track) then ts
    else
      var id := track.value.id;
      if id !in ts then ts[id := ResumeEntry(0.0, now)]
      else ts[id := ts[id].(lastPlayed := now)]
  }

  /** nextTrack/prevTrack's bookkeeping for the outgoing track: its entry, old
      or new, becomes {lastPosition: 0, lastPlayed: now}. */
  function Rewound(ts: TrackStates, track: Option<Track>, now: int): (r: TrackStates)
    ensures !HasId(track) ==> r == ts
    ensures HasId(track) ==>
      r.Keys == ts.Keys + {track.value.id} && r[track.value.id] == ResumeEntry(0.0, now)
    ensures forall k :: k in ts && !(HasId(track) && k == track.value.id) ==> k in r && r[k] == ts[k]
  {
    if HasId(track) then ts[track.value.id := ResumeEntry(0.0, now)] else ts
  }

  /** updateTrackPosition: only an existing entry with a truthy id changes,
      and only its lastPosition. */
  function Repositioned(ts: TrackStates, id: string, position: real): (r: TrackStates)
    ensures r.Keys == ts.Keys
    ensures id != "" && id in ts ==>
      r[id].lastPosition == position && r[id].lastPlayed == ts[id].lastPlayed
    ensures !(id != "" && id in ts) ==> r == ts
    ensures forall k :: k in ts && k != id ==> r[k] == ts[k]
  {
    if id != "" && id in ts then ts[id := ts[id].(lastPosition := position)] else ts
  }

  /** Resume records are only ever added or changed, never removed. */
  lemma ResumeKeysGrow(ts: TrackStates, track: Option<Track>, now: int, id: string, position: real)
    ensures ts.Keys <= Touched(ts, track, now).Keys
    ensures ts.Keys <= Rewound(ts, track, now).Keys
    ensures ts.Keys == Repositioned(ts, id, position).Keys
  {
  }

  // ---------------------------------------------------------------------
  // The store

  class PlayerStore {
    var currentTrack: Option<Track>
    var isPlaying: bool
    var queue: seq<Track>
    var currentIndex: nat
    var volume: real
    var repeatMode: string
    var shuffleMode: bool
    var trackStates: TrackStates

    /** The fields as one value. */
    function State(): PlayerState
      reads this
    {
      PlayerState(currentTrack, isPlaying, queue, currentIndex, volume, repeatMode, shuffleMode, trackStates)
    }

    /** The store as created at start-up from what local storage held. */
    constructor (saved: Option<SavedPlayer>)
      ensures State() == InitialState(saved)
    {
      var s := InitialState(saved);
      currentTrack := s.currentTrack;
      isPlaying := s.isPlaying;
      queue := s.queue;
      currentIndex := s.currentIndex;
      volume := s.volume;
      repeatMode := s.repeatMode;
      shuffleMode := s.shuffleMode;
      trackStates := s.trackStates;
    }

    method SetCurrentTrack(track: Option<Track>, now: int)
      modifies this
      ensures State() == old(State()).(currentTrack := track, isPlaying := true,
                                       trackStates := Touched(old(trackStates), track, now))
    {
      currentTrack := track;
      isPlaying := true;
      if track.Some? && track.value.id != "" {
        var id := track.value.id;
        if id !in trackStates {
          trackStates := trackStates[id := ResumeEntry(0.0, now)];
        } else {
          trackStates := trackStates[id := trackStates[id].(lastPlayed := now)];
        }
      }
    }

    method TogglePlayPause()
      modifies this
      ensures State() == old(State()).(isPlaying := !old(isPlaying))
    {
      isPlaying := !isPlaying;
    }

    /** Replaces the queue; the current track and index stay as they were. */
    method SetQueue(tracks: seq<Track>)
      modifies this
      ensures State() == old(State()).(queue := tracks)
    {
      queue := tracks;
    }

    method AddToQueue(track: Track)
      modifies this
      ensures State() == old(State()).(queue := old(queue) + [track])
    {
      queue := queue + [track];
    }

    /** Advances to the next track: a no-op on an empty queue; otherwise the
        outgoing track's resume record is rewound and the index moves to a
        drawn other index (shuffle) or to the circular successor. */
    method NextTrack(now: int, pick: nat)
      requires shuffleMode ==> PickAllowed(|queue|, currentIndex, pick)
      modifies this
      ensures old(queue) == [] ==> State() == old(State())
      ensures old(queue) != [] ==>
        && State() == old(State()).(currentTrack := currentTrack, currentIndex := currentIndex,
                                    trackStates := trackStates)
        && currentIndex == (if shuffleMode then ShuffleIndex(|queue|, old(currentIndex), pick)
                            else NextIndex(old(currentIndex), |queue|))
        && currentIndex < |queue|
        && currentTrack == Some(queue[currentIndex])
        && trackStates == Rewound(old(trackStates), old(currentTrack), now)
      ensures shuffleMode && |queue| > 1 ==> currentIndex != old(currentIndex)
    {
      if |queue| == 0 {
        return;
      }
      if currentTrack.Some? && currentTrack.value.id != "" {
        trackStates := trackStates[currentTrack.value.id := ResumeEntry(0.0, now)];
      }
      if shuffleMode {
        var available := ShuffleCandidates(|queue|, currentIndex);
        if |available| > 0 {
          assert available[pick] in available;
          currentIndex := available[pick];
        }
      } else {
        currentIndex := (currentIndex + 1) % |queue|;
      }
      assert currentIndex == (if shuffleMode then ShuffleIndex(|queue|, old(currentIndex), pick)
                              else NextIndex(old(currentIndex), |queue|));
      currentTrack := Some(queue[currentIndex]);
    }

    /** Steps back one track, wrapping from the first to the last; a no-op on
        an empty queue. An index that SetQueue left more than one past the
        last track yields no current track. */
    method PrevTrack(now: int)
      modifies this
      ensures old(queue) == [] ==> State() == old(State())
      ensures old(queue) != [] ==>
        && State() == old(State()).(currentTrack := currentTrack, currentIndex := currentIndex,
                                    trackStates := trackStates)
        && currentIndex == PrevIndex(old(currentIndex), |queue|)
        && currentTrack == At(queue, currentIndex)
        && trackStates == Rewound(old(trackStates), old(currentTrack), now)
      ensures old(queue) != [] && old(currentIndex) <= |queue| ==>
        currentIndex < |queue| && currentTrack == Some(queue[currentIndex])
      ensures old(queue) != [] && old(currentIndex) > |queue| ==> currentTrack == None
    {
      if |queue| == 0 {
        return;
      }
      if currentTrack.Some? && currentTrack.value.id != "" {
        trackStates := trackStates[currentTrack.value.id := ResumeEntry(0.0, now)];
      }
      if currentIndex > 0 {
        currentIndex := currentIndex - 1;
      } else {
        currentIndex := |queue| - 1;
      }
      currentTrack := if currentIndex < |queue| then Some(queue[currentIndex]) else None;
    }

    /** Stores the volume as given; the store does not clamp it. */
    method SetVolume(v: real)
      modifies this
      ensures State() == old(State()).(volume := v)
    {
      volume := v;
    }

    method ToggleRepeatMode()
      modifies this
      ensures State() == old(State()).(repeatMode := NextRepeatMode(old(repeatMode)))
    {
      var i := IndexOf(RepeatModes, repeatMode);
      repeatMode := RepeatModes[(i + 1) % |RepeatModes|];
    }

    method ToggleShuffleMode()
      modifies this
      ensures State() == old(State()).(shuffleMode := !old(shuffleMode))
    {
      shuffleMode := !shuffleMode;
    }

    method UpdateTrackPosition(trackId: string, position: real)
      modifies this
      ensures State() == old(State()).(trackStates := Repositioned(old(trackStates), trackId, position))
      ensures !(trackId != "" && trackId in old(trackStates)) ==> State() == old(State())
    {
      if trackId != "" && trackId in trackStates {
        trackStates := trackStates[trackId := trackStates[trackId].(lastPosition := position)];
      }
    }

    /** Empties the queue and resets the index; the current track stays. */
    method ClearQueue()
      modifies this
      ensures State() == old(State()).(queue := [], currentIndex := 0)
    {
      queue := [];
      currentIndex := 0;
    }
  }
}
