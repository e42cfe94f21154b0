/** Values shared by the player and the library stores: the optional wrapper used
    for JavaScript's null/undefined, and the track record. */
module Tracks {

  /** A value that may be missing (null or undefined in the store). */
  datatype Option<+T> = None | Some(value: T)

  /** A track as the store keeps it. Identity is the `id` field; an empty `id`
      stands for a missing (falsy) one. Only `id` and `image` are read by the
      reducers; the other fields are carried along unchanged. */
  datatype Track = Track(
    id: string,
    name: string,
    artistName: string,
    image: Option<string>,
    audio: Option<string>,
    duration: real)

  /** JavaScript truthiness of an optional string: present and non-empty. */
  predicate Truthy(s: Option<string>)
  {
    s.Some? && s.value != ""
  }

  /** `s || d` for an optional string with a fallback. */
  function OrString(s: Option<string>, d: string): (r: string)
    ensures Truthy(s) ==> r == s.value
    ensures !Truthy(s) ==> r == d
  {
    if Truthy(s) then s.value else d
  }

  /** The guard `track && track.id`: a track is present and has a truthy id. */
  predicate HasId(t: Option<Track>)
  {
    t.Some? && t.value.id != ""
  }
}
