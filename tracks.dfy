/** Track records and the author+title identity every store compares tracks
    by, plus the rule deciding when a duration is asked of the server
    (src/lib/utils/track.js). */
module Tracks {
  import opened Wrappers

  /** The descriptive part of a track, as the server reports it. */
  datatype TrackInfo = TrackInfo(author: string, title: string, artworkUrl: Option<string>)

  /** A track as it travels on the wire and sits in playlists: its metadata
      (absent for a placeholder) and the opaque playable reference `encoded`. */
  datatype Track = Track(trackInfo: Option<TrackInfo>, encoded: Option<string>)

  /** `getTrackId`: the author followed by the title; the empty string for a
      missing track or a track without metadata. */
  function TrackId(track: Option<Track>): (id: string)
    ensures track.None? || track.value.trackInfo.None? ==> id == ""
    ensures track.Some? && track.value.trackInfo.Some? ==>
              var info := track.value.trackInfo.value;
              |id| == |info.author| + |info.title|
              && id[..|info.author|] == info.author && id[|info.author|..] == info.title
  {
    match track
    case None => ""
    case Some(t) =>
      match t.trackInfo
      case None => ""
      case Some(info) => info.author + info.title
  }

  /** Identity ignores the playable reference and the artwork: two tracks with
      the same author and title are the same track. */
  lemma SameMetadataSameId(a: Track, b: Track)
    requires a.trackInfo.Some? && b.trackInfo.Some?
    requires a.trackInfo.value.author == b.trackInfo.value.author
    requires a.trackInfo.value.title == b.trackInfo.value.title
    ensures TrackId(Some(a)) == TrackId(Some(b))
  {
  }

  /** Identity is collision-prone by design: ("ab", "c") and ("a", "bc") share an id. */
  lemma IdentityCollides()
    ensures TrackId(Some(Track(Some(TrackInfo("ab", "c", None)), Some("x"))))
         == TrackId(Some(Track(Some(TrackInfo("a", "bc", None)), Some("y"))))
  {
    assert "ab" + "c" == "a" + "bc";
  }

  /** `requestDuration`: the track to ask the server about (opcode 291), or
      nothing. `isConnected` is the player's connection flag and `cache` the
      duration cache as last published; the result is what is handed to the
      player's command sender. */
  function DurationRequest(track: Option<Track>, isConnected: bool, cache: map<string, int>): (request: Option<Track>)
    ensures request.Some? ==> request == track
    ensures request.Some? <==> track.Some? && isConnected && TrackId(track) !in cache
  {
    if track.None? then None
    else if !isConnected then None
    else if TrackId(track) in cache then None
    else track
  }

  /** Once a duration is cached under a track's id, asking for that track's
      duration sends nothing, whatever the connection state. */
  lemma CachedDurationIsNotRequested(track: Option<Track>, isConnected: bool, cache: map<string, int>, duration: int)
    ensures DurationRequest(track, isConnected, cache[TrackId(track) := duration]) == None
  {
  }

  /** Requesting never depends on the playable reference: tracks with equal
      ids are requested alike. */
  lemma RequestFollowsIdentity(a: Track, b: Track, isConnected: bool, cache: map<string, int>)
    requires TrackId(Some(a)) == TrackId(Some(b))
    ensures DurationRequest(Some(a), isConnected, cache).Some? == DurationRequest(Some(b), isConnected, cache).Some?
  {
  }
}
