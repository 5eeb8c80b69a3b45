/** The playlist and queue manager (src/lib/playlistStore.js): user
    playlists, the active playlist with its current position, the shuffled
    play order, and stepping through it.

    The store cannot reach the player here; what the source reads from the
    player (`shuffle`, `repeatMode`) comes in as parameters, and the track it
    would hand to `player.playSong` comes out as the result of the call. */
module PlaylistStore {
  import opened Wrappers
  import opened Strings
  import opened Tracks
  import opened Protocol

  /** A user playlist as stored. */
  datatype Playlist = Playlist(id: string, name: string, tracks: seq<Track>, createdBy: string)

  /** `playlists.find(p => p.id === id)`, as a position: the first playlist
      with the given id. An absent id matches no playlist. */
  function FindPlaylist(playlists: seq<Playlist>, id: Option<string>): (r: Option<nat>)
    ensures r.Some? ==> r.value < |playlists| && id == Some(playlists[r.value].id)
    ensures r.Some? ==> forall k :: 0 <= k < r.value ==> id != Some(playlists[k].id)
    ensures r.None? ==> forall k :: 0 <= k < |playlists| ==> id != Some(playlists[k].id)
  {
    if playlists == [] then None
    else if id == Some(playlists[0].id) then Some(0)
    else match FindPlaylist(playlists[1..], id)
      case None => None
      case Some(k) => Some(k + 1)
  }

  /** `queue[i]`: the track at position `i`, or nothing (JavaScript's
      `undefined`) outside the queue. */
  function At(queue: seq<Track>, i: int): (r: Option<Track>)
    ensures r.Some? <==> 0 <= i < |queue|
    ensures r.Some? ==> r.value == queue[i]
  {
    if 0 <= i < |queue| then Some(queue[i]) else None
  }

  /** `tracks.filter((_, k) => k !== i)`: the tracks without position `i`. */
  function Without(tracks: seq<Track>, i: int): (r: seq<Track>)
    ensures 0 <= i < |tracks| ==> |r| == |tracks| - 1
    ensures 0 <= i < |tracks| ==> forall k :: 0 <= k < |r| ==> r[k] == tracks[if k < i then k else k + 1]
    ensures !(0 <= i < |tracks|) ==> r == tracks
  {
    if 0 <= i < |tracks| then tracks[..i] + tracks[i + 1..] else tracks
  }

  /** Leaving out position `i` leaves out exactly the track there. */
  lemma WithoutRemovesOne(tracks: seq<Track>, i: int)
    requires 0 <= i < |tracks|
    ensures multiset(Without(tracks, i)) + multiset{tracks[i]} == multiset(tracks)
  {
    assert tracks == tracks[..i] + [tracks[i]] + tracks[i + 1..];
  }

  /** `findIndex(t => getTrackId(t) === id)`: the first position of a track
      with the given id, or -1. */
  function FindIndexById(tracks: seq<Track>, id: string): (r: int)
    ensures -1 <= r < |tracks|
    ensures r == -1 <==> forall k :: 0 <= k < |tracks| ==> TrackId(Some(tracks[k])) != id
    ensures r >= 0 ==> TrackId(Some(tracks[r])) == id
    ensures r >= 0 ==> forall k :: 0 <= k < r ==> TrackId(Some(tracks[k])) != id
  {
    if tracks == [] then -1
    else if TrackId(Some(tracks[0])) == id then 0
    else
      var k := FindIndexById(tracks[1..], id);
      if k == -1 then -1 else k + 1
  }

  /** No two tracks share an author+title id. */
  predicate DistinctIds(tracks: seq<Track>) {
    forall a, b :: 0 <= a < b < |tracks| ==> TrackId(Some(tracks[a])) != TrackId(Some(tracks[b]))
  }

  // ---------------------------------------------------------------------
  // Fisher–Yates

  /** Every value `Math.random()` handed out lies in [0, 1). */
  predicate RandomsOk(randoms: seq<real>) {
    forall k :: 0 <= k < |randoms| ==> 0.0 <= randoms[k] < 1.0
  }

  /** `Math.floor(Math.random() * (i + 1))` for the random value `r`: a
      position in [0, i]. */
  function Pick(r: real, i: nat): (j: nat)
    requires 0.0 <= r < 1.0
    ensures j <= i
  {
    var n := (i + 1) as real;
    assert 0.0 <= r * n by { assert 0.0 <= r && 0.0 < n; }
    assert r * n < n by { assert (1.0 - r) * n > 0.0; }
    (r * n).Floor
  }

  /** The swap partners a shuffle loop over `n` elements draws: step `k`
      handles position n - 1 - k and may swap it with any position up to
      itself. */
  predicate ValidPicks(picks: seq<nat>, n: int) {
    n - 1 <= |picks| && forall k :: 0 <= k < n - 1 ==> picks[k] <= n - 1 - k
  }

  /** The swap partners drawn from the random values, the k-th value for
      step k. */
  function SwapIndices(randoms: seq<real>, n: nat): (picks: seq<nat>)
    requires RandomsOk(randoms) && n <= |randoms| + 1
    ensures ValidPicks(picks, n)
  {
    seq(if n == 0 then 0 else n - 1, k requires 0 <= k < n - 1 => Pick(randoms[k], n - 1 - k))
  }

  /** `[s[i], s[j]] = [s[j], s[i]]`: one Fisher–Yates swap. */
  function Swap(s: seq<Track>, i: nat, j: nat): (r: seq<Track>)
    requires i < |s| && j < |s|
    ensures |r| == |s| && r[i] == s[j] && r[j] == s[i]
    ensures forall k :: 0 <= k < |s| && k != i && k != j ==> r[k] == s[k]
  {
    s[i := s[j]][j := s[i]]
  }

  /** A swap keeps the same tracks, whichever two positions it exchanges. */
  lemma SwapPermutes(s: seq<Track>, i: nat, j: nat)
    requires i < |s| && j < |s|
    ensures multiset(Swap(s, i, j)) == multiset(s)
  {
  }

  /** The rest of the shuffle loop once it is at position `i`: for `i` down
      to 1, swap position `i` with its drawn partner. */
  function ShuffleDown(s: seq<Track>, i: int, picks: seq<nat>): (r: seq<Track>)
    requires i < |s| && ValidPicks(picks, |s|)
    ensures |r| == |s|
    decreases i
  {
    if i <= 0 then s
    else ShuffleDown(Swap(s, i, picks[|s| - 1 - i]), i - 1, picks)
  }

  /** The shuffle loop keeps the same tracks, whatever the drawn partners. */
  lemma {:induction false} ShuffleDownPermutes(s: seq<Track>, i: int, picks: seq<nat>)
    requires i < |s| && ValidPicks(picks, |s|)
    ensures multiset(ShuffleDown(s, i, picks)) == multiset(s)
    decreases i
  {
    if i > 0 {
      var j := picks[|s| - 1 - i];
      SwapPermutes(s, i, j);
      ShuffleDownPermutes(Swap(s, i, j), i - 1, picks);
    }
  }

  /** The whole shuffle loop of `setShuffle` and `playPlaylist`. */
  function FisherYates(s: seq<Track>, picks: seq<nat>): (r: seq<Track>)
    requires ValidPicks(picks, |s|)
    ensures |r| == |s|
    ensures multiset(r) == multiset(s)
  {
    ShuffleDownPermutes(s, |s| - 1, picks);
    ShuffleDown(s, |s| - 1, picks)
  }

  /** The shuffled play order: the track at `current` first, then all the
      others in shuffled order. It holds exactly the playlist's tracks. */
  function ShuffledQueue(tracks: seq<Track>, current: int, picks: seq<nat>): (q: seq<Track>)
    requires 0 <= current < |tracks| && ValidPicks(picks, |tracks| - 1)
    ensures |q| == |tracks| && q[0] == tracks[current]
    ensures multiset(q) == multiset(tracks)
  {
    var others := Without(tracks, current);
    WithoutRemovesOne(tracks, current);
    [tracks[current]] + FisherYates(others, picks)
  }

  /** Exchanges two elements of an array in place. */
  method SwapInPlace(a: array<Track>, i: nat, j: nat)
    requires i < a.Length && j < a.Length
    modifies a
    ensures a[..] == Swap(old(a[..]), i, j)
  {
    a[i], a[j] := a[j], a[i];
  }

  /** A fresh array holding the elements of `s`, as the spread `[...]`
      copies that `filter` and the shuffle work on. */
  method NewArray(s: seq<Track>) returns (a: array<Track>)
    ensures fresh(a) && a[..] == s
  {
    a := new Track[|s|](k requires 0 <= k < |s| => s[k]);
  }

  /** The Fisher–Yates loop in place: from the last position down to 1,
      swap each position with its drawn partner. */
  method ShuffleInPlace(a: array<Track>, picks: seq<nat>)
    requires ValidPicks(picks, a.Length)
    modifies a
    ensures a[..] == FisherYates(old(a[..]), picks)
  {
    var i := a.Length - 1;
    while i > 0
      invariant -1 <= i < a.Length
      invariant ShuffleDown(a[..], i, picks) == FisherYates(old(a[..]), picks)
      decreases i
    {
      SwapInPlace(a, i, picks[a.Length - 1 - i]);
      i := i - 1;
    }
  }

  /** Builds the shuffled order the way the source does: copy the other
      tracks, shuffle them in place, and put the current track first. */
  method BuildShuffledQueue(tracks: seq<Track>, current: int, picks: seq<nat>) returns (queue: seq<Track>)
    requires 0 <= current < |tracks| && ValidPicks(picks, |tracks| - 1)
    ensures queue == ShuffledQueue(tracks, current, picks)
  {
    var a := NewArray(Without(tracks, current));
    ShuffleInPlace(a, picks);
    queue := [tracks[current]] + a[..];
  }

  /** The position `setShuffle(false)` returns to: the first playlist track
      whose id is that of the queue entry at `index` (-1 when none is, or
      when `index` is outside the queue, whose id is then the empty one). */
  function UnshuffledIndex(tracks: seq<Track>, queue: seq<Track>, index: int): (r: int)
    ensures -1 <= r < |tracks|
    ensures r == -1 <==> forall k :: 0 <= k < |tracks| ==> TrackId(Some(tracks[k])) != TrackId(At(queue, index))
    ensures r >= 0 ==> TrackId(Some(tracks[r])) == TrackId(At(queue, index))
    ensures r >= 0 ==> forall k :: 0 <= k < r ==> TrackId(Some(tracks[k])) != TrackId(At(queue, index))
  {
    FindIndexById(tracks, TrackId(At(queue, index)))
  }

  /** Shuffling and unshuffling comes back to the starting position when the
      playlist's ids are distinct. */
  lemma ShuffleRoundTrip(tracks: seq<Track>, current: int, picks: seq<nat>)
    requires 0 <= current < |tracks| && ValidPicks(picks, |tracks| - 1)
    requires DistinctIds(tracks)
    ensures UnshuffledIndex(tracks, ShuffledQueue(tracks, current, picks), 0) == current
  {
    var q := ShuffledQueue(tracks, current, picks);
    assert At(q, 0) == Some(tracks[current]);
  }

  /** Without distinct ids the way back can land elsewhere: two tracks that
      share author and title cannot be told apart. */
  lemma ShuffleRoundTripNeedsDistinctIds()
    ensures var a := Track(Some(TrackInfo("x", "y", None)), Some("first"));
            var b := Track(Some(TrackInfo("x", "y", None)), Some("second"));
            UnshuffledIndex([a, b], ShuffledQueue([a, b], 1, []), 0) == 0
  {
    var a := Track(Some(TrackInfo("x", "y", None)), Some("first"));
    var b := Track(Some(TrackInfo("x", "y", None)), Some("second"));
    assert ShuffledQueue([a, b], 1, [])[0] == b;
    assert TrackId(Some(a)) == TrackId(Some(b));
  }

  // ---------------------------------------------------------------------
  // Stepping through a queue

  /** `playNext`'s index rule on a non-empty queue: one further, wrapping to
      the start past the end only under repeat-all; nothing past the end
      otherwise. */
  function NextIndex(index: int, length: nat, repeatAll: bool): (r: Option<int>)
    ensures r.None? <==> index + 1 >= length && !repeatAll
    ensures r.Some? && index >= -1 && length > 0 ==> 0 <= r.value < length
    ensures r.Some? && index + 1 >= length ==> r.value == 0
    ensures index + 1 < length ==> r == Some(index + 1)
  {
    if index + 1 >= length then (if repeatAll then Some(0) else None)
    else Some(index + 1)
  }

  /** `playPrevious`'s index rule on a non-empty queue: one back; before the
      start it wraps to the end under repeat-all and stays at the start
      otherwise. */
  function PrevIndex(index: int, length: nat, repeatAll: bool): (r: int)
    ensures length > 0 && index <= length ==> 0 <= r < length
    ensures index - 1 < 0 ==> r == (if repeatAll then length - 1 else 0)
    ensures index - 1 >= 0 ==> r == index - 1
  {
    if index - 1 < 0 then (if repeatAll then length - 1 else 0) else index - 1
  }

  /** Under repeat-all, next and previous undo each other on every position
      of the queue, wrap-around included. */
  lemma NextPreviousInverse(index: int, length: nat)
    requires 0 <= index < length
    ensures NextIndex(index, length, true).Some?
    ensures PrevIndex(NextIndex(index, length, true).value, length, true) == index
    ensures NextIndex(PrevIndex(index, length, true), length, true) == Some(index)
  {
  }

  /** Without repeat-all the ends are hard: next at the last position plays
      nothing, previous at the first position stays there. */
  lemma EndsWithoutRepeat(length: nat)
    requires length > 0
    ensures NextIndex(length - 1, length, false).None?
    ensures PrevIndex(0, length, false) == 0
  {
  }

  // ---------------------------------------------------------------------
  // Playlists

  /** The playlists after `createPlaylist(name)` with `freshId` as the new
      id: one more playlist at the end, named with the trimmed name, empty,
      created by 'User', unless the name is missing or blank. */
  function Created(playlists: seq<Playlist>, name: Option<string>, freshId: string): (r: seq<Playlist>)
    ensures |r| == |playlists| + 1 <==> name.Some? && exists k :: 0 <= k < |name.value| && !IsWhitespace(name.value[k])
    ensures |r| != |playlists| + 1 ==> r == playlists
    ensures |r| == |playlists| + 1 ==>
              r == playlists + [Playlist(freshId, Trim(name.value), [], "User")]
              && Trim(name.value) != "" && !IsWhitespace(Trim(name.value)[0])
              && !IsWhitespace(Trim(name.value)[|Trim(name.value)| - 1])
  {
    if name.None? then playlists
    else
      TrimEmptyIffBlank(name.value);
      if name.value == "" || Trim(name.value) == "" then playlists
      else playlists + [Playlist(freshId, Trim(name.value), [], "User")]
  }

  /** Some track in `tracks` has the playable reference `encoded`. */
  predicate HasEncoded(tracks: seq<Track>, encoded: Option<string>) {
    exists k :: 0 <= k < |tracks| && tracks[k].encoded == encoded
  }

  /** One playlist after `addTrackToPlaylist(playlistId, track)`: the track
      is appended when the id matches and no track there has the same
      playable reference. */
  function WithTrack(p: Playlist, playlistId: string, track: Track): (r: Playlist)
    ensures r.id == p.id && r.name == p.name && r.createdBy == p.createdBy
    ensures p.id != playlistId ==> r == p
    ensures p.id == playlistId ==> HasEncoded(r.tracks, track.encoded)
    ensures r.tracks == p.tracks || r.tracks == p.tracks + [track]
    ensures r.tracks == p.tracks + [track] <==> p.id == playlistId && !HasEncoded(p.tracks, track.encoded)
  {
    if p.id == playlistId && !HasEncoded(p.tracks, track.encoded) then
      assert (p.tracks + [track])[|p.tracks|] == track;
      p.(tracks := p.tracks + [track])
    else p
  }

  /** All playlists after `addTrackToPlaylist(playlistId, track)`. */
  function AddTrack(playlists: seq<Playlist>, playlistId: string, track: Track): (r: seq<Playlist>)
    ensures |r| == |playlists|
    ensures forall k :: 0 <= k < |r| ==> r[k] == WithTrack(playlists[k], playlistId, track)
  {
    seq(|playlists|, k requires 0 <= k < |playlists| => WithTrack(playlists[k], playlistId, track))
  }

  /** Adding a track a second time changes nothing: the first call put a
      track with its playable reference into every matching playlist. */
  lemma {:induction false} AddTrackIdempotent(playlists: seq<Playlist>, playlistId: string, track: Track)
    ensures AddTrack(AddTrack(playlists, playlistId, track), playlistId, track) == AddTrack(playlists, playlistId, track)
  {
    var once := AddTrack(playlists, playlistId, track);
    var twice := AddTrack(once, playlistId, track);
    forall k | 0 <= k < |once|
      ensures twice[k] == once[k]
    {
      assert twice[k] == WithTrack(once[k], playlistId, track);
      if once[k].id == playlistId {
        assert HasEncoded(once[k].tracks, track.encoded);
      }
    }
  }

  /** An id no playlist has leaves every playlist as it was. */
  lemma AddTrackUnknownId(playlists: seq<Playlist>, playlistId: string, track: Track)
    requires forall k :: 0 <= k < |playlists| ==> playlists[k].id != playlistId
    ensures AddTrack(playlists, playlistId, track) == playlists
  {
  }

  // ---------------------------------------------------------------------
  // The store

  /** The store's four fields as persisted between sessions. */
  datatype Snapshot = Snapshot(playlists: seq<Playlist>, activePlaylistId: Option<string>,
                               activeTrackIndex: int, shuffledQueue: seq<Track>)

  /** `initialState`: no playlists, nothing active, no shuffled order. */
  const InitialSnapshot := Snapshot([], None, -1, [])

  /** The playlist store state: the playlists, which one is playing (by id),
      the position in its play order, and the shuffled order (empty when not
      shuffling). */
  class Store {
    var playlists: seq<Playlist>
    var activePlaylistId: Option<string>
    var activeTrackIndex: int
    var shuffledQueue: seq<Track>

    /** `persistentStore('playlist-data', initialState)`: the saved
        snapshot when there is one, otherwise no playlists and nothing
        active. */
    constructor (saved: Option<Snapshot>)
      ensures var start := saved.GetOr(InitialSnapshot);
              playlists == start.playlists && activePlaylistId == start.activePlaylistId
              && activeTrackIndex == start.activeTrackIndex && shuffledQueue == start.shuffledQueue
    {
      var start := saved.GetOr(InitialSnapshot);
      playlists := start.playlists;
      activePlaylistId := start.activePlaylistId;
      activeTrackIndex := start.activeTrackIndex;
      shuffledQueue := start.shuffledQueue;
    }

    /** The active playlist: the first one whose id is the active id
        (`FindPlaylist` gives the first match). */
    function ActivePlaylist(): (r: Option<Playlist>)
      reads this
      ensures r.Some? ==> r.value in playlists && activePlaylistId == Some(r.value.id)
      ensures r.None? ==> forall k :: 0 <= k < |playlists| ==> activePlaylistId != Some(playlists[k].id)
      ensures r.Some? <==> FindPlaylist(playlists, activePlaylistId).Some?
      ensures r.Some? ==> r.value == playlists[FindPlaylist(playlists, activePlaylistId).value]
    {
      match FindPlaylist(playlists, activePlaylistId)
      case None => None
      case Some(k) => Some(playlists[k])
    }

    /** The play order next and previous step through: the shuffled queue
        when shuffling, the active playlist's tracks otherwise; nothing
        without an active playlist. */
    function Queue(shuffle: bool): (r: Option<seq<Track>>)
      reads this
      ensures r.Some? <==> ActivePlaylist().Some?
      ensures r.Some? && shuffle ==> r.value == shuffledQueue
      ensures r.Some? && !shuffle ==> r.value == ActivePlaylist().value.tracks
    {
      match ActivePlaylist()
      case None => None
      case Some(p) => Some(if shuffle then shuffledQueue else p.tracks)
    }

    /** The position is one that `playNext` can step from without reading
        before the start of the queue. */
    predicate CanAdvance(shuffle: bool)
      reads this
    {
      match Queue(shuffle)
      case None => true
      case Some(q) => |q| == 0 || activeTrackIndex >= -1
    }

    /** The position is one that `playPrevious` can step from without
        reading past the end of the queue. */
    predicate CanRetreat(shuffle: bool)
      reads this
    {
      match Queue(shuffle)
      case None => true
      case Some(q) => |q| == 0 || activeTrackIndex <= |q|
    }

    /** The position and random values `setShuffle(isShuffled)` needs:
        turning shuffle on for an active playlist takes a current position
        inside it and one random value per swap. */
    predicate CanShuffle(isShuffled: bool, randoms: seq<real>)
      reads this
    {
      RandomsOk(randoms)
      && (isShuffled && Truthy(activePlaylistId) && ActivePlaylist().Some? ==>
            0 <= activeTrackIndex < |ActivePlaylist().value.tracks|
            && |ActivePlaylist().value.tracks| <= |randoms| + 2)
    }

    /** Where `playNext` goes and what it plays, if anywhere. */
    function NextTarget(shuffle: bool, mode: RepeatMode): (r: Option<(int, Track)>)
      reads this
      requires CanAdvance(shuffle)
      ensures r.Some? <==> Queue(shuffle).Some? && |Queue(shuffle).value| > 0
                           && (activeTrackIndex + 1 < |Queue(shuffle).value| || mode == RepeatAll)
      ensures r.Some? ==> 0 <= r.value.0 < |Queue(shuffle).value|
                          && r.value.1 == Queue(shuffle).value[r.value.0]
                          && Some(r.value.0) == NextIndex(activeTrackIndex, |Queue(shuffle).value|, mode == RepeatAll)
    {
      match Queue(shuffle)
      case None => None
      case Some(q) =>
        if |q| == 0 then None
        else match NextIndex(activeTrackIndex, |q|, mode == RepeatAll)
          case None => None
          case Some(n) => Some((n, q[n]))
    }

    /** Where `playPrevious` goes and what it plays, if anywhere. */
    function PrevTarget(shuffle: bool, mode: RepeatMode): (r: Option<(int, Track)>)
      reads this
      requires CanRetreat(shuffle)
      ensures r.Some? <==> Queue(shuffle).Some? && |Queue(shuffle).value| > 0
      ensures r.Some? ==> 0 <= r.value.0 < |Queue(shuffle).value|
                          && r.value.1 == Queue(shuffle).value[r.value.0]
                          && r.value.0 == PrevIndex(activeTrackIndex, |Queue(shuffle).value|, mode == RepeatAll)
    {
      match Queue(shuffle)
      case None => None
      case Some(q) =>
        if |q| == 0 then None
        else
          var p := PrevIndex(activeTrackIndex, |q|, mode == RepeatAll);
          Some((p, q[p]))
    }

    /** `createPlaylist(name)`, with `freshId` standing for the generated id. */
    method CreatePlaylist(name: Option<string>, freshId: string)
      modifies this
      ensures playlists == Created(old(playlists), name, freshId)
      ensures activePlaylistId == old(activePlaylistId) && activeTrackIndex == old(activeTrackIndex)
      ensures shuffledQueue == old(shuffledQueue)
    {
      if name.None? || name.value == "" || Trim(name.value) == "" {
        return;
      }
      var created := Playlist(freshId, Trim(name.value), [], "User");
      playlists := playlists + [created];
    }

    /** `addTrackToPlaylist(playlistId, track)`. */
    method AddTrackToPlaylist(playlistId: string, track: Track)
      modifies this
      ensures playlists == AddTrack(old(playlists), playlistId, track)
      ensures activePlaylistId == old(activePlaylistId) && activeTrackIndex == old(activeTrackIndex)
      ensures shuffledQueue == old(shuffledQueue)
    {
      playlists := AddTrack(playlists, playlistId, track);
    }

    /** `setShuffle(isShuffled)`, the k-th `Math.random()` of the call being
        `randoms[k]`. Without an active id only the queue is cleared; with an
        active id naming no playlist nothing changes. Turning shuffle on puts
        the current track first in a fresh shuffled order and points at it;
        turning it off returns to the current track's position in the
        playlist. */
    method SetShuffle(isShuffled: bool, randoms: seq<real>)
      requires CanShuffle(isShuffled, randoms)
      modifies this
      ensures playlists == old(playlists) && activePlaylistId == old(activePlaylistId)
      ensures !Truthy(old(activePlaylistId)) ==>
                shuffledQueue == [] && activeTrackIndex == old(activeTrackIndex)
      ensures Truthy(old(activePlaylistId)) && old(ActivePlaylist()).None? ==>
                shuffledQueue == old(shuffledQueue) && activeTrackIndex == old(activeTrackIndex)
      ensures Truthy(old(activePlaylistId)) && old(ActivePlaylist()).Some? && isShuffled ==>
                var tracks := old(ActivePlaylist()).value.tracks;
                shuffledQueue == ShuffledQueue(tracks, old(activeTrackIndex), SwapIndices(randoms, |tracks| - 1))
                && activeTrackIndex == 0
      ensures Truthy(old(activePlaylistId)) && old(ActivePlaylist()).Some? && !isShuffled ==>
                shuffledQueue == []
                && activeTrackIndex == UnshuffledIndex(old(ActivePlaylist()).value.tracks, old(shuffledQueue), old(activeTrackIndex))
    {
      if activePlaylistId.None? || activePlaylistId.value == "" {
        shuffledQueue := [];
        return;
      }
      var found := FindPlaylist(playlists, activePlaylistId);
      if found.None? {
        return;
      }
      var tracks := playlists[found.value].tracks;
      if isShuffled {
        var queue := BuildShuffledQueue(tracks, activeTrackIndex, SwapIndices(randoms, |tracks| - 1));
        shuffledQueue := queue;
        activeTrackIndex := 0;
      } else {
        var originalIndex := FindIndexById(tracks, TrackId(At(shuffledQueue, activeTrackIndex)));
        shuffledQueue := [];
        activeTrackIndex := originalIndex;
      }
    }

    /** What `playPlaylist` needs: when shuffling a non-empty playlist, a
        starting position inside it and one random value per swap. */
    predicate CanPlay(playlistId: string, startingIndex: int, shuffle: bool, randoms: seq<real>)
      reads this
    {
      RandomsOk(randoms)
      && match FindPlaylist(playlists, Some(playlistId))
         case None => true
         case Some(k) =>
           var n := |playlists[k].tracks|;
           shuffle && n > 0 ==> 0 <= startingIndex < n && n <= |randoms| + 2
    }

    /** `playPlaylist(playlistId, startingIndex)` with the player's shuffle
        flag; the result is the track to play. A missing or empty playlist
        changes nothing. Otherwise the playlist becomes active: shuffled, it
        plays the starting track, first in a fresh shuffled order; in order,
        it points at the starting position and plays the track there, if
        there is one. */
    method PlayPlaylist(playlistId: string, startingIndex: int, shuffle: bool, randoms: seq<real>)
      returns (play: Option<Track>)
      requires CanPlay(playlistId, startingIndex, shuffle, randoms)
      modifies this
      ensures playlists == old(playlists)
      ensures var found := FindPlaylist(old(playlists), Some(playlistId));
              found.None? || |old(playlists)[found.value].tracks| == 0 ==>
                play.None? && activePlaylistId == old(activePlaylistId)
                && activeTrackIndex == old(activeTrackIndex) && shuffledQueue == old(shuffledQueue)
      ensures var found := FindPlaylist(old(playlists), Some(playlistId));
              found.Some? && |old(playlists)[found.value].tracks| > 0 ==>
                var tracks := old(playlists)[found.value].tracks;
                activePlaylistId == Some(playlistId)
                && (shuffle ==> shuffledQueue == ShuffledQueue(tracks, startingIndex, SwapIndices(randoms, |tracks| - 1))
                                && activeTrackIndex == 0 && play == Some(tracks[startingIndex]))
                && (!shuffle ==> shuffledQueue == [] && activeTrackIndex == startingIndex
                                 && play == At(tracks, startingIndex))
    {
      var found := FindPlaylist(playlists, Some(playlistId));
      if found.None? || |playlists[found.value].tracks| == 0 {
        return None;
      }
      var tracks := playlists[found.value].tracks;
      var initialQueue: seq<Track> := [];
      var initialIndex := startingIndex;
      if shuffle {
        initialQueue := BuildShuffledQueue(tracks, startingIndex, SwapIndices(randoms, |tracks| - 1));
        initialIndex := 0;
        play := Some(initialQueue[0]);
      } else {
        play := At(tracks, startingIndex);
      }
      activePlaylistId := Some(playlistId);
      activeTrackIndex := initialIndex;
      shuffledQueue := initialQueue;
    }

    /** `playNext` with the player's shuffle flag and repeat mode; the
        result is the track to play. Only the position changes. */
    method PlayNext(shuffle: bool, mode: RepeatMode) returns (play: Option<Track>)
      requires CanAdvance(shuffle)
      modifies this
      ensures playlists == old(playlists) && activePlaylistId == old(activePlaylistId)
      ensures shuffledQueue == old(shuffledQueue)
      ensures var target := old(NextTarget(shuffle, mode));
              (target.None? ==> play.None? && activeTrackIndex == old(activeTrackIndex))
              && (target.Some? ==> play == Some(target.value.1) && activeTrackIndex == target.value.0)
    {
      var found := FindPlaylist(playlists, activePlaylistId);
      if found.None? {
        return None;
      }
      var queue := if shuffle then shuffledQueue else playlists[found.value].tracks;
      if |queue| == 0 {
        return None;
      }
      var nextIndex := activeTrackIndex + 1;
      if nextIndex >= |queue| {
        if mode == RepeatAll {
          nextIndex := 0;
        } else {
          return None;
        }
      }
      play := Some(queue[nextIndex]);
      activeTrackIndex := nextIndex;
    }

    /** `playTrack(track, indexInQueue)`: with an active playlist, points at
        `indexInQueue` and plays `track`; without one, does nothing. */
    method PlayTrack(track: Track, indexInQueue: int) returns (play: Option<Track>)
      modifies this
      ensures playlists == old(playlists) && activePlaylistId == old(activePlaylistId)
      ensures shuffledQueue == old(shuffledQueue)
      ensures old(ActivePlaylist()).None? ==> play.None? && activeTrackIndex == old(activeTrackIndex)
      ensures old(ActivePlaylist()).Some? ==> play == Some(track) && activeTrackIndex == indexInQueue
    {
      var found := FindPlaylist(playlists, activePlaylistId);
      if found.None? {
        return None;
      }
      activeTrackIndex := indexInQueue;
      play := Some(track);
    }

    /** `playPrevious` with the player's shuffle flag and repeat mode; the
        result is the track to play. Only the position changes. */
    method PlayPrevious(shuffle: bool, mode: RepeatMode) returns (play: Option<Track>)
      requires CanRetreat(shuffle)
      modifies this
      ensures playlists == old(playlists) && activePlaylistId == old(activePlaylistId)
      ensures shuffledQueue == old(shuffledQueue)
      ensures var target := old(PrevTarget(shuffle, mode));
              (target.None? ==> play.None? && activeTrackIndex == old(activeTrackIndex))
              && (target.Some? ==> play == Some(target.value.1) && activeTrackIndex == target.value.0)
    {
      var found := FindPlaylist(playlists, activePlaylistId);
      if found.None? {
        return None;
      }
      var queue := if shuffle then shuffledQueue else playlists[found.value].tracks;
      if |queue| == 0 {
        return None;
      }
      var prevIndex := activeTrackIndex - 1;
      if prevIndex < 0 {
        prevIndex := if mode == RepeatAll then |queue| - 1 else 0;
      }
      play := Some(queue[prevIndex]);
      activeTrackIndex := prevIndex;
    }

    /** `clearActivePlaylist`: nothing is active any more. */
    method ClearActivePlaylist()
      modifies this
      ensures activePlaylistId == None && activeTrackIndex == -1
      ensures playlists == old(playlists) && shuffledQueue == old(shuffledQueue)
    {
      activePlaylistId := None;
      activeTrackIndex := -1;
    }

    /** `headlessUpdatePacket`: the server's headless player reports which
        playlist and position it is at; both are taken as they come. */
    method HeadlessUpdatePacket(playlistId: Option<string>, currentIndex: int)
      modifies this
      ensures activePlaylistId == playlistId && activeTrackIndex == currentIndex
      ensures playlists == old(playlists) && shuffledQueue == old(shuffledQueue)
    {
      activePlaylistId := playlistId;
      activeTrackIndex := currentIndex;
    }
  }
}
