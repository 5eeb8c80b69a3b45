/** The player store (src/lib/playerStore.js): the client's view of the
    playback server (what is playing, volume, progress, lyrics, search
    results), the handler for the server's messages, and the user commands
    that send requests back.

    The store's record is replaced wholesale by each `update`, so each
    transition is a function of the old record; the `Player` class holds the
    current record, the log of commands written to the socket, and the
    playlist, artwork and duration stores it forwards to. */
module PlayerStore {
  import opened Wrappers
  import opened Strings
  import opened Tracks
  import opened Protocol
  import opened PlaylistStore
  import opened ImageService
  import opened DurationStore

  /** The song being played, kept flattened: its metadata with the playable
      reference next to it. */
  datatype Song = Song(info: TrackInfo, encoded: Option<string>)

  /** `defaultSong`, shown when nothing plays. */
  const DefaultSong := Song(TrackInfo("---", "No song playing", None), None)

  /** The track object rebuilt from a flattened song (`{ trackInfo, encoded }`). */
  function SongTrack(song: Song): (t: Track)
    ensures t.trackInfo == Some(song.info) && t.encoded == song.encoded
  {
    Track(Some(song.info), song.encoded)
  }

  /** The author+title identity the status handler compares songs by. */
  function SongId(song: Song): (id: string)
    ensures id == TrackId(Some(SongTrack(song)))
  {
    song.info.author + song.info.title
  }

  /** The lyrics panel: loaded text and its source, a request in flight, or
      an error message. */
  datatype Lyrics = Lyrics(content: Option<string>, source: Option<string>, loading: bool, error: Option<string>)

  const IdleLyrics := Lyrics(None, None, false, None)

  const NoLyricsFound := "No lyrics found for this track."

  /** The player record. `ws` says whether a socket is held; `progress` is a
      percentage, `currentTime` and `duration` are in seconds. */
  datatype PlayerState = PlayerState(
    volume: int,
    lastVolume: int,
    shuffle: bool,
    repeatMode: RepeatMode,
    ws: bool,
    isConnected: bool,
    currentSong: Song,
    isPlaying: bool,
    progress: real,
    currentTime: real,
    duration: real,
    searchResults: seq<Track>,
    isSeeking: bool,
    headless: bool,
    lyrics: Lyrics)

  /** `initialState`, used when nothing was persisted. */
  const InitialState := PlayerState(75, 75, false, RepeatNone, false, false, DefaultSong, false,
                                    0.0, 0.0, 0.0, [], false, false, IdleLyrics)

  /** Lyrics are in one of three shapes: a request in flight with nothing
      shown, loaded text with its source, or at most an error. */
  predicate LyricsWellFormed(l: Lyrics) {
    (l.loading ==> l.content.None? && l.source.None? && l.error.None?)
    && (l.content.Some? <==> l.source.Some?)
    && (l.content.Some? ==> l.error.None?)
  }

  /** The invariant every transition keeps: no progress is shown without a
      known duration, and the lyrics panel is well formed. */
  predicate Consistent(s: PlayerState) {
    (s.duration <= 0.0 ==> s.progress == 0.0) && LyricsWellFormed(s.lyrics)
  }

  /** The start-up reset applied to the persisted record: no socket, nothing
      playing or seeking, no progress, not headless, idle lyrics. The user's
      settings, the last song and the search results survive. */
  function Reset(s: PlayerState): (r: PlayerState)
    ensures !r.ws && !r.isConnected && !r.isPlaying && !r.isSeeking && !r.headless
    ensures r.progress == 0.0 && r.currentTime == 0.0 && r.duration == 0.0 && r.lyrics == IdleLyrics
    ensures r.volume == s.volume && r.lastVolume == s.lastVolume && r.shuffle == s.shuffle
    ensures r.repeatMode == s.repeatMode && r.currentSong == s.currentSong && r.searchResults == s.searchResults
    ensures Consistent(r)
  {
    s.(ws := false, isConnected := false, isPlaying := false, isSeeking := false,
       progress := 0.0, currentTime := 0.0, duration := 0.0, headless := false, lyrics := IdleLyrics)
  }

  /** `_sendCommand`: what reaches the socket. A command is written only
      while a socket is held and connected; otherwise it is dropped. */
  function Emit(s: PlayerState, c: Command): (out: seq<Command>)
    ensures |out| <= 1 && (out == [] || out == [c])
    ensures out == [c] <==> s.ws && s.isConnected
  {
    if s.ws && s.isConnected then [c] else []
  }

  /** The `onclose`/`onerror` effect: the socket is gone, nothing plays and
      the default song is shown; nothing else changes. */
  function Disconnected(s: PlayerState): (r: PlayerState)
    ensures !r.ws && !r.isConnected && !r.isPlaying && r.currentSong == DefaultSong
    ensures r.(ws := s.ws, isConnected := s.isConnected, isPlaying := s.isPlaying, currentSong := s.currentSong) == s
  {
    s.(ws := false, isConnected := false, isPlaying := false, currentSong := DefaultSong)
  }

  /** After a disconnect every command is dropped until the socket reopens. */
  lemma DisconnectedSendsNothing(s: PlayerState, c: Command)
    ensures Emit(Disconnected(s), c) == []
  {
  }

  /** The song a status snapshot announces, when it carries a track with
      metadata. */
  function AnnouncedSong(current: Option<Track>): (song: Option<Song>)
    ensures song.Some? <==> current.Some? && current.value.trackInfo.Some?
    ensures song.Some? ==> SongTrack(song.value) == current.value
  {
    if current.Some? && current.value.trackInfo.Some? then
      Some(Song(current.value.trackInfo.value, current.value.encoded))
    else None
  }

  /** The status snapshot announces a different song than the current one,
      by author+title. */
  predicate SongChanges(s: PlayerState, current: Option<Track>) {
    AnnouncedSong(current).Some? && SongId(AnnouncedSong(current).value) != SongId(s.currentSong)
  }

  /** The scalar part of a status snapshot (200): each field present
      overwrites its counterpart, and `isPlaying` needs both `playing` and
      `paused`. */
  function StatusFields(s: PlayerState, playing: Option<bool>, paused: Option<bool>, volume: Option<int>,
                        headless: Option<bool>): (r: PlayerState)
    ensures r.isPlaying == (if playing.Some? && paused.Some? then playing.value && !paused.value else s.isPlaying)
    ensures r.volume == volume.GetOr(s.volume) && r.headless == headless.GetOr(s.headless)
    ensures r == s.(isPlaying := r.isPlaying, volume := r.volume, headless := r.headless)
  {
    s.(isPlaying := if playing.Some? && paused.Some? then playing.value && !paused.value else s.isPlaying,
       volume := volume.GetOr(s.volume),
       headless := headless.GetOr(s.headless))
  }

  /** The song part of a status snapshot: a song with a new author+title
      replaces the current one and resets progress and lyrics; the same
      identity leaves the record alone, even with another playable
      reference. */
  function SongAnnounced(s: PlayerState, current: Option<Track>): (r: PlayerState)
    ensures SongChanges(s, current) ==>
              r.currentSong == AnnouncedSong(current).value && r.lyrics == IdleLyrics
              && r.progress == 0.0 && r.currentTime == 0.0 && r.duration == 0.0
    ensures !SongChanges(s, current) ==> r == s
  {
    if SongChanges(s, current) then
      s.(currentSong := AnnouncedSong(current).value, progress := 0.0, currentTime := 0.0,
         duration := 0.0, lyrics := IdleLyrics)
    else s
  }

  /** Status snapshot (200). The playing flag, volume and headless flag
      follow the snapshot's fields. A song with a new author+title becomes
      current and resets progress, time, duration and lyrics; with the same
      identity the song and those fields are kept. It never touches the
      remembered volume, the user's shuffle and repeat settings, the
      connection, the search results or the seeking flag. */
  function ApplyStatus(s: PlayerState, playing: Option<bool>, paused: Option<bool>, volume: Option<int>,
                       headless: Option<bool>, current: Option<Track>): (r: PlayerState)
    ensures r.lastVolume == s.lastVolume && r.shuffle == s.shuffle && r.repeatMode == s.repeatMode
    ensures r.ws == s.ws && r.isConnected == s.isConnected && r.searchResults == s.searchResults
    ensures r.isSeeking == s.isSeeking
    ensures r.isPlaying == (if playing.Some? && paused.Some? then playing.value && !paused.value else s.isPlaying)
    ensures r.volume == volume.GetOr(s.volume) && r.headless == headless.GetOr(s.headless)
    ensures SongChanges(s, current) ==>
              r.currentSong == AnnouncedSong(current).value && r.lyrics == IdleLyrics
              && r.progress == 0.0 && r.currentTime == 0.0 && r.duration == 0.0
    ensures !SongChanges(s, current) ==>
              r.currentSong == s.currentSong && r.lyrics == s.lyrics
              && r.progress == s.progress && r.currentTime == s.currentTime && r.duration == s.duration
  {
    var fields := StatusFields(s, playing, paused, volume, headless);
    assert SongChanges(fields, current) == SongChanges(s, current);
    SongAnnounced(fields, current)
  }

  /** A repeated status snapshot changes nothing more: the first one already
      made its song current. */
  lemma StatusIdempotent(s: PlayerState, playing: Option<bool>, paused: Option<bool>, volume: Option<int>,
                         headless: Option<bool>, current: Option<Track>)
    ensures var once := ApplyStatus(s, playing, paused, volume, headless, current);
            ApplyStatus(once, playing, paused, volume, headless, current) == once
  {
    var once := ApplyStatus(s, playing, paused, volume, headless, current);
    var fields := StatusFields(once, playing, paused, volume, headless);
    assert !SongChanges(fields, current);
  }

  /** Lyrics result (801): loaded when both the text and its source are
      present and non-empty, otherwise the not-found error; never loading. */
  function LyricsOutcome(content: Option<string>, source: Option<string>): (l: Lyrics)
    ensures !l.loading && LyricsWellFormed(l)
    ensures l.error.None? <==> Truthy(content) && Truthy(source)
    ensures l.error.None? ==> l.content == content && l.source == source
    ensures l.error.Some? ==> l.error == Some(NoLyricsFound) && l.content.None? && l.source.None?
  {
    if Truthy(content) && Truthy(source) then Lyrics(content, source, false, None)
    else Lyrics(None, None, false, Some(NoLyricsFound))
  }

  /** Position sync (202), `position` and `duration` in milliseconds. While
      the user drags the seek bar nothing changes. A non-positive duration
      means no duration is known: duration and progress drop to 0.
      Otherwise the duration is taken over and the progress is the played
      share in percent. Only the three timing fields change. */
  function ApplyPositionSync(s: PlayerState, position: real, duration: real): (r: PlayerState)
    ensures s.isSeeking ==> r == s
    ensures r.(progress := s.progress, currentTime := s.currentTime, duration := s.duration) == s
    ensures !s.isSeeking ==> r.currentTime * 1000.0 == position
    ensures !s.isSeeking && duration <= 0.0 ==> r.duration == 0.0 && r.progress == 0.0
    ensures !s.isSeeking && duration > 0.0 ==> r.duration * 1000.0 == duration && r.progress * duration == position * 100.0
    ensures !s.isSeeking && 0.0 <= position <= duration && duration > 0.0 ==> 0.0 <= r.progress <= 100.0
  {
    if s.isSeeking then s
    else if duration <= 0.0 then s.(currentTime := position / 1000.0, duration := 0.0, progress := 0.0)
    else
      var progress := (position / duration) * 100.0;
      ShareBounds(position, duration);
      s.(currentTime := position / 1000.0, duration := duration / 1000.0, progress := progress)
  }

  /** The played share of a track lies between none and all of it. */
  lemma ShareBounds(position: real, duration: real)
    requires duration > 0.0
    ensures (position / duration) * duration == position
    ensures 0.0 <= position <= duration ==> 0.0 <= position / duration <= 1.0
  {
    var share := position / duration;
    assert share * duration == position;

  }

  /** Search results (111): each entry's track, in order. */
  function ApplySearchResults(s: PlayerState, results: seq<SearchHit>): (r: PlayerState)
    ensures |r.searchResults| == |results|
    ensures forall k :: 0 <= k < |results| ==> r.searchResults[k] == results[k].track
    ensures r.(searchResults := s.searchResults) == s
  {
    s.(searchResults := seq(|results|, k requires 0 <= k < |results| => results[k].track))
  }

  /** The message handler's effect on the player record. Only status,
      lyrics, position and search messages change it; the rest act on other
      stores or are dropped. */
  function Receive(s: PlayerState, m: Message): (r: PlayerState)
    ensures !(m.Status? || m.LyricsResult? || m.PositionSync? || m.SearchResults?) ==> r == s
    ensures m.LyricsResult? ==> r == s.(lyrics := LyricsOutcome(m.content, m.source))
    ensures m.Status? ==> r == ApplyStatus(s, m.playing, m.paused, m.volume, m.headless, m.current)
    ensures m.PositionSync? ==> r == ApplyPositionSync(s, m.position, m.duration)
    ensures m.SearchResults? ==> r == ApplySearchResults(s, m.results)
  {
    match m
    case Status(playing, paused, volume, headless, current) => ApplyStatus(s, playing, paused, volume, headless, current)
    case LyricsResult(content, source) => s.(lyrics := LyricsOutcome(content, source))
    case PositionSync(position, duration) => ApplyPositionSync(s, position, duration)
    case SearchResults(results) => ApplySearchResults(s, results)
    case _ => s
  }

  /** Every inbound message keeps the record consistent. */
  lemma ReceiveKeepsConsistent(s: PlayerState, m: Message)
    requires Consistent(s)
    ensures Consistent(Receive(s, m))
  {
  }

  /** `cycleRepeatMode`: none, then all, then one, then none again. */
  function NextRepeatMode(mode: RepeatMode): (r: RepeatMode)
    ensures r != mode
    ensures mode == RepeatNone ==> r == RepeatAll
    ensures mode == RepeatAll ==> r == RepeatOne
    ensures mode == RepeatOne ==> r == RepeatNone
  {
    match mode
    case RepeatNone => RepeatAll
    case RepeatAll => RepeatOne
    case RepeatOne => RepeatNone
  }

  /** Three presses of the repeat button bring back the original mode. */
  lemma RepeatCycleHasPeriodThree(mode: RepeatMode)
    ensures NextRepeatMode(NextRepeatMode(NextRepeatMode(mode))) == mode
  {
  }

  /** `changevolume(v)`: the volume becomes `v`; a positive `v` is also
      remembered as the volume to unmute to. */
  function VolumeChanged(s: PlayerState, v: int): (r: PlayerState)
    ensures r.volume == v
    ensures v > 0 ==> r.lastVolume == v
    ensures v <= 0 ==> r.lastVolume == s.lastVolume
    ensures r.(volume := s.volume, lastVolume := s.lastVolume) == s
  {
    s.(volume := v, lastVolume := if v > 0 then v else s.lastVolume)
  }

  /** `toggleMute`: silence when sounding, otherwise back to the remembered
      volume, which itself never changes here. */
  function MuteToggled(s: PlayerState): (r: PlayerState)
    ensures s.volume > 0 ==> r.volume == 0
    ensures s.volume <= 0 ==> r.volume == s.lastVolume
    ensures r.lastVolume == s.lastVolume
    ensures r.(volume := s.volume) == s
  {
    s.(volume := if s.volume > 0 then 0 else s.lastVolume)
  }

  /** Muting and unmuting after setting a positive volume restores exactly
      the record the volume change produced. */
  lemma MuteRoundTrip(s: PlayerState, v: int)
    requires v > 0
    ensures MuteToggled(MuteToggled(VolumeChanged(s, v))) == VolumeChanged(s, v)
  {
  }

  /** A volume set by a status snapshot is not remembered: unmuting after it
      returns to the last volume set by the user instead. */
  lemma StatusVolumeIsNotRemembered(s: PlayerState, v: int)
    requires v > 0 && s.lastVolume != v
    ensures var t := ApplyStatus(s, None, None, Some(v), None, None);
            t.volume == v && MuteToggled(MuteToggled(t)).volume == s.lastVolume
  {
  }

  /** `Math.round` on any real: the nearest integer, halves rounded up. */
  function Round(x: real): (n: int)
    ensures (n as real) - 0.5 <= x < (n as real) + 0.5
  {
    (x + 0.5).Floor
  }

  /** Seeking is possible only with a playable song of known duration. */
  predicate CanSeek(s: PlayerState) {
    Truthy(s.currentSong.encoded) && s.duration > 0.0
  }

  /** `seek(percent)` on the record: the progress bar jumps to `percent` and
      the elapsed time to that share of the duration; nothing else changes. */
  function Sought(s: PlayerState, percent: real): (r: PlayerState)
    ensures !CanSeek(s) ==> r == s
    ensures CanSeek(s) ==> r.progress == percent && r.currentTime * 100.0 == s.duration * percent
    ensures r.(progress := s.progress, currentTime := s.currentTime) == s
  {
    if !CanSeek(s) then s
    else s.(progress := percent, currentTime := s.duration * (percent / 100.0))
  }

  /** The position `seek(percent)` asks the server for, in milliseconds. */
  function SeekTarget(s: PlayerState, percent: real): (ms: int)
    ensures (ms as real) - 0.5 <= s.duration * 1000.0 * (percent / 100.0) < (ms as real) + 0.5
  {
    Round(s.duration * 1000.0 * (percent / 100.0))
  }

  /** Lyrics can be requested for a playable song when no request is already
      in flight. */
  predicate CanRequestLyrics(s: PlayerState) {
    Truthy(s.currentSong.encoded) && !s.lyrics.loading
  }

  /** `requestLyrics` on the record: the panel shows a request in flight. */
  function LyricsRequested(s: PlayerState): (r: PlayerState)
    ensures !CanRequestLyrics(s) ==> r == s
    ensures CanRequestLyrics(s) ==> r == s.(lyrics := Lyrics(None, None, true, None))
  {
    if CanRequestLyrics(s) then s.(lyrics := Lyrics(None, None, true, None)) else s
  }

  /** Requesting lyrics keeps the record consistent. */
  lemma LyricsRequestedKeepsConsistent(s: PlayerState)
    requires Consistent(s)
    ensures Consistent(LyricsRequested(s))
  {
  }

  /** Seeking keeps the record consistent: it needs a known duration. */
  lemma SoughtKeepsConsistent(s: PlayerState, percent: real)
    requires Consistent(s)
    ensures Consistent(Sought(s, percent))
  {
  }

  /** Volume changes and muting leave timing and lyrics alone, so they keep
      the record consistent. */
  lemma VolumeKeepsConsistent(s: PlayerState, v: int)
    requires Consistent(s)
    ensures Consistent(VolumeChanged(s, v)) && Consistent(MuteToggled(s))
  {
  }

  /** A disconnect leaves timing and lyrics alone, so it keeps the record
      consistent. */
  lemma DisconnectKeepsConsistent(s: PlayerState)
    requires Consistent(s)
    ensures Consistent(Disconnected(s))
  {
  }

  /** The packet the tab-close beacon would carry (opcode 901): the active
      playlist's tracks, the repeat type, the playlist id and the position. */
  datatype Beacon = Beacon(tracks: seq<Track>, repeatingType: string, playlistId: string, currentIndex: int)

  /** `handleBeforeUnload`: a beacon goes out only when a playlist is active
      in a non-headless player, and only when that playlist exists and has
      tracks. */
  function TeardownBeacon(s: PlayerState, playlists: seq<Playlist>, activePlaylistId: Option<string>,
                          activeTrackIndex: int): (b: Option<Beacon>)
    ensures b.Some? <==> Truthy(activePlaylistId) && !s.headless
                         && FindPlaylist(playlists, activePlaylistId).Some?
                         && |playlists[FindPlaylist(playlists, activePlaylistId).value].tracks| > 0
    ensures b.Some? ==> var p := playlists[FindPlaylist(playlists, activePlaylistId).value];
                        b.value == Beacon(p.tracks, RepeatingType(s.shuffle, s.repeatMode), p.id, activeTrackIndex)
                        && Some(b.value.playlistId) == activePlaylistId
  {
    if !Truthy(activePlaylistId) || s.headless then None
    else match FindPlaylist(playlists, activePlaylistId)
      case None => None
      case Some(k) =>
        if |playlists[k].tracks| == 0 then None
        else Some(Beacon(playlists[k].tracks, RepeatingType(s.shuffle, s.repeatMode), playlists[k].id, activeTrackIndex))
  }

  /** The player: its record, the commands written to the socket so far,
      and the stores it drives. */
  class Player {
    var state: PlayerState
    var sent: seq<Command>
    const playlists: Store
    const images: ImageCache
    const durations: DurationCache

    /** `createPlayerStore`: the persisted record (or the initial one) after
        the start-up reset. */
    constructor (saved: Option<PlayerState>, playlists: Store, images: ImageCache, durations: DurationCache)
      ensures state == Reset(saved.GetOr(InitialState)) && sent == []
      ensures this.playlists == playlists && this.images == images && this.durations == durations
    {
      state := Reset(saved.GetOr(InitialState));
      sent := [];
      this.playlists := playlists;
      this.images := images;
      this.durations := durations;
    }

    /** `_sendCommand(c)`: the record is left as it is. */
    method SendCommand(c: Command)
      modifies this
      ensures state == old(state) && sent == old(sent) + Emit(old(state), c)
    {
      if state.ws && state.isConnected {
        sent := sent + [c];
      }
    }

    /** `onopen`: connected; the handshake goes out, then the current volume. */
    method Open()
      modifies this
      ensures old(Consistent(state)) ==> Consistent(state)
      ensures state == VolumeChanged(old(state).(ws := true, isConnected := true), old(state).volume)
      ensures sent == old(sent) + [Handshake, SetVolume(old(state).volume)]
    {
      state := state.(ws := true, isConnected := true);
      SendCommand(Handshake);
      ChangeVolume(state.volume);
    }

    /** `onclose`: the active playlist is cleared and the record disconnected. */
    method Close()
      modifies this, playlists
      ensures old(Consistent(state)) ==> Consistent(state)
      ensures state == Disconnected(old(state)) && sent == old(sent)
      ensures playlists.activePlaylistId == None && playlists.activeTrackIndex == -1
      ensures playlists.playlists == old(playlists.playlists) && playlists.shuffledQueue == old(playlists.shuffledQueue)
    {
      playlists.ClearActivePlaylist();
      if Consistent(state) {
        DisconnectKeepsConsistent(state);
      }
      state := Disconnected(state);
    }

    /** `onerror`: the record is disconnected; the playlist store is left alone. */
    method Error()
      modifies this
      ensures old(Consistent(state)) ==> Consistent(state)
      ensures state == Disconnected(old(state)) && sent == old(sent)
    {
      if Consistent(state) {
        DisconnectKeepsConsistent(state);
      }
      state := Disconnected(state);
    }

    /** `handleMessage` for a decoded message. The result says whether a
        seek acknowledgement asked for `StopSeeking` to run a little later.
        A track that ends plays again under repeat-one and otherwise hands
        over to the playlist store's next step. */
    method HandleMessage(m: Message) returns (resumeSyncLater: bool)
      requires m.TrackEnded? && !state.headless && state.repeatMode != RepeatOne ==> playlists.CanAdvance(state.shuffle)
      modifies this, playlists, images, durations
      ensures old(Consistent(state)) ==> Consistent(state)
      ensures resumeSyncLater <==> m == CommandAcknowledged(118)
      ensures !(m.TrackEnded? || m.HeadlessUpdate? || m.ImageData? || m.DurationData?) ==>
                state == Receive(old(state), m) && sent == old(sent)
                && unchanged(playlists) && unchanged(images) && unchanged(durations)
      ensures m.ImageData? ==>
                state == old(state) && sent == old(sent) && unchanged(playlists) && unchanged(durations)
                && (Truthy(m.url) && Truthy(m.base64) ==>
                      images.db == old(images.db)[m.url.value := m.base64.value]
                      && images.memory == old(images.memory)[m.url.value := m.base64.value])
                && (!(Truthy(m.url) && Truthy(m.base64)) ==> unchanged(images))
      ensures m.DurationData? ==>
                state == old(state) && sent == old(sent) && unchanged(playlists) && unchanged(images)
                && (m.track.Some? && m.trackDuration.Some? && m.trackDuration.value != 0 ==>
                      durations.cache == old(durations.cache)[TrackId(m.track) := m.trackDuration.value])
                && (!(m.track.Some? && m.trackDuration.Some? && m.trackDuration.value != 0) ==> unchanged(durations))
      ensures m.HeadlessUpdate? ==>
                state == old(state) && sent == old(sent) && unchanged(images) && unchanged(durations)
                && playlists.activePlaylistId == m.playlistId && playlists.activeTrackIndex == m.currentIndex
                && playlists.playlists == old(playlists.playlists)
                && playlists.shuffledQueue == old(playlists.shuffledQueue)
      ensures m.TrackEnded? ==> unchanged(images) && unchanged(durations)
      ensures m.TrackEnded? && old(state).headless ==>
                state == old(state) && sent == old(sent) && unchanged(playlists)
      ensures m.TrackEnded? && !old(state).headless && old(state).repeatMode == RepeatOne ==>
                state == old(state).(searchResults := [])
                && sent == old(sent) + Emit(old(state), Play(SongTrack(old(state).currentSong)))
                && unchanged(playlists)
      ensures m.TrackEnded? && !old(state).headless && old(state).repeatMode != RepeatOne ==>
                var target := old(playlists.NextTarget(state.shuffle, state.repeatMode));
                playlists.playlists == old(playlists.playlists)
                && playlists.activePlaylistId == old(playlists.activePlaylistId)
                && playlists.shuffledQueue == old(playlists.shuffledQueue)
                && (target.None? ==> state == old(state) && sent == old(sent)
                                     && playlists.activeTrackIndex == old(playlists.activeTrackIndex))
                && (target.Some? ==> state == old(state).(searchResults := [])
                                     && sent == old(sent) + Emit(old(state), Play(target.value.1))
                                     && playlists.activeTrackIndex == target.value.0)
    {
      resumeSyncLater := false;
      match m
      case CommandAcknowledged(packetOpcode) =>
        resumeSyncLater := packetOpcode == 118;
      case HeadlessUpdate(playlistId, currentIndex) =>
        playlists.HeadlessUpdatePacket(playlistId, currentIndex);
      case TrackEnded =>
        if state.headless {
          return;
        }
        if state.repeatMode == RepeatOne {
          PlaySong(SongTrack(state.currentSong));
        } else {
          var next := playlists.PlayNext(state.shuffle, state.repeatMode);
          if next.Some? {
            PlaySong(next.value);
          }
        }
      case ImageData(url, base64) =>
        if Truthy(url) && Truthy(base64) {
          images.SaveImage(url, base64);
        }
      case DurationData(track, trackDuration) =>
        if track.Some? && trackDuration.Some? && trackDuration.value != 0 {
          durations.SetDuration(TrackId(track), trackDuration.value);
        }
      case _ =>
        if Consistent(state) {
          ReceiveKeepsConsistent(state, m);
        }
        state := Receive(state, m);
    }

    /** `requestLyrics`: for a playable song with no request in flight, the
        current song goes out with opcode 801 and the panel shows loading. */
    method RequestLyrics()
      modifies this
      ensures old(Consistent(state)) ==> Consistent(state)
      ensures state == LyricsRequested(old(state))
      ensures sent == old(sent) + (if CanRequestLyrics(old(state))
                                   then Emit(old(state), Command.RequestLyrics(SongTrack(old(state).currentSong)))
                                   else [])
    {
      if !CanRequestLyrics(state) {
        return;
      }
      SendCommand(Command.RequestLyrics(SongTrack(state.currentSong)));
      state := state.(lyrics := Lyrics(None, None, true, None));
    }

    /** `startSeeking`: position syncs are ignored from now on. */
    method StartSeeking()
      modifies this
      ensures old(Consistent(state)) ==> Consistent(state)
      ensures state == old(state).(isSeeking := true) && sent == old(sent)
    {
      state := state.(isSeeking := true);
    }

    /** `stopSeeking`: position syncs are taken again. */
    method StopSeeking()
      modifies this
      ensures old(Consistent(state)) ==> Consistent(state)
      ensures state == old(state).(isSeeking := false) && sent == old(sent)
    {
      state := state.(isSeeking := false);
    }

    /** `playpausebuttonpressed`: for a playable song, flips `isPlaying` and
        sends resume (1132) when it now plays, pause (1131) otherwise. */
    method PlayPause()
      modifies this
      ensures old(Consistent(state)) ==> Consistent(state)
      ensures !Truthy(old(state).currentSong.encoded) ==> state == old(state) && sent == old(sent)
      ensures Truthy(old(state).currentSong.encoded) ==>
                state == old(state).(isPlaying := !old(state).isPlaying)
                && sent == old(sent) + Emit(old(state), if state.isPlaying then Resume else Pause)
    {
      if !Truthy(state.currentSong.encoded) {
        return;
      }
      var playing := !state.isPlaying;
      SendCommand(if playing then Resume else Pause);
      state := state.(isPlaying := playing);
    }

    /** `toggleShuffle`: flips the shuffle flag and has the playlist store
        build or drop its shuffled order; `randoms` are the random values
        that order draws. */
    method ToggleShuffle(randoms: seq<real>)
      requires playlists.CanShuffle(!state.shuffle, randoms)
      modifies this, playlists
      ensures old(Consistent(state)) ==> Consistent(state)
      ensures state == old(state).(shuffle := !old(state).shuffle) && sent == old(sent)
      ensures playlists.playlists == old(playlists.playlists)
      ensures playlists.activePlaylistId == old(playlists.activePlaylistId)
      ensures !Truthy(old(playlists.activePlaylistId)) ==>
                playlists.shuffledQueue == [] && playlists.activeTrackIndex == old(playlists.activeTrackIndex)
      ensures Truthy(old(playlists.activePlaylistId)) && old(playlists.ActivePlaylist()).None? ==>
                playlists.shuffledQueue == old(playlists.shuffledQueue)
                && playlists.activeTrackIndex == old(playlists.activeTrackIndex)
      ensures Truthy(old(playlists.activePlaylistId)) && old(playlists.ActivePlaylist()).Some? && !old(state).shuffle ==>
                var tracks := old(playlists.ActivePlaylist()).value.tracks;
                playlists.shuffledQueue == ShuffledQueue(tracks, old(playlists.activeTrackIndex), SwapIndices(randoms, |tracks| - 1))
                && playlists.activeTrackIndex == 0
      ensures Truthy(old(playlists.activePlaylistId)) && old(playlists.ActivePlaylist()).Some? && old(state).shuffle ==>
                playlists.shuffledQueue == []
                && playlists.activeTrackIndex == UnshuffledIndex(old(playlists.ActivePlaylist()).value.tracks,
                                                                 old(playlists.shuffledQueue), old(playlists.activeTrackIndex))
    {
      var on := !state.shuffle;
      state := state.(shuffle := on);
      playlists.SetShuffle(on, randoms);
    }

    /** `cycleRepeatMode`. */
    method CycleRepeatMode()
      modifies this
      ensures old(Consistent(state)) ==> Consistent(state)
      ensures state == old(state).(repeatMode := NextRepeatMode(old(state).repeatMode)) && sent == old(sent)
    {
      state := state.(repeatMode := NextRepeatMode(state.repeatMode));
    }

    /** `next`: the playlist store's next step, then its track is played. */
    method Next()
      requires playlists.CanAdvance(state.shuffle)
      modifies this, playlists
      ensures old(Consistent(state)) ==> Consistent(state)
      ensures var target := old(playlists.NextTarget(state.shuffle, state.repeatMode));
              (target.None? ==> state == old(state) && sent == old(sent)
                                && playlists.activeTrackIndex == old(playlists.activeTrackIndex))
              && (target.Some? ==> state == old(state).(searchResults := [])
                                   && sent == old(sent) + Emit(old(state), Play(target.value.1))
                                   && playlists.activeTrackIndex == target.value.0)
      ensures playlists.playlists == old(playlists.playlists) && playlists.activePlaylistId == old(playlists.activePlaylistId)
      ensures playlists.shuffledQueue == old(playlists.shuffledQueue)
    {
      var next := playlists.PlayNext(state.shuffle, state.repeatMode);
      if next.Some? {
        PlaySong(next.value);
      }
    }

    /** `back`: the playlist store's previous step, then its track is played. */
    method Back()
      requires playlists.CanRetreat(state.shuffle)
      modifies this, playlists
      ensures old(Consistent(state)) ==> Consistent(state)
      ensures var target := old(playlists.PrevTarget(state.shuffle, state.repeatMode));
              (target.None? ==> state == old(state) && sent == old(sent)
                                && playlists.activeTrackIndex == old(playlists.activeTrackIndex))
              && (target.Some? ==> state == old(state).(searchResults := [])
                                   && sent == old(sent) + Emit(old(state), Play(target.value.1))
                                   && playlists.activeTrackIndex == target.value.0)
      ensures playlists.playlists == old(playlists.playlists) && playlists.activePlaylistId == old(playlists.activePlaylistId)
      ensures playlists.shuffledQueue == old(playlists.shuffledQueue)
    {
      var previous := playlists.PlayPrevious(state.shuffle, state.repeatMode);
      if previous.Some? {
        PlaySong(previous.value);
      }
    }

    /** `playSong(track)`: asks the server to play it (112) and clears the
        search results. */
    method PlaySong(track: Track)
      modifies this
      ensures old(Consistent(state)) ==> Consistent(state)
      ensures state == old(state).(searchResults := [])
      ensures sent == old(sent) + Emit(old(state), Play(track))
    {
      SendCommand(Play(track));
      state := state.(searchResults := []);
    }

    /** `playTrack(track, indexInPlaylist)`: plays the track; the position
        is not used. */
    method PlayTrack(track: Track, indexInPlaylist: int)
      modifies this
      ensures old(Consistent(state)) ==> Consistent(state)
      ensures state == old(state).(searchResults := [])
      ensures sent == old(sent) + Emit(old(state), Play(track))
    {
      PlaySong(track);
    }

    /** The playlist store's `playPlaylist`, with the player's shuffle flag
        and the track it picks handed to `playSong`. */
    method PlayPlaylist(playlistId: string, startingIndex: int, randoms: seq<real>)
      requires playlists.CanPlay(playlistId, startingIndex, state.shuffle, randoms)
      modifies this, playlists
      ensures old(Consistent(state)) ==> Consistent(state)
      ensures playlists.playlists == old(playlists.playlists)
      ensures var found := FindPlaylist(old(playlists.playlists), Some(playlistId));
              found.None? || |old(playlists.playlists)[found.value].tracks| == 0 ==>
                state == old(state) && sent == old(sent)
                && playlists.activePlaylistId == old(playlists.activePlaylistId)
                && playlists.activeTrackIndex == old(playlists.activeTrackIndex)
                && playlists.shuffledQueue == old(playlists.shuffledQueue)
      ensures var found := FindPlaylist(old(playlists.playlists), Some(playlistId));
              found.Some? && |old(playlists.playlists)[found.value].tracks| > 0 ==>
                var tracks := old(playlists.playlists)[found.value].tracks;
                var first := if old(state).shuffle then Some(tracks[startingIndex]) else At(tracks, startingIndex);
                playlists.activePlaylistId == Some(playlistId)
                && playlists.activeTrackIndex == (if old(state).shuffle then 0 else startingIndex)
                && playlists.shuffledQueue == (if old(state).shuffle
                                               then ShuffledQueue(tracks, startingIndex, SwapIndices(randoms, |tracks| - 1))
                                               else [])
                && (first.None? ==> state == old(state) && sent == old(sent))
                && (first.Some? ==> state == old(state).(searchResults := [])
                                    && sent == old(sent) + Emit(old(state), Play(first.value)))
    {
      ghost var found := FindPlaylist(playlists.playlists, Some(playlistId));
      var play := playlists.PlayPlaylist(playlistId, startingIndex, state.shuffle, randoms);
      if found.Some? && |playlists.playlists[found.value].tracks| > 0 {
        ghost var tracks := playlists.playlists[found.value].tracks;
        assert play == if state.shuffle then Some(tracks[startingIndex]) else At(tracks, startingIndex);
      }
      if play.Some? {
        PlaySong(play.value);
      }
    }

    /** The playlist store's `playTrack(track, indexInQueue)`: with an
        active playlist the position moves there and the track is played;
        without one nothing happens. */
    method PlayQueueEntry(track: Track, indexInQueue: int)
      modifies this, playlists
      ensures old(Consistent(state)) ==> Consistent(state)
      ensures playlists.playlists == old(playlists.playlists)
      ensures playlists.activePlaylistId == old(playlists.activePlaylistId)
      ensures playlists.shuffledQueue == old(playlists.shuffledQueue)
      ensures old(playlists.ActivePlaylist()).None? ==>
                state == old(state) && sent == old(sent) && playlists.activeTrackIndex == old(playlists.activeTrackIndex)
      ensures old(playlists.ActivePlaylist()).Some? ==>
                state == old(state).(searchResults := []) && sent == old(sent) + Emit(old(state), Play(track))
                && playlists.activeTrackIndex == indexInQueue
    {
      var play := playlists.PlayTrack(track, indexInQueue);
      if play.Some? {
        PlaySong(play.value);
      }
    }

    /** `stopHeadless`: asks the server to leave headless mode (902). */
    method StopHeadless()
      modifies this
      ensures state == old(state) && sent == old(sent) + Emit(old(state), Command.StopHeadless)
    {
      SendCommand(Command.StopHeadless);
    }

    /** `seek(percent)`: for a playable song of known duration, asks the
        server to jump (118) and moves the progress bar at once. */
    method Seek(percent: real)
      modifies this
      ensures old(Consistent(state)) ==> Consistent(state)
      ensures state == Sought(old(state), percent)
      ensures sent == old(sent) + (if CanSeek(old(state)) then Emit(old(state), Command.Seek(SeekTarget(old(state), percent))) else [])
    {
      if !CanSeek(state) {
        return;
      }
      SendCommand(Command.Seek(SeekTarget(state, percent)));
      if Consistent(state) {
        SoughtKeepsConsistent(state, percent);
      }
      state := Sought(state, percent);
    }

    /** `search(query)`: a query with something besides whitespace is sent
        trimmed (111); otherwise the results are cleared. */
    method Search(query: Option<string>)
      modifies this
      ensures old(Consistent(state)) ==> Consistent(state)
      ensures Truthy(query) && Trim(query.value) != "" ==>
                state == old(state) && sent == old(sent) + Emit(old(state), Command.Search(Trim(query.value)))
      ensures !(Truthy(query) && Trim(query.value) != "") ==>
                state == old(state).(searchResults := []) && sent == old(sent)
    {
      if query.Some? && query.value != "" && Trim(query.value) != "" {
        SendCommand(Command.Search(Trim(query.value)));
      } else {
        state := state.(searchResults := []);
      }
    }

    /** `clearSearchResults`. */
    method ClearSearchResults()
      modifies this
      ensures old(Consistent(state)) ==> Consistent(state)
      ensures state == old(state).(searchResults := []) && sent == old(sent)
    {
      state := state.(searchResults := []);
    }

    /** `changevolume(v)`: the record changes first, then the volume goes out (117). */
    method ChangeVolume(v: int)
      modifies this
      ensures old(Consistent(state)) ==> Consistent(state)
      ensures state == VolumeChanged(old(state), v)
      ensures sent == old(sent) + Emit(old(state), SetVolume(v))
    {
      if Consistent(state) {
        VolumeKeepsConsistent(state, v);
      }
      state := VolumeChanged(state, v);
      SendCommand(SetVolume(v));
    }

    /** `toggleMute`: the new volume goes out (117) and is stored. */
    method ToggleMute()
      modifies this
      ensures old(Consistent(state)) ==> Consistent(state)
      ensures state == MuteToggled(old(state))
      ensures sent == old(sent) + Emit(old(state), SetVolume(MuteToggled(old(state)).volume))
    {
      if Consistent(state) {
        VolumeKeepsConsistent(state, state.volume);
      }
      var muted := MuteToggled(state);
      SendCommand(SetVolume(muted.volume));
      state := muted;
    }

    /** `getImage(url)`: the artwork cache's lookup, with a miss in both
        tiers sent to the server (401). */
    method GetImage(url: Option<string>)
      modifies this, images
      ensures state == old(state) && images.db == old(images.db)
      ensures match LookupImage(old(images.memory), old(images.db), url)
              case FromDisk(data) => images.memory == old(images.memory)[url.value := data] && sent == old(sent)
              case Fetch(u) => images.memory == old(images.memory) && sent == old(sent) + Emit(old(state), RequestImage(u))
              case _ => images.memory == old(images.memory) && sent == old(sent)
    {
      var request := images.GetImage(url);
      if request.Some? {
        SendCommand(RequestImage(request.value));
      }
    }

    /** `requestDuration(track)`: asks the server for a track's duration
        (291) when connected and not yet cached; the cache is only read. */
    method RequestDuration(track: Option<Track>)
      modifies this
      ensures state == old(state)
      ensures var request := DurationRequest(track, old(state).isConnected, durations.cache);
              sent == old(sent) + (if request.Some? then Emit(old(state), Command.RequestDuration(request.value)) else [])
    {
      var request := DurationRequest(track, state.isConnected, durations.cache);
      if request.Some? {
        SendCommand(Command.RequestDuration(request.value));
      }
    }
  }
}
