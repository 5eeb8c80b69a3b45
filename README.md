# Music player client core in Dafny

This project models the playback and queue logic of a browser music-player
client. The client talks to a playback server over a WebSocket. The model
covers:

- **track identity**: a track is identified by author followed by title;
  the rule deciding when a track's duration is asked of the server;
- **time formatting**: milliseconds shown as `M:SS`;
- **duration cache**: a map from track id to duration;
- **artwork cache**: an in-memory map, then a persistent object store, then
  a request to the server (opcode 401);
- **player store**: the client's record of what the server is playing, the
  handler for every inbound message, and the user commands with the commands
  they write to the socket;
- **playlist store**: user playlists with duplicate-free appends, the
  active playlist and position, the Fisher–Yates shuffled queue that keeps
  the current track first, next/previous with repeat-all wrap-around, and the
  positions reported by the server's headless player.

Layout, one module per source file plus three shared ones:

| file | module | models |
|---|---|---|
| `wrappers.dfy` | `Wrappers` | `Option` |
| `strings.dfy` | `Strings` | JavaScript truthiness of strings and `String.prototype.trim` |
| `tracks.dfy` | `Tracks` | `src/lib/utils/track.js` |
| `protocol.dfy` | `Protocol` | decoded inbound messages, outbound commands, repeat modes |
| `time_format.dfy` | `TimeFormat` | `src/lib/utils/time.js` |
| `duration_store.dfy` | `DurationStore` | `src/lib/durationStore.js` |
| `image_service.dfy` | `ImageService` | `src/lib/imageService.js` |
| `playlist_store.dfy` | `PlaylistStore` | `src/lib/playlistStore.js` |
| `player_store.dfy` | `PlayerStore` | `src/lib/playerStore.js` |

The JavaScript modules import each other in a cycle. The player calls the
playlist store, and the playlist store calls `player.playSong`. The artwork
and duration helpers call `player._sendCommand`. Dafny modules cannot be
cyclic, so the leaf stores do not call the player. Instead they **return**
what they would hand to it:

- `Store.PlayNext` returns the track to play;
- `ImageCache.GetImage` returns the URL to request;
- `DurationRequest` returns the track whose duration to ask for.

The `Player` class holds the playlist, artwork and duration stores and does
the forwarding itself. Outbound traffic is the append-only log
`Player.sent`. A command reaches the log only when the record holds a
connected socket (`Emit`).

Each `update` of the player store replaces its record wholesale. So every
transition on that record is a function of the old record: `Receive`,
`VolumeChanged`, `Sought` and so on. The `Player` methods are proved to
leave exactly that function's result in `state`, and every one that changes
the record keeps it `Consistent`. The playlist store's JavaScript also replaces its
record wholesale (`{ ...store, ... }`). The model keeps the same four values
as fields of the class `Store`, which its methods change. The Fisher–Yates loop of `setShuffle`
swaps array elements in place (`ShuffleInPlace`, used by `BuildShuffledQueue`). It is proved equal to
the pure `ShuffledQueue`, which is proved to be a permutation that keeps the
current track first.

`Math.random()` is the list `randoms` of values in [0, 1): the k-th call
returns `randoms[k]`. `SwapIndices` turns them into swap partners
`floor(r * (i + 1))`. `uuidv4()` is the `freshId` argument of
`CreatePlaylist`. JavaScript numbers are mathematical reals (`real`) or
integers. Volumes, indices and the track durations the server reports
(opcode 291) are integers; the positions and durations of position-sync
messages are reals.

## Model

| member | source | states |
|---|---|---|
| Strings.Trim | src/lib/playlistStore.js:42-45 | the trimmed string is an infix of the input; everything dropped before and after it is whitespace, and it neither starts nor ends with whitespace |
| Strings.TrimEmptyIffBlank | src/lib/playlistStore.js:42 | trimming gives the empty string exactly when every character is whitespace |
| Strings.TrimIdempotent | src/lib/playerStore.js:338-339 | trimming an already trimmed query changes nothing |
| Tracks.TrackId | src/lib/utils/track.js:11-14 | a missing track or a track without metadata has the empty id; otherwise the id is exactly the author followed by the title |
| Tracks.SameMetadataSameId | src/lib/utils/track.js:13 | equal author and title give equal ids, whatever the playable reference or artwork |
| Tracks.IdentityCollides | src/lib/utils/track.js:13 | ("ab","c") and ("a","bc") share an id: the concatenation has no separator |
| Tracks.DurationRequest | src/lib/utils/track.js:16-33 | a request goes out, carrying the track itself, exactly when a track is given, the player is connected and its id is not cached |
| Tracks.CachedDurationIsNotRequested | src/lib/utils/track.js:28-32 | once a duration is cached under a track's id, that track is never requested again |
| Tracks.RequestFollowsIdentity | src/lib/utils/track.js:28-32 | tracks with equal ids are requested alike |
| Protocol.RepeatingType | src/lib/playerStore.js:37 | 'SHUFFLE' exactly when shuffling; 'REPEAT_ONE' exactly under repeat-one without shuffle; 'REPEAT_ALL' otherwise, repeat-off included |
| TimeFormat.Decimal | src/lib/utils/time.js:18 | `toString` of a non-negative integer is a non-empty digit string, one digit below 10 and two below 100, with no leading zero unless the number is 0 |
| TimeFormat.DecimalRoundTrip | src/lib/utils/time.js:18 | the digits of `n` read back as `n` |
| TimeFormat.LeadingZero | src/lib/utils/time.js:18 | a zero put in front of digits keeps their value |
| TimeFormat.PadZeros | src/lib/utils/time.js:18 | `padStart` leaves an input of at least `width` characters as it is; a shorter one gets exactly as many zeros in front of it as it lacks |
| TimeFormat.WholeSeconds | src/lib/utils/time.js:13 | the whole seconds `t` satisfy t*1000 <= ms < (t+1)*1000 |
| TimeFormat.SplitMinutes | src/lib/utils/time.js:14-15 | seconds below 60 and minutes*60 + seconds equal the total |
| TimeFormat.TwoDigits | src/lib/utils/time.js:18 | the seconds field is exactly two digits that read back as the seconds |
| TimeFormat.ClockText | src/lib/utils/time.js:18 | the text is the minutes' digits, a colon, then the two-digit seconds field |
| TimeFormat.Clock | src/lib/utils/time.js:13-18 | the text is digits, a colon, and exactly two digits |
| TimeFormat.FormatTime | src/lib/utils/time.js:8-19 | a missing, non-numeric or negative input gives "0:00"; every output is minutes, a colon and two seconds digits |
| TimeFormat.ClockRoundTrip | src/lib/utils/time.js:13-18 | reading the text back gives seconds below 60 and minutes*60 + seconds equal to the total; minutes are not capped |
| TimeFormat.FormatTimeRoundTrip | src/lib/utils/time.js:13-18 | for ms >= 0 the text reads back as floor(ms/1000) seconds, the sub-second rest discarded |
| DurationStore.DurationCache.constructor | src/lib/durationStore.js:9 | the cache starts empty |
| DurationStore.DurationCache.SetDuration | src/lib/durationStore.js:14-19 | after the call the id maps to the new duration, overwriting any earlier one; the key set gains only the id; every other entry is unchanged |
| ImageService.LookupImage | src/lib/imageService.js:29-51 | lookup order: no URL gives nothing to do; then a memory hit; then a non-empty persistent entry; otherwise fetch the URL itself; each case with its iff condition |
| ImageService.ImageCache.constructor | src/lib/imageService.js:12 | memory starts empty and the persistent store holds what was saved before |
| ImageService.ImageCache.GetImage | src/lib/imageService.js:29-51 | the persistent store never changes; a persistent hit copies its entry into memory and requests nothing; a miss in both requests exactly the URL and changes nothing; otherwise nothing changes |
| ImageService.ImageCache.SaveImage | src/lib/imageService.js:59-68 | with a URL and data both tiers map the URL to the data and keep every other entry; otherwise nothing changes |
| ImageService.SavedImageIsNotRequested | src/lib/imageService.js:59-68 | after saving, looking the URL up is a memory hit |
| ImageService.FetchOnlyOnce | src/lib/imageService.js:49-50 | a URL that was fetched and saved is never fetched again |
| ImageService.DiskHitIsCachedInMemory | src/lib/imageService.js:41-47 | after a persistent hit has been copied into memory, the next lookup is a memory hit |
| PlaylistStore.FindPlaylist | src/lib/playlistStore.js:79 | the position of the first playlist with the id, or none when no playlist has it |
| PlaylistStore.At | src/lib/playlistStore.js:83 | indexing gives the element inside the queue and nothing (`undefined`) outside |
| PlaylistStore.Without | src/lib/playlistStore.js:85 | `filter` drops exactly position i, shifting later tracks down by one; an index outside changes nothing |
| PlaylistStore.WithoutRemovesOne | src/lib/playlistStore.js:85 | the dropped track plus the rest is the same multiset as the playlist |
| PlaylistStore.FindIndexById | src/lib/playlistStore.js:97 | -1 exactly when no track has the id; otherwise the first position with it |
| PlaylistStore.Pick | src/lib/playlistStore.js:88 | `floor(random * (i + 1))` lies in [0, i] |
| PlaylistStore.SwapIndices | src/lib/playlistStore.js:87-88 | the partners drawn for the loop are valid: step k picks a position at most n-1-k |
| PlaylistStore.Swap | src/lib/playlistStore.js:89 | the two positions exchange their tracks, every other position keeps its track, and the length is kept |
| PlaylistStore.SwapPermutes | src/lib/playlistStore.js:89 | a swap keeps the same multiset of tracks for any j in [0, i] |
| PlaylistStore.ShuffleDown | src/lib/playlistStore.js:87-90 | the loop from position i down to 1, one swap per step, keeps the length |
| PlaylistStore.ShuffleDownPermutes | src/lib/playlistStore.js:87-90 | the shuffle loop keeps the same multiset, whatever the partners |
| PlaylistStore.FisherYates | src/lib/playlistStore.js:87-90 | the whole shuffle loop keeps the length and the same multiset of tracks: it is a permutation |
| PlaylistStore.ShuffledQueue | src/lib/playlistStore.js:82-92 | the shuffled queue starts with the current track and is a permutation of the playlist's tracks |
| PlaylistStore.SwapInPlace | src/lib/playlistStore.js:89 | the array after the swap is the swapped sequence |
| PlaylistStore.ShuffleInPlace | src/lib/playlistStore.js:87-90 | the in-place loop over an array leaves exactly `FisherYates` of its old contents |
| PlaylistStore.BuildShuffledQueue | src/lib/playlistStore.js:85-92 | copying the other tracks into an array, shuffling it in place and putting the current track first builds exactly the shuffled queue |
| PlaylistStore.UnshuffledIndex | src/lib/playlistStore.js:96-97 | the index returned to is the first playlist position whose id is that of the current queue entry, and -1 exactly when no track has that id |
| PlaylistStore.ShuffleRoundTrip | src/lib/playlistStore.js:82-98 | shuffling on, then off, returns to the starting position when the playlist's ids are distinct |
| PlaylistStore.ShuffleRoundTripNeedsDistinctIds | src/lib/playlistStore.js:97 | with two tracks sharing author and title, shuffling from the second and unshuffling lands on the first |
| PlaylistStore.NextIndex | src/lib/playlistStore.js:164-176 | one further; past the end it wraps to 0 under repeat-all and gives nothing otherwise; the result is inside the queue |
| PlaylistStore.PrevIndex | src/lib/playlistStore.js:214-220 | one back; before the start it goes to the last position under repeat-all and stays at 0 otherwise; the result is inside the queue |
| PlaylistStore.NextPreviousInverse | src/lib/playlistStore.js:164-220 | under repeat-all, next and previous undo each other at every position, wrap-around included |
| PlaylistStore.EndsWithoutRepeat | src/lib/playlistStore.js:168-174 | without repeat-all, next at the last position plays nothing and previous at the first stays there |
| PlaylistStore.Created | src/lib/playlistStore.js:41-54 | one playlist is added exactly when the name has a non-whitespace character: at the end, with the fresh id, the trimmed name, no tracks and creator 'User'; existing playlists are kept; otherwise nothing changes |
| PlaylistStore.WithTrack | src/lib/playlistStore.js:58-66 | the track is appended exactly when the id matches and no track has its playable reference; afterwards a matching playlist holds that reference; id, name and creator never change |
| PlaylistStore.AddTrack | src/lib/playlistStore.js:56-71 | every playlist is updated independently by the same rule, and their number and order are kept |
| PlaylistStore.AddTrackIdempotent | src/lib/playlistStore.js:61-64 | adding the same track twice is the same as adding it once |
| PlaylistStore.AddTrackUnknownId | src/lib/playlistStore.js:59 | an id that no playlist has changes nothing |
| PlaylistStore.Store.constructor | src/lib/playlistStore.js:23-30 | the four fields are those of the saved snapshot when there is one, otherwise the initial state: no playlists, no active id, position -1, empty shuffled queue |
| PlaylistStore.Store.ActivePlaylist | src/lib/playlistStore.js:158 | the active playlist is the first stored playlist with the active id, and none when no playlist has it |
| PlaylistStore.Store.Queue | src/lib/playlistStore.js:161 | the order stepped through is the shuffled queue when shuffling and the playlist's tracks otherwise; there is none without an active playlist |
| PlaylistStore.Store.NextTarget | src/lib/playlistStore.js:154-181 | `playNext` plays something exactly when there is a non-empty queue and it is not at the end, or repeat-all is on; it plays the queue entry at NextIndex |
| PlaylistStore.Store.PrevTarget | src/lib/playlistStore.js:204-225 | `playPrevious` plays something exactly when there is a non-empty queue; it plays the queue entry at PrevIndex |
| PlaylistStore.Store.CreatePlaylist | src/lib/playlistStore.js:41-54 | the playlists become `Created(...)`; nothing else changes |
| PlaylistStore.Store.AddTrackToPlaylist | src/lib/playlistStore.js:56-71 | the playlists become `AddTrack(...)`; nothing else changes |
| PlaylistStore.Store.SetShuffle | src/lib/playlistStore.js:73-101 | without an active id only the queue is cleared; with an unknown id nothing changes; on, the queue becomes the shuffled queue and the position 0; off, the queue is cleared and the position becomes the unshuffled index; the playlists never change |
| PlaylistStore.Store.PlayPlaylist | src/lib/playlistStore.js:104-152 | a missing or empty playlist changes nothing and plays nothing; otherwise the playlist becomes active; shuffled, the queue is the shuffled queue, the position 0 and the starting track plays; in order, the queue is empty, the position is the start and the track there plays, if any |
| PlaylistStore.Store.PlayNext | src/lib/playlistStore.js:154-181 | plays NextTarget's track and moves to its position; with no target nothing changes; only the position ever changes |
| PlaylistStore.Store.PlayTrack | src/lib/playlistStore.js:182-202 | with an active playlist the position becomes `indexInQueue` and the given track plays; without one nothing changes |
| PlaylistStore.Store.PlayPrevious | src/lib/playlistStore.js:204-225 | plays PrevTarget's track and moves to its position; only the position ever changes |
| PlaylistStore.Store.ClearActivePlaylist | src/lib/playlistStore.js:229-231 | no active id and position -1; playlists and queue untouched |
| PlaylistStore.Store.HeadlessUpdatePacket | src/lib/playlistStore.js:233-235 | the active id and position become the reported ones, unchecked; playlists and queue untouched |
| PlayerStore.SongTrack | src/lib/playerStore.js:193-194 | the rebuilt track carries the song's metadata and playable reference |
| PlayerStore.SongId | src/lib/playerStore.js:131 | a song's identity is the id of its rebuilt track |
| PlayerStore.Reset | src/lib/playerStore.js:78-89 | no socket, not connected, nothing playing or seeking, no progress, not headless, idle lyrics; volume, settings, song and search results survive; the result is consistent |
| PlayerStore.Emit | src/lib/playerStore.js:272-281 | the command is written exactly when a socket is held and connected, otherwise nothing is |
| PlayerStore.Disconnected | src/lib/playerStore.js:237-248 | no socket, not connected, not playing, default song; every other field unchanged |
| PlayerStore.DisconnectedSendsNothing | src/lib/playerStore.js:243 | after a disconnect every command is dropped |
| PlayerStore.AnnouncedSong | src/lib/playerStore.js:128-129 | a song is announced exactly when the snapshot has a track with metadata, and it rebuilds to that track |
| PlayerStore.StatusFields | src/lib/playerStore.js:116-125 | `isPlaying` becomes playing && !paused only when both are present; volume and headless are overwritten only when present; every other field is unchanged |
| PlayerStore.SongAnnounced | src/lib/playerStore.js:128-141 | a song with a different author+title becomes current, and progress, time, duration and lyrics reset; with the same identity the record is unchanged |
| PlayerStore.ApplyStatus | src/lib/playerStore.js:111-147 | the playing flag, volume and headless flag follow the snapshot; a song with a different author+title becomes current and progress, time, duration and lyrics reset; with the same identity the song and those four fields are unchanged; the remembered volume, shuffle, repeat mode, connection, search results and seeking flag never change |
| PlayerStore.StatusIdempotent | src/lib/playerStore.js:111-147 | applying the same snapshot twice is applying it once |
| PlayerStore.LyricsOutcome | src/lib/playerStore.js:149-156 | loaded text and source exactly when both are present and non-empty, else the not-found error; never loading; always well formed |
| PlayerStore.ApplyPositionSync | src/lib/playerStore.js:159-173 | nothing changes while seeking; a non-positive duration gives duration and progress 0; otherwise duration and time are in seconds and progress is position/duration in percent, within [0, 100] when the position is within the track; only the three timing fields change |
| PlayerStore.ShareBounds | src/lib/playerStore.js:170 | the played share of a track lies in [0, 1] |
| PlayerStore.ApplySearchResults | src/lib/playerStore.js:175-178 | the results are the entries' tracks, in order; nothing else changes |
| PlayerStore.Receive | src/lib/playerStore.js:100-220 | only status, lyrics, position and search messages change the record, each by its transition; failures, acknowledgements, unknown and malformed messages change nothing |
| PlayerStore.ReceiveKeepsConsistent | src/lib/playerStore.js:100-220 | every inbound message keeps the record consistent: no progress without a known duration, well-formed lyrics |
| PlayerStore.NextRepeatMode | src/lib/playerStore.js:301-309 | none goes to all, all to one, one to none; the mode always changes |
| PlayerStore.RepeatCycleHasPeriodThree | src/lib/playerStore.js:301-309 | three presses bring the original mode back |
| PlayerStore.VolumeChanged | src/lib/playerStore.js:347-348 | the volume becomes v; the remembered volume becomes v only when v > 0; nothing else changes |
| PlayerStore.MuteToggled | src/lib/playerStore.js:352-357 | a sounding volume goes to 0, a silent one back to the remembered volume, which never changes |
| PlayerStore.MuteRoundTrip | src/lib/playerStore.js:347-357 | after setting a positive volume, muting and unmuting restores the same record |
| PlayerStore.StatusVolumeIsNotRemembered | src/lib/playerStore.js:120-122 | a volume set by the server is not remembered: unmuting after it returns to the user's last volume |
| PlayerStore.Round | src/lib/playerStore.js:331 | `Math.round` gives the integer within half a unit, halves going up |
| PlayerStore.Sought | src/lib/playerStore.js:327-335 | without a playable song of known duration nothing changes; otherwise progress becomes the percentage and time that share of the duration; only those two fields change |
| PlayerStore.SeekTarget | src/lib/playerStore.js:330-331 | the seek target is within half a millisecond of the share of the duration |
| PlayerStore.LyricsRequested | src/lib/playerStore.js:253-267 | for a playable song with no request in flight the panel shows loading and nothing else; otherwise nothing changes |
| PlayerStore.LyricsRequestedKeepsConsistent | src/lib/playerStore.js:253-267 | requesting lyrics keeps the record consistent |
| PlayerStore.SoughtKeepsConsistent | src/lib/playerStore.js:327-335 | seeking keeps the record consistent |
| PlayerStore.VolumeKeepsConsistent | src/lib/playerStore.js:347-358 | volume changes and muting keep the record consistent |
| PlayerStore.DisconnectKeepsConsistent | src/lib/playerStore.js:237-248 | disconnecting keeps the record consistent |
| PlayerStore.TeardownBeacon | src/lib/playerStore.js:30-51 | a beacon exists exactly when a playlist is active in a non-headless player and that playlist exists with tracks; it carries those tracks, the repeating type, the playlist id and the position |
| PlayerStore.Player.constructor | src/lib/playerStore.js:53-89 | the record is the persisted one, or the initial one, after the start-up reset; nothing sent |
| PlayerStore.Player.SendCommand | src/lib/playerStore.js:272-281 | the record is unchanged and the log grows by `Emit` |
| PlayerStore.Player.Open | src/lib/playerStore.js:230-235 | connected; the handshake then the current volume are sent |
| PlayerStore.Player.Close | src/lib/playerStore.js:237-244 | the active playlist is cleared and the record disconnected; nothing sent |
| PlayerStore.Player.Error | src/lib/playerStore.js:245-248 | the record is disconnected; the playlist store is untouched |
| PlayerStore.Player.HandleMessage | src/lib/playerStore.js:91-221 | per message: a seek acknowledgement asks for sync to resume later; record messages go through `Receive`; artwork and durations are saved when their fields are present; headless updates go to the playlist store; a track end does nothing headless, replays the current song under repeat-one, and otherwise plays the playlist store's next target |
| PlayerStore.Player.RequestLyrics | src/lib/playerStore.js:253-267 | the record becomes `LyricsRequested`; the current song goes out only when lyrics can be requested |
| PlayerStore.Player.StartSeeking | src/lib/playerStore.js:269 | only the seeking flag is set |
| PlayerStore.Player.StopSeeking | src/lib/playerStore.js:270 | only the seeking flag is cleared |
| PlayerStore.Player.PlayPause | src/lib/playerStore.js:283-291 | without a playable song nothing happens; otherwise `isPlaying` flips and resume or pause is sent accordingly |
| PlayerStore.Player.ToggleShuffle | src/lib/playerStore.js:293-299 | the shuffle flag flips and the playlist store follows as `SetShuffle` states: without an active id the queue is cleared; with an unknown id nothing changes; turned on, the queue is the shuffled queue and the position 0; turned off, the queue is cleared and the position is the unshuffled index; playlists and the active id are kept |
| PlayerStore.Player.CycleRepeatMode | src/lib/playerStore.js:301-309 | only the repeat mode advances |
| PlayerStore.Player.Next | src/lib/playerStore.js:311 | plays the playlist store's next target and moves there; with none nothing changes |
| PlayerStore.Player.Back | src/lib/playerStore.js:312 | plays the playlist store's previous target and moves there; with none nothing changes |
| PlayerStore.Player.PlaySong | src/lib/playerStore.js:314-317 | the track goes out with opcode 112 and the search results are cleared |
| PlayerStore.Player.PlayTrack | src/lib/playerStore.js:323-325 | plays the track; the position argument is ignored |
| PlayerStore.Player.PlayPlaylist | src/lib/playlistStore.js:104-152 | a missing or empty playlist changes nothing and plays nothing; otherwise the playlist becomes active, with the player's shuffle flag the queue is the shuffled queue and the position 0, without it the queue is empty and the position the start; the chosen track is played, if any |
| PlayerStore.Player.PlayQueueEntry | src/lib/playlistStore.js:182-202 | with an active playlist the position moves and the track is played; without one nothing happens |
| PlayerStore.Player.StopHeadless | src/lib/playerStore.js:319-321 | opcode 902 goes out; the record is unchanged |
| PlayerStore.Player.Seek | src/lib/playerStore.js:327-335 | the record becomes `Sought`; the rounded target goes out only when seeking is possible |
| PlayerStore.Player.Search | src/lib/playerStore.js:337-343 | a query with a non-whitespace character is sent trimmed; otherwise the results are cleared |
| PlayerStore.Player.ClearSearchResults | src/lib/playerStore.js:345 | only the search results are cleared |
| PlayerStore.Player.ChangeVolume | src/lib/playerStore.js:347-350 | the record becomes `VolumeChanged` and the new volume goes out |
| PlayerStore.Player.ToggleMute | src/lib/playerStore.js:352-358 | the record becomes `MuteToggled` and its volume goes out |
| PlayerStore.Player.GetImage | src/lib/imageService.js:29-51 | the artwork lookup; only a miss in both tiers sends the URL with opcode 401 |
| PlayerStore.Player.RequestDuration | src/lib/utils/track.js:16-33 | the duration request, when there is one, goes out with opcode 291; the record and the cache are only read |

## Left out

- Socket construction, the `onmessage` wiring and `JSON.parse` of frames: messages arrive decoded. A frame that does not parse is `Malformed` and changes nothing.
- `navigator.sendBeacon` delivery on tab close: `TeardownBeacon` computes the packet that would be sent, not its delivery.
- The two-second `setTimeout` after a seek acknowledgement: `HandleMessage` returns `resumeSyncLater`, and the environment then calls `StopSeeking`.
- Persistence: `persistentStore`, `localStorage`, `loadPlaylists` and `_save`. The player's saved record and the playlist store's saved snapshot are constructor arguments; writing them back is not modelled.
- IndexedDB opening and upgrade, and the interleaving of the `await` steps: the persistent tier is a map that the steps read and write in sequence.
- `uuidv4()` is the `freshId` argument and `Math.random()` the `randoms` list. The model does not say they are fresh or uniform.
- Floating point: positions, durations and percentages are mathematical reals, without IEEE rounding, NaN or Infinity. For `formatTime`, a non-number or NaN is `None`.
- PlayerStore.LyricsOutcome: a lyrics message without its `lyrics` object is not modelled. JavaScript would throw on the destructuring.
- Durations from the server are integers: a duration is present exactly when it is non-zero, as JavaScript's truthiness has it for integers.
- Values that JavaScript would let through as `undefined` are excluded by preconditions rather than modelled:
  - PlaylistStore.Store.PlayNext: the position must be at least -1 (`CanAdvance`).
  - PlaylistStore.Store.PlayPrevious: the position must be at most the queue's length (`CanRetreat`).
  - PlaylistStore.Store.SetShuffle: turning shuffle on needs a position inside the playlist and enough random values (`CanShuffle`).
  - PlaylistStore.Store.PlayPlaylist: with shuffle on, the starting index must be inside the playlist (`CanPlay`). `startingIndex` has no default of 0; callers pass it.
  - Without these, `playNext` and `playPrevious` would play `undefined`; `setShuffle` would put `undefined` first in the shuffled queue (playlistStore.js line 83); `playPlaylist` would do the same and then play nothing, because of its `if (trackToPlay)` guard.
- PlaylistStore.ShuffleDown: its own contract states only the length; that the loop permutes the tracks is stated by `ShuffleDownPermutes`.
- Protocol.Message: `Unknown` stands for the opcodes the handler does not dispatch; the datatype does not stop `Unknown` from carrying a handled opcode, and the decoder that would is not modelled.
- PlaylistStore.Store.PlayTrack: the `absoluteIndex` it computes is never used, so it is not modelled.
- The `window.getPlayer`/`window.getPlaylist` debug hooks, Svelte subscriptions and console logging.
- The login popup and modal stores: they are UI visibility flags outside this core.
- TimeFormat.Clock: its own contract states only the shape of the text. The values it shows are stated by `ClockRoundTrip`.
