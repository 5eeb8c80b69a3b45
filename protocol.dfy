/** The messages exchanged with the playback server, already decoded, and the
    repeat modes the player and the playlist store share
    (src/lib/playerStore.js). */
module Protocol {
  import opened Wrappers
  import opened Tracks

  /** `repeatMode`: 'none', 'all' or 'one'. */
  datatype RepeatMode = RepeatNone | RepeatAll | RepeatOne

  /** Commands the client sends; each carries the payload of its opcode. */
  datatype Command =
    | Handshake                      // 101
    | Search(query: string)          // 111
    | Play(track: Track)             // 112
    | SetVolume(volume: int)         // 117
    | Seek(seek: int)                // 118, milliseconds
    | RequestDuration(track: Track)  // 291
    | RequestImage(url: string)      // 401
    | RequestLyrics(track: Track)    // 801
    | StopHeadless                   // 902
    | Pause                          // 1131
    | Resume                         // 1132

  /** One entry of a search answer; the client keeps only its track. */
  datatype SearchHit = SearchHit(track: Track)

  /** Inbound messages, one constructor per opcode the client handles; an
      `Option` field is one the handler tests for presence. `Malformed` is a
      frame that did not parse; `Unknown` carries an opcode that has none of
      the constructors above (the decoder maps every handled opcode to its
      own constructor). */
  datatype Message =
    | CommandFailed(packetOpcode: int)                  // -1
    | CommandAcknowledged(packetOpcode: int)            // -2
    | Status(playing: Option<bool>, paused: Option<bool>, volume: Option<int>,
             headless: Option<bool>, current: Option<Track>)  // 200
    | TrackEnded                                        // 201
    | PositionSync(position: real, duration: real)      // 202, milliseconds
    | SearchResults(results: seq<SearchHit>)            // 111
    | ImageData(url: Option<string>, base64: Option<string>)   // 401
    | DurationData(track: Option<Track>, trackDuration: Option<int>) // 291
    | LyricsResult(content: Option<string>, source: Option<string>) // 801
    | HeadlessUpdate(playlistId: Option<string>, currentIndex: int) // 903
    | Unknown(opcode: int)
    | Malformed

  /** The `repeatingType` of the headless-start beacon: shuffle wins, then
      repeat-one; every other mode, 'none' included, is announced as 'REPEAT_ALL'. */
  function RepeatingType(shuffle: bool, mode: RepeatMode): (r: string)
    ensures r == "SHUFFLE" <==> shuffle
    ensures r == "REPEAT_ONE" <==> !shuffle && mode == RepeatOne
    ensures r == "REPEAT_ALL" <==> !shuffle && mode != RepeatOne
  {
    if shuffle then "SHUFFLE" else if mode == RepeatOne then "REPEAT_ONE" else "REPEAT_ALL"
  }
}
