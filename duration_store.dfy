/** The duration cache (src/lib/durationStore.js): a map from track id
    (author followed by title) to a duration in milliseconds, filled as
    duration answers arrive from the server. */
module DurationStore {

  /** The store object holding the cache; `setDuration` updates the map in place. */
  class DurationCache {
    var cache: map<string, int>

    /** The cache starts empty. */
    constructor ()
      ensures cache == map[]
    {
      cache := map[];
    }

    /** `setDuration`: `id` now maps to `duration`, whether or not it was
        cached before (the last write wins); every other id keeps its entry. */
    method SetDuration(id: string, duration: int)
      modifies this
      ensures id in cache && cache[id] == duration
      ensures cache.Keys == old(cache).Keys + {id}
      ensures forall other :: other in old(cache) && other != id ==> other in cache && cache[other] == old(cache)[other]
    {
      cache := cache[id := duration];
    }
  }
}
