/** The artwork cache (src/lib/imageService.js): a two-tier lookup, first the
    in-memory map the UI reads, then the persistent object store, and only
    then a request to the server (opcode 401). Both tiers map an image URL to
    its Base64 data URI. */
module ImageService {
  import opened Wrappers
  import opened Strings

  /** What `getImage` does for a URL. */
  datatype Lookup =
    | Ignored                  // no URL given
    | MemoryHit                // already in memory: nothing to do
    | FromDisk(data: string)   // found in the persistent store: copy it into memory
    | Fetch(url: string)       // found nowhere: ask the server

  /** The lookup order of `getImage`. A persistent entry counts only when it
      is a non-empty string; an empty one is treated as missing. */
  function LookupImage(memory: map<string, string>, db: map<string, string>, url: Option<string>): (r: Lookup)
    ensures r.Ignored? <==> !Truthy(url)
    ensures r.MemoryHit? <==> Truthy(url) && url.value in memory
    ensures r.FromDisk? <==> Truthy(url) && url.value !in memory && url.value in db && db[url.value] != ""
    ensures r.FromDisk? ==> r.data == db[url.value] && r.data != ""
    ensures r.Fetch? ==> Some(r.url) == url && r.url != ""
  {
    if !Truthy(url) then Ignored
    else if url.value in memory then MemoryHit
    else if url.value in db && db[url.value] != "" then FromDisk(db[url.value])
    else Fetch(url.value)
  }

  /** The image service state: the reactive memory cache and the persistent
      store, both keyed by URL. */
  class ImageCache {
    var memory: map<string, string>
    var db: map<string, string>

    /** Memory starts empty; the persistent store holds what earlier sessions saved. */
    constructor (persisted: map<string, string>)
      ensures memory == map[] && db == persisted
    {
      memory := map[];
      db := persisted;
    }

    /** `getImage`: the URL to request from the server, if any. Only a
        persistent hit changes anything, and it changes only memory. */
    method GetImage(url: Option<string>) returns (request: Option<string>)
      modifies this
      ensures db == old(db)
      ensures match LookupImage(old(memory), old(db), url)
              case FromDisk(data) => memory == old(memory)[url.value := data] && request.None?
              case Fetch(u) => memory == old(memory) && request == Some(u)
              case _ => memory == old(memory) && request.None?
    {
      request := None;
      if url.None? || url.value == "" {
        return;
      }
      var u := url.value;
      if u in memory {
        return;
      }
      if u in db && db[u] != "" {
        memory := memory[u := db[u]];
        return;
      }
      request := Some(u);
    }

    /** `saveImage`: with a URL and data both present and non-empty, the
        data is written to the persistent store and then to memory; other
        entries are untouched. Otherwise nothing happens. */
    method SaveImage(url: Option<string>, base64: Option<string>)
      modifies this
      ensures !(Truthy(url) && Truthy(base64)) ==> memory == old(memory) && db == old(db)
      ensures Truthy(url) && Truthy(base64) ==>
                db == old(db)[url.value := base64.value] && memory == old(memory)[url.value := base64.value]
    {
      if url.None? || url.value == "" || base64.None? || base64.value == "" {
        return;
      }
      db := db[url.value := base64.value];
      memory := memory[url.value := base64.value];
    }
  }

  /** Once an image has been saved, looking it up again is a memory hit:
      nothing is requested, whatever the persistent store held before. */
  lemma SavedImageIsNotRequested(memory: map<string, string>, db: map<string, string>, url: string, base64: string)
    requires url != "" && base64 != ""
    ensures LookupImage(memory[url := base64], db[url := base64], Some(url)) == MemoryHit
  {
  }

  /** A fetch happens only for a URL that neither tier can answer: after the
      fetched data is saved, the same URL is never fetched again. */
  lemma FetchOnlyOnce(memory: map<string, string>, db: map<string, string>, url: Option<string>, base64: string)
    requires LookupImage(memory, db, url).Fetch?
    requires base64 != ""
    ensures url.value !in memory
    ensures !LookupImage(memory[url.value := base64], db[url.value := base64], url).Fetch?
  {
  }

  /** A persistent hit is answered from memory next time. */
  lemma DiskHitIsCachedInMemory(memory: map<string, string>, db: map<string, string>, url: Option<string>)
    requires LookupImage(memory, db, url).FromDisk?
    ensures LookupImage(memory[url.value := db[url.value]], db, url) == MemoryHit
  {
  }
}
