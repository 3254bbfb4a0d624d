/**
 * app/storage.go: the cached-file record the index persists, and the
 * fetch-then-store pipeline that hands a fetched body to the storage
 * manager under its content hash.
 */
module AppStorage {
  import opened Common
  import opened UtilPool

  /**
   * `simpleCachedFile`, the concrete `CachedFile`: content hash, source
   * URLs, aliases, payload size and the backend's opaque attributes. The
   * member functions are the interface's accessors; each returns its
   * field as stored.
   */
  datatype SimpleCachedFile = SimpleCachedFile(
    contentHash: string,
    urls: seq<string>,
    aliases: seq<string>,
    size: int,
    attributes: map<string, string>)
  {
    function ContentHash(): string { contentHash }
    function Urls(): seq<string> { urls }
    function Aliases(): seq<string> { aliases }
    function Size(): int { size }
    function Attributes(): map<string, string> { attributes }

    /** Every lookup term the file answers to: its aliases, then its URLs. */
    function Terms(): seq<string> { aliases + urls }
  }

  /** A callback channel, by identity. */
  type Channel = nat

  /** One call `Store(contentHash, payload, urls, aliases, callback)`. */
  datatype StoreCall = StoreCall(
    contentHash: string,
    payload: Bytes,
    urls: seq<string>,
    aliases: seq<string>,
    callback: Channel)

  /**
   * The storage manager, seen from the pipeline: the `Store` calls it
   * has received, in order. What a backend does with them is not part of
   * this model.
   */
  class StorageManager {
    var stored: seq<StoreCall>

    constructor ()
      ensures stored == []
    {
      stored := [];
    }

    /** Every payload was stored under its own content hash. */
    predicate ContentAddressed(hash: Hasher)
      reads this
    {
      forall i :: 0 <= i < |stored| ==> stored[i].contentHash == hash(stored[i].payload)
    }

    /** `Store`: the call is recorded. */
    method Store(call: StoreCall)
      modifies this
      ensures stored == old(stored) + [call]
    {
      stored := stored + [call];
    }
  }

  /**
   * `Download`: fetch `url`; on an error nothing is stored; otherwise
   * `Store` is called exactly once, with the body's hash, the body, the
   * single URL, the aliases as given and the caller's callback channel,
   * which `Download` never uses itself. Content addressing is kept.
   */
  method Download(downloader: Fetcher, storageManager: StorageManager, url: string,
                  aliases: seq<string>, callback: Channel, hash: Hasher)
    modifies storageManager
    ensures downloader(url).err.Some? ==> storageManager.stored == old(storageManager.stored)
    ensures downloader(url).err.None? ==>
      var body := downloader(url).body;
      storageManager.stored
        == old(storageManager.stored) + [StoreCall(hash(body), body, [url], aliases, callback)]
    ensures old(storageManager.ContentAddressed(hash)) ==> storageManager.ContentAddressed(hash)
  {
    var response := downloader(url);
    if response.err.Some? {
      return;
    }
    var contentHash := hash(response.body);
    storageManager.Store(StoreCall(contentHash, response.body, [url], aliases, callback));
  }
}
