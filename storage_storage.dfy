/**
 * storage/storage.go and storage/cachedfile.go: the `storage` package's
 * fetch-then-store pipeline and its error type.
 * The two files carry the same `Download` (the second is an earlier copy
 * using a local `hash`), so it is modelled once here.
 */
module StorageDownload {
  import opened Common
  import opened UtilPool
  import opened UtilMisc

  /** `StorageError`; `Error()` gives back the message it was made with. */
  datatype StorageError = StorageError(message: string)
  {
    function Error(): string { message }
  }

  /** A callback channel, by identity. */
  type Channel = nat

  /** One call `Store(payload, sourceUrl, contentHash, aliases, callback)`. */
  datatype StoreCall = StoreCall(
    payload: Bytes,
    sourceUrl: string,
    contentHash: string,
    aliases: seq<string>,
    callback: Channel)

  /** The storage manager, seen from the pipeline: the `Store` calls it has received, in order. */
  class StorageManager {
    var stored: seq<StoreCall>

    constructor ()
      ensures stored == []
    {
      stored := [];
    }

    method Store(call: StoreCall)
      modifies this
      ensures stored == old(stored) + [call]
    {
      stored := stored + [call];
    }
  }

  /**
   * `Download`: on a fetch error nothing is stored. Otherwise exactly one
   * `Store` call is made, with the body, the URL, the body's hash, the
   * caller's channel and an alias list holding the URL, the URL's hash,
   * the content hash and the given aliases, each exactly once even when
   * the given aliases repeat one of them.
   */
  method Download(downloader: Fetcher, storageManager: StorageManager, url: string,
                  aliases: seq<string>, callback: Channel, hash: Hasher)
    modifies storageManager
    ensures downloader(url).err.Some? ==> storageManager.stored == old(storageManager.stored)
    ensures downloader(url).err.None? ==>
      var body := downloader(url).body;
      && |storageManager.stored| == |old(storageManager.stored)| + 1
      && storageManager.stored[..|old(storageManager.stored)|] == old(storageManager.stored)
      && var call := storageManager.stored[|old(storageManager.stored)|];
      && call.payload == body && call.sourceUrl == url && call.contentHash == hash(body)
      && call.callback == callback
      && Elements(call.aliases) == {url, UrlHash(hash, url), hash(body)} + Elements(aliases)
      && Distinct(call.aliases)
  {
    var response := downloader(url);
    if response.err.Some? {
      return;
    }
    var body := response.body;
    var contentHash := hash(body);
    var urlHash := UrlHash(hash, url);
    var allAliases := AllAliases(url, urlHash, contentHash, aliases);
    storageManager.Store(StoreCall(body, url, contentHash, allAliases, callback));
  }
}
