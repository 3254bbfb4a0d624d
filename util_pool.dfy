/**
 * util/pool.go: the download de-duplication pool, a set of URLs whose
 * fetch is in progress, and the wrapper that refuses to fetch a URL that
 * is already in that set.
 *
 * The source guards the pool with a mutex; the model is single-threaded,
 * so each pool operation is one atomic step.
 */
module UtilPool {
  import opened Common

  /** The errors a fetch can return. */
  datatype FetchError =
    | DownloadError(message: string)   // the pool's own refusal
    | RemoteError(message: string)     // whatever the wrapped fetcher reports

  /** What a `RemoteFileFetcher` returns: the body, and the error (nil is `None`). */
  datatype Response = Response(body: Bytes, err: Option<FetchError>)

  /** A `RemoteFileFetcher`: from a URL to the response fetching it gives. */
  type Fetcher = string -> Response

  /** The message of the pool's refusal. */
  const AlreadyBeingDownloaded := "Url already being downloaded"

  /** The response the wrapper gives for a URL that is already in transit. */
  const Rejected := Response([], Some(DownloadError(AlreadyBeingDownloaded)))

  /** `DownloadError.Error()` (and the other error's message). */
  function ErrorText(e: FetchError): string
  {
    e.message
  }

  /** The pool: every URL in transit, with the time its fetch started. */
  class DownloadPool {
    var urls: map<string, int>

    /** `NewDownloadPool`. */
    constructor ()
      ensures urls == map[]
    {
      urls := map[];
    }

    /** `Download`: `url` is in transit from `now` on; no other URL changes. */
    method Download(url: string, now: int)
      modifies this
      ensures urls == old(urls)[url := now]
      ensures url in urls
      ensures forall u :: u != url ==> (u in urls <==> u in old(urls))
    {
      urls := urls[url := now];
    }

    /** `Finished`: `url` is no longer in transit; no other URL changes. */
    method Finished(url: string)
      modifies this
      ensures urls == old(urls) - {url}
      ensures url !in urls
      ensures forall u :: u != url ==> (u in urls <==> u in old(urls))
    {
      urls := urls - {url};
    }

    /** `IsInTransit`. */
    method IsInTransit(url: string) returns (result: bool)
      ensures result <==> url in urls
    {
      result := url in urls;
    }
  }

  /**
   * `DedupingDownloader`: a fetcher guarded by a pool. The ghost field
   * `fetched` records, in order, the URLs the wrapped fetcher was called
   * with, so that contracts can say when it is called and when not.
   */
  class DedupingDownloader {
    const wrapped: Fetcher
    const pool: DownloadPool
    ghost var fetched: seq<string>

    constructor (wrapped: Fetcher, pool: DownloadPool)
      ensures this.wrapped == wrapped && this.pool == pool && fetched == []
    {
      this.wrapped := wrapped;
      this.pool := pool;
      fetched := [];
    }

    /**
     * `downloader`: a URL already in transit is refused with
     * `DownloadError` and the wrapped fetcher is not called; otherwise the
     * URL is marked, fetched once, and unmarked, and the wrapped fetcher's
     * body and error are returned as they are.
     */
    method Downloader(url: string, now: int) returns (r: Response)
      modifies pool, this`fetched
      ensures old(url in pool.urls) ==>
        r == Rejected && fetched == old(fetched) && pool.urls == old(pool.urls)
      ensures old(url !in pool.urls) ==>
        r == wrapped(url) && fetched == old(fetched) + [url] && url !in pool.urls
        && pool.urls == old(pool.urls)
    {
      var inTransit := pool.IsInTransit(url);
      if inTransit {
        return Rejected;
      }
      pool.Download(url, now);
      r := FetchMarked(url);
    }

    /**
     * The second half of `downloader`, once the URL is marked in transit:
     * the wrapped fetcher is called once and the URL is unmarked.
     */
    method FetchMarked(url: string) returns (r: Response)
      modifies pool, this`fetched
      ensures r == wrapped(url) && fetched == old(fetched) + [url]
      ensures pool.urls == old(pool.urls) - {url}
    {
      r := wrapped(url);
      fetched := fetched + [url];
      pool.Finished(url);
    }
  }

  /**
   * `DedupeWrapDownloader`: a new guard around `downloader`, with its own
   * fresh, empty pool. The guarded fetch is the result's `Downloader`.
   */
  method DedupeWrapDownloader(downloader: Fetcher) returns (dd: DedupingDownloader)
    ensures fresh(dd) && fresh(dd.pool)
    ensures dd.wrapped == downloader && dd.pool.urls == map[] && dd.fetched == []
  {
    var pool := new DownloadPool();
    dd := new DedupingDownloader(downloader, pool);
  }
}
