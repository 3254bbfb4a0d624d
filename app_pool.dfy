/**
 * app/pool.go: the earlier copy of the de-duplication pool. Its
 * `DownloadPool`, `DownloadError` and `DedupingDownloader.download` are
 * the same code as in util/pool.go and are modelled once, by
 * `UtilPool.DownloadPool` and `UtilPool.DedupingDownloader.Downloader`.
 * What differs is `DedupeWrapDownloader`, which hands back the fetcher it
 * was given instead of the guarded method.
 */
module AppPool {
  import opened Common
  import opened UtilPool

  /**
   * `DedupeWrapDownloader` as written: it builds a guard with its own
   * pool and then returns the guard's `downloader` field, the unwrapped
   * fetcher. The result behaves exactly like `downloader`: it never
   * refuses, whatever the pool holds, and the pool is unreachable.
   */
  method DedupeWrapDownloader(downloader: Fetcher) returns (g: Fetcher)
    ensures forall u :: g(u) == downloader(u)
  {
    var pool := new DownloadPool();
    var dd := new DedupingDownloader(downloader, pool);
    g := dd.wrapped;
  }

  /** A fetcher that succeeds for every URL with the same body. */
  function Always(body: Bytes): Fetcher
  {
    u => Response(body, None)
  }

  /**
   * The overlapping calls of the source's de-duplication test, against
   * the wrapper as written: a second call for a URL whose first fetch is
   * still in progress is NOT refused, so the URL is fetched twice.
   */
  method DuplicateFetchedAsWritten(url: string, body: Bytes)
    returns (first: Response, second: Response)
    ensures first.err == None && second.err == None
  {
    var g := DedupeWrapDownloader(Always(body));
    first := g(url);
    second := g(url);
  }

  /**
   * The same overlapping calls against the guard that util/pool.go's
   * `DedupeWrapDownloader` returns: while the first call has the URL
   * marked in transit, the second is refused with `DownloadError` and the
   * wrapped fetcher runs once only (`fetches` is the guard's record of
   * its calls); the first call's fetch succeeds.
   */
  method DuplicateRejectedWhenGuarded(url: string, body: Bytes)
    returns (first: Response, second: Response, ghost fetches: seq<string>)
    ensures first.err == None
    ensures second == Rejected && second.err.value.DownloadError?
    ensures fetches == [url]
  {
    var dd := UtilPool.DedupeWrapDownloader(Always(body));
    // The first call has checked the pool and marked the URL ...
    var inTransit := dd.pool.IsInTransit(url);
    assert !inTransit;
    dd.pool.Download(url, 0);
    // ... when the second call arrives.
    second := dd.Downloader(url, 0);
    // The first call then fetches and finishes.
    first := dd.FetchMarked(url);
    fetches := dd.fetched;
  }

  /**
   * The pool's life cycle for one URL: not in transit, in transit after
   * `Download`, not in transit after `Finished`.
   */
  method InTransitLifecycle(url: string, now: int)
    returns (before: bool, during: bool, after: bool)
    ensures !before && during && !after
  {
    var dp := new DownloadPool();
    before := dp.IsInTransit(url);
    dp.Download(url, now);
    during := dp.IsInTransit(url);
    dp.Finished(url);
    after := dp.IsInTransit(url);
  }

  /**
   * In transit is a set, not a count: two `Download`s of one URL are
   * undone by one `Finished`, and finishing one URL leaves another in
   * transit.
   */
  method ManyInTransit(u1: string, u2: string, now: int)
    returns (oneAfter: bool, twoAfter: bool)
    requires u1 != u2
    ensures !oneAfter && twoAfter
  {
    var dp := new DownloadPool();
    dp.Download(u1, now);
    dp.Download(u1, now);
    dp.Download(u2, now);
    dp.Finished(u1);
    oneAfter := dp.IsInTransit(u1);
    twoAfter := dp.IsInTransit(u2);
  }
}
