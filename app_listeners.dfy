/**
 * app/listeners.go: the registry of callers waiting for a download. A
 * waiter is notified when the downloaded file's URL is its URL or when
 * the file and the waiter share an alias. Notifying sends on each
 * matching waiter's channel and removes nobody; the model returns the
 * matching waiters, in order, as the list of sends.
 */
module AppListeners {
  import opened Common
  import opened AppCache

  /** A waiter's response channel, by identity. */
  type Channel = nat

  /** `DownloadListener`: registration time, URL, aliases, channel. */
  datatype DownloadListener = DownloadListener(when: int, url: string, aliases: seq<string>, channel: Channel)

  /** Some element of `xs` is an element of `ys` (the nested loops of `shouldNotify`). */
  function AnyShared(xs: seq<string>, ys: seq<string>): (r: bool)
    ensures r <==> exists a :: a in xs && a in ys
  {
    if |xs| == 0 then false
    else xs[0] in ys || AnyShared(xs[1..], ys)
  }

  /**
   * `shouldNotify`: true exactly when the waiter's URL is the file's URL
   * or the file's aliases and the waiter's aliases have an element in
   * common. A waiter with another URL and no aliases never matches.
   */
  function ShouldNotify(file: CachedFile, listener: DownloadListener): (r: bool)
    ensures r <==> (listener.url == file.url || exists a :: a in file.aliases && a in listener.aliases)
    ensures listener.url != file.url && listener.aliases == [] ==> !r
  {
    if listener.url == file.url then true
    else AnyShared(file.aliases, listener.aliases)
  }

  /** The waiters of `listeners` that `file` matches, in registration order. */
  function Matching(file: CachedFile, listeners: seq<DownloadListener>): seq<DownloadListener>
  {
    if |listeners| == 0 then []
    else
      var prev := Matching(file, listeners[..|listeners| - 1]);
      var last := listeners[|listeners| - 1];
      if ShouldNotify(file, last) then prev + [last] else prev
  }

  /** `Matching` keeps exactly the matching waiters, and no more of them than there are. */
  lemma {:induction false} MatchingMembers(file: CachedFile, listeners: seq<DownloadListener>)
    ensures forall l :: l in Matching(file, listeners) <==> l in listeners && ShouldNotify(file, l)
    ensures |Matching(file, listeners)| <= |listeners|
  {
    if |listeners| > 0 {
      var prefix := listeners[..|listeners| - 1];
      MatchingMembers(file, prefix);
      assert listeners == prefix + [listeners[|listeners| - 1]];
    }
  }

  class DownloadListeners {
    var listeners: seq<DownloadListener>

    /** `NewDownloadListeners`: no waiters. */
    constructor ()
      ensures listeners == []
    {
      listeners := [];
    }

    /** `Add`: one waiter, registered `now`, is appended after the earlier ones. */
    method Add(url: string, aliases: seq<string>, channel: Channel, now: int)
      modifies this
      ensures listeners == old(listeners) + [DownloadListener(now, url, aliases, channel)]
    {
      listeners := listeners + [DownloadListener(now, url, aliases, channel)];
    }

    /**
     * `Notify`: the waiters sent the file are exactly the matching ones,
     * in registration order; the registry is only read, so nobody is
     * removed.
     */
    method Notify(file: CachedFile) returns (sent: seq<DownloadListener>)
      ensures sent == Matching(file, listeners)
      ensures forall l :: l in sent <==> l in listeners && ShouldNotify(file, l)
    {
      sent := [];
      var i := 0;
      while i < |listeners|
        invariant 0 <= i <= |listeners|
        invariant sent == Matching(file, listeners[..i])
      {
        assert listeners[..i + 1][..i] == listeners[..i];
        var listener := listeners[i];
        if ShouldNotify(file, listener) {
          sent := sent + [listener];
        }
        i := i + 1;
      }
      assert listeners[..i] == listeners;
      MatchingMembers(file, listeners);
    }
  }
}
