/**
 * app/middleware.go: the disk file cache behind the HTTP middleware. A
 * single goroutine owns two tables, files by content hash and content
 * hashes by alias; it serves queries (the first token that resolves to a
 * file) and warm requests (download unless some alias or the URL is
 * already cached). Start-up reads the `<hash>.metadata` files of the
 * cache directory exactly as app/cache.go does, so that parsing is the
 * one of module AppCache.
 *
 * The goroutine and its channels become a class whose methods are the
 * commands; the fetch is the `response` parameter.
 */
module AppMiddleware {
  import opened Common
  import opened Strings
  import opened UtilPool
  import opened UtilMisc
  import opened AppCache

  /** `token` names an alias whose hash has a file. */
  predicate Hit(aliases: map<string, string>, files: map<string, CachedFile>, token: string)
  {
    token in aliases && aliases[token] in files
  }

  /** The file of the first token that hits, if any. */
  function FirstCached(aliases: map<string, string>, files: map<string, CachedFile>,
                       tokens: seq<string>): Option<CachedFile>
  {
    if |tokens| == 0 then None
    else if Hit(aliases, files, tokens[0]) then Some(files[aliases[tokens[0]]])
    else FirstCached(aliases, files, tokens[1..])
  }

  /**
   * `FirstCached` finds a file exactly when some token hits, and then it
   * is the file of the earliest token that hits; a token whose alias
   * points at a hash without a file is passed over.
   */
  lemma {:induction false} FirstCachedIsFirst(aliases: map<string, string>, files: map<string, CachedFile>,
                                              tokens: seq<string>)
    ensures FirstCached(aliases, files, tokens).Some? <==> exists i :: 0 <= i < |tokens| && Hit(aliases, files, tokens[i])
    ensures FirstCached(aliases, files, tokens).Some? ==>
      exists i :: 0 <= i < |tokens| && Hit(aliases, files, tokens[i])
        && FirstCached(aliases, files, tokens).value == files[aliases[tokens[i]]]
        && forall j :: 0 <= j < i ==> !Hit(aliases, files, tokens[j])
  {
    if |tokens| > 0 && !Hit(aliases, files, tokens[0]) {
      var rest := tokens[1..];
      FirstCachedIsFirst(aliases, files, rest);
      if FirstCached(aliases, files, tokens).Some? {
        var i :| 0 <= i < |rest| && Hit(aliases, files, rest[i])
          && FirstCached(aliases, files, rest).value == files[aliases[rest[i]]]
          && forall j :: 0 <= j < i ==> !Hit(aliases, files, rest[j]);
        assert Hit(aliases, files, tokens[i + 1]);
        assert forall j :: 0 <= j < i + 1 ==> !Hit(aliases, files, tokens[j]) by {
          forall j | 0 <= j < i + 1
            ensures !Hit(aliases, files, tokens[j])
          {
            if j > 0 {
              assert tokens[j] == rest[j - 1];
            }
          }
        }
      }
      if exists i :: 0 <= i < |tokens| && Hit(aliases, files, tokens[i]) {
        var i :| 0 <= i < |tokens| && Hit(aliases, files, tokens[i]);
        assert Hit(aliases, files, rest[i - 1]);
      }
    }
  }

  /** When every token maps to `h` and `h` has a file, the first token already finds it. */
  lemma AllToOneHash(aliases: map<string, string>, files: map<string, CachedFile>,
                     tokens: seq<string>, h: string)
    requires |tokens| > 0 && h in files
    requires forall t :: t in tokens ==> t in aliases && aliases[t] == h
    ensures FirstCached(aliases, files, tokens) == Some(files[h])
  {
    assert tokens[0] in tokens;
  }

  class DiskFileCache {
    const cacheDirectory: string
    var cachedFiles: map<string, CachedFile>
    var cachedFileAliases: map<string, string>
    /** The metadata files of the cache directory, by name. */
    const metadataFiles: map<string, string>

    /** `NewDiskFileCache`: empty tables over the directory's metadata files. */
    constructor (cacheDirectory: string, metadataFiles: map<string, string>)
      ensures this.cacheDirectory == cacheDirectory && this.metadataFiles == metadataFiles
      ensures cachedFiles == map[] && cachedFileAliases == map[]
    {
      this.cacheDirectory := cacheDirectory;
      this.metadataFiles := metadataFiles;
      cachedFiles := map[];
      cachedFileAliases := map[];
    }

    /**
     * `initCachedFiles`: every metadata file met by the walk, in its
     * order, registers its file under the hash and its lines as aliases.
     */
    method InitCachedFiles(listing: seq<string>)
      modifies this
      ensures Tables(cachedFiles, cachedFileAliases)
        == Reload(Tables(old(cachedFiles), old(cachedFileAliases)), cacheDirectory, metadataFiles, listing)
    {
      var i := 0;
      while i < |listing|
        invariant 0 <= i <= |listing|
        invariant Tables(cachedFiles, cachedFileAliases)
          == Reload(Tables(old(cachedFiles), old(cachedFileAliases)), cacheDirectory, metadataFiles, listing[..i])
      {
        assert listing[..i + 1][..i] == listing[..i];
        var path := listing[i];
        if HasSuffix(path, MetadataSuffix) && path in metadataFiles {
          var content := metadataFiles[path];
          var contentHash := Split(path, '.')[0];
          var fileAliases := Split(content, '\n');
          cachedFiles := cachedFiles[contentHash := CachedFile(fileAliases[0], fileAliases, JoinPath(cacheDirectory, contentHash))];
          cachedFileAliases := RegisterEach(cachedFileAliases, fileAliases, contentHash);
        }
        i := i + 1;
      }
      assert listing[..i] == listing;
    }

    /**
     * `findCachedFile` (the query command): the file of the first token
     * that resolves to a cached file, or none.
     */
    method FindCachedFile(tokens: seq<string>) returns (r: Option<CachedFile>)
      ensures r == FirstCached(cachedFileAliases, cachedFiles, tokens)
      ensures r.Some? <==> exists i :: 0 <= i < |tokens| && Hit(cachedFileAliases, cachedFiles, tokens[i])
    {
      FirstCachedIsFirst(cachedFileAliases, cachedFiles, tokens);
      var i := 0;
      while i < |tokens|
        invariant 0 <= i <= |tokens|
        invariant FirstCached(cachedFileAliases, cachedFiles, tokens)
          == FirstCached(cachedFileAliases, cachedFiles, tokens[i..])
      {
        assert tokens[i..][1..] == tokens[i + 1..];
        var token := tokens[i];
        if token in cachedFileAliases {
          var contentHash := cachedFileAliases[token];
          if contentHash in cachedFiles {
            return Some(cachedFiles[contentHash]);
          }
        }
        i := i + 1;
      }
      return None;
    }

    /**
     * `download` (the warm commands). If one of the aliases or the URL,
     * in that order, already resolves, its file is returned and nothing
     * changes; if the fetch fails, none is returned and nothing changes.
     * Otherwise the new file has the URL, the payload's path under the
     * hash, and as aliases each of the URL, the URL's hash, the content
     * hash and the given aliases exactly once (in the map's iteration
     * order); the file is stored under the hash and every one of its
     * aliases maps to the hash. Either way, querying the aliases and the
     * URL afterwards gives back the returned file.
     */
    method Download(url: string, urlAliases: seq<string>, response: Response, hash: Hasher)
      returns (r: Option<CachedFile>)
      modifies this
      ensures var existing := FirstCached(old(cachedFileAliases), old(cachedFiles), urlAliases + [url]);
        existing.Some? ==> (r == existing && cachedFiles == old(cachedFiles)
          && cachedFileAliases == old(cachedFileAliases))
      ensures FirstCached(old(cachedFileAliases), old(cachedFiles), urlAliases + [url]).None? && response.err.Some? ==>
        r == None && cachedFiles == old(cachedFiles) && cachedFileAliases == old(cachedFileAliases)
      ensures FirstCached(old(cachedFileAliases), old(cachedFiles), urlAliases + [url]).None? && response.err.None? ==>
        var contentHash := hash(response.body);
        && r.Some? && r.value.url == url && r.value.path == JoinPath(cacheDirectory, contentHash)
        && Elements(r.value.aliases) == {url, UrlHash(hash, url), contentHash} + Elements(urlAliases)
        && Distinct(r.value.aliases)
        && cachedFiles == old(cachedFiles)[contentHash := r.value]
        && cachedFileAliases == Register(old(cachedFileAliases), r.value.aliases, contentHash)
      ensures r.Some? ==> FirstCached(cachedFileAliases, cachedFiles, urlAliases + [url]) == r
    {
      var existing := FindCachedFile(urlAliases + [url]);
      if existing.Some? {
        return existing;
      }
      if response.err.Some? {
        return None;
      }
      var body := response.body;
      var urlHash := UrlHash(hash, url);
      var contentHash := hash(body);
      var path := JoinPath(cacheDirectory, contentHash);

      var keys := AllAliases(url, urlHash, contentHash, urlAliases);
      var cachedFile := CachedFile(url, keys, path);
      cachedFiles := cachedFiles[contentHash := cachedFile];
      cachedFileAliases := RegisterEach(cachedFileAliases, keys, contentHash);
      r := Some(cachedFile);
      forall t | t in urlAliases + [url]
        ensures t in cachedFileAliases && cachedFileAliases[t] == contentHash
      {
        assert t in Elements(keys);
      }
      AllToOneHash(cachedFileAliases, cachedFiles, urlAliases + [url], contentHash);
    }
  }

  /**
   * Warming twice is fetching once: a second `download` of the same URL
   * and aliases after a successful one returns the same file and leaves
   * the tables as the first left them (unchanged when the URL was already
   * cached, else with the one new file), whatever its own fetch would give.
   */
  method WarmTwice(cache: DiskFileCache, url: string, urlAliases: seq<string>,
                   first: Response, second: Response, hash: Hasher)
    returns (a: Option<CachedFile>, b: Option<CachedFile>)
    modifies cache
    requires first.err.None?
    ensures a.Some? && b == a
    ensures var before := FirstCached(old(cache.cachedFileAliases), old(cache.cachedFiles), urlAliases + [url]);
      before.Some? ==> cache.cachedFiles == old(cache.cachedFiles) && cache.cachedFileAliases == old(cache.cachedFileAliases)
    ensures var before := FirstCached(old(cache.cachedFileAliases), old(cache.cachedFiles), urlAliases + [url]);
      var contentHash := hash(first.body);
      before.None? ==>
        && cache.cachedFiles == old(cache.cachedFiles)[contentHash := a.value]
        && cache.cachedFileAliases == Register(old(cache.cachedFileAliases), a.value.aliases, contentHash)
  {
    a := cache.Download(url, urlAliases, first, hash);
    b := cache.Download(url, urlAliases, second, hash);
  }
}
