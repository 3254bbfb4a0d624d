/**
 * app/cache.go: the earliest in-memory cache. Package-level maps from
 * content hash to cached file and from alias to content hash, filled by
 * downloads and rebuilt at start-up from the `<hash>.metadata` files the
 * downloads leave in the cache directory.
 *
 * The package-level variables become the fields of a `FileCache`
 * object; the cache directory is two maps from file name to content, one
 * for payloads and one for metadata files. Writes to it are assumed to
 * succeed, as the source ignores their errors.
 */
module AppCache {
  import opened Common
  import opened Strings
  import opened UtilPool

  /** `CachedFile`: the source URL, the aliases, the payload's path. */
  datatype CachedFile = CachedFile(url: string, aliases: seq<string>, path: string)

  /** `Event`: a name and string attributes. */
  datatype Event = Event(name: string, attributes: map<string, string>)

  /** The suffix of the metadata files. */
  const MetadataSuffix := ".metadata"

  /** One `key=value` pair of `Event.String`. */
  function Pair(key: string, value: string): string
  {
    key + "=" + value
  }

  /** Pairs listed key by key, over every key, hold every attribute's pair. */
  lemma PairsCover(attributes: map<string, string>, keys: seq<string>, pairs: seq<string>)
    requires Elements(keys) == attributes.Keys && |pairs| == |keys|
    requires forall i :: 0 <= i < |keys| ==> pairs[i] == Pair(keys[i], attributes[keys[i]])
    ensures forall k :: k in attributes ==> Pair(k, attributes[k]) in pairs
  {
    forall k | k in attributes
      ensures Pair(k, attributes[k]) in pairs
    {
      assert k in Elements(keys);
      var i :| 0 <= i < |keys| && keys[i] == k;
      assert pairs[i] == Pair(k, attributes[k]);
    }
  }

  /**
   * Part way through `Event.String`'s loop: `keys` lists the attribute
   * keys visited so far, each once, `remaining` the others, and `pairs`
   * holds the visited keys' pairs in the same order.
   */
  predicate Listed(attributes: map<string, string>, keys: seq<string>, pairs: seq<string>, remaining: set<string>)
  {
    && remaining <= attributes.Keys
    && Distinct(keys) && Elements(keys) + remaining == attributes.Keys && Elements(keys) !! remaining
    && |pairs| == |keys| && |keys| + |remaining| == |attributes|
    && forall i :: 0 <= i < |keys| ==> keys[i] in attributes && pairs[i] == Pair(keys[i], attributes[keys[i]])
  }

  /** Visiting one more key keeps `Listed`. */
  lemma ListedStep(attributes: map<string, string>, keys: seq<string>, pairs: seq<string>,
                   remaining: set<string>, key: string)
    requires Listed(attributes, keys, pairs, remaining) && key in remaining
    ensures Listed(attributes, keys + [key], pairs + [Pair(key, attributes[key])], remaining - {key})
  {
    assert key !in Elements(keys);
    assert Elements(keys + [key]) == Elements(keys) + {key};
  }

  /**
   * `Event.String`: the name, one space, then the `key=value` pairs of
   * every attribute separated by single spaces, in the map's iteration
   * order (unspecified in Go; chosen arbitrarily here). The ghost `keys`
   * is that order: each attribute key exactly once, and the i-th pair is
   * the i-th key's. With no attributes, the name followed by one space.
   */
  method EventString(e: Event) returns (s: string, ghost keys: seq<string>, ghost pairs: seq<string>)
    ensures s == e.name + " " + Join(pairs, " ")
    ensures Distinct(keys) && Elements(keys) == e.attributes.Keys
    ensures |pairs| == |keys| == |e.attributes|
    ensures forall i :: 0 <= i < |keys| ==> pairs[i] == Pair(keys[i], e.attributes[keys[i]])
    ensures forall k :: k in e.attributes ==> Pair(k, e.attributes[k]) in pairs
    ensures |e.attributes| == 0 ==> s == e.name + " "
  {
    var ps: seq<string> := [];
    ghost var ks: seq<string> := [];
    var remaining := e.attributes.Keys;
    while remaining != {}
      invariant Listed(e.attributes, ks, ps, remaining)
      decreases |remaining|
    {
      var key :| key in remaining;
      ListedStep(e.attributes, ks, ps, remaining, key);
      ps := ps + [Pair(key, e.attributes[key])];
      ks := ks + [key];
      remaining := remaining - {key};
    }
    assert Elements(ks) == e.attributes.Keys;
    PairsCover(e.attributes, ks, ps);
    keys := ks;
    pairs := ps;
    s := e.name + " " + Join(ps, " ");
  }

  /**
   * The metadata `download` writes, built piece by piece as the source
   * fills its buffer: the URL, a newline and the URL's hash, then a
   * newline and the aliases joined by newlines when there are any. It is
   * the newline-join of `[url, urlHash] + urlAliases`, and splitting it on
   * newlines gives those lines back when none of them contains one.
   */
  method EncodeMetadata(url: string, urlHash: string, urlAliases: seq<string>) returns (content: string)
    ensures content == Join([url, urlHash] + urlAliases, "\n")
    ensures FreeOf([url, urlHash] + urlAliases, '\n') ==>
      Split(content, '\n') == [url, urlHash] + urlAliases
  {
    var buffer := url;
    buffer := buffer + ("\n" + urlHash);
    assert buffer == Join([url, urlHash], "\n");
    if |urlAliases| > 0 {
      buffer := buffer + "\n";
      buffer := buffer + Join(urlAliases, "\n");
      JoinAppend([url, urlHash], urlAliases, "\n");
    } else {
      assert [url, urlHash] + urlAliases == [url, urlHash];
    }
    content := buffer;
    if FreeOf([url, urlHash] + urlAliases, '\n') {
      SplitJoin([url, urlHash] + urlAliases, '\n');
    }
  }

  /**
   * What start-up reads from one metadata file: the content hash is the
   * file name up to its first dot, the aliases are the lines of the
   * content, the URL is the first line, and the payload sits beside the
   * metadata under the hash.
   */
  function ParseMetadata(dir: string, fileName: string, content: string): (string, CachedFile)
  {
    var contentHash := Split(fileName, '.')[0];
    var fileAliases := Split(content, '\n');
    (contentHash, CachedFile(fileAliases[0], fileAliases, JoinPath(dir, contentHash)))
  }

  /** The two in-memory tables: files by content hash, and hashes by alias. */
  datatype Tables = Tables(files: map<string, CachedFile>, aliases: map<string, string>)

  /** The tables after loading one metadata file. */
  function LoadOne(t: Tables, dir: string, fileName: string, content: string): Tables
  {
    var (contentHash, file) := ParseMetadata(dir, fileName, content);
    Tables(t.files[contentHash := file], Register(t.aliases, file.aliases, contentHash))
  }

  /**
   * What the start-up walk builds on top of `t` from the directory's
   * metadata files, visiting the names of `listing` in order; names
   * without the suffix, or that cannot be read, are skipped.
   */
  function Reload(t: Tables, dir: string, metadataFiles: map<string, string>, listing: seq<string>): Tables
  {
    if |listing| == 0 then t
    else
      var prev := Reload(t, dir, metadataFiles, listing[..|listing| - 1]);
      var name := listing[|listing| - 1];
      if HasSuffix(name, MetadataSuffix) && name in metadataFiles
      then LoadOne(prev, dir, name, metadataFiles[name])
      else prev
  }

  /**
   * Round trip of the metadata format: the file `download` writes for a
   * hash without dots, reloaded, gives a file whose URL is the original
   * URL, whose aliases are the URL, its hash and the aliases, each of
   * which maps to the hash, provided no line contains a newline.
   */
  lemma MetadataRoundTrip(t: Tables, dir: string, contentHash: string,
                          url: string, urlHash: string, urlAliases: seq<string>)
    requires '.' !in contentHash
    requires FreeOf([url, urlHash] + urlAliases, '\n')
    ensures
      var loaded := LoadOne(t, dir, contentHash + MetadataSuffix, Join([url, urlHash] + urlAliases, "\n"));
      && contentHash in loaded.files
      && loaded.files[contentHash] == CachedFile(url, [url, urlHash] + urlAliases, JoinPath(dir, contentHash))
      && forall a :: a in [url, urlHash] + urlAliases ==> a in loaded.aliases && loaded.aliases[a] == contentHash
  {
    SplitJoin([url, urlHash] + urlAliases, '\n');
    assert contentHash + MetadataSuffix == contentHash + ['.'] + "metadata";
    FirstPiece(contentHash, '.', "metadata");
  }

  class FileCache {
    const cacheDirectory: string
    var cachedFiles: map<string, CachedFile>
    var aliases: map<string, string>
    var assetFiles: map<string, Bytes>
    var metadataFiles: map<string, string>

    /** The package state at start: empty tables over an existing directory. */
    constructor (cacheDirectory: string, assetFiles: map<string, Bytes>, metadataFiles: map<string, string>)
      ensures this.cacheDirectory == cacheDirectory && cachedFiles == map[] && aliases == map[]
      ensures this.assetFiles == assetFiles && this.metadataFiles == metadataFiles
    {
      this.cacheDirectory := cacheDirectory;
      cachedFiles := map[];
      aliases := map[];
      this.assetFiles := assetFiles;
      this.metadataFiles := metadataFiles;
    }

    /**
     * `findCachedFile`: a file exactly when the search term is an alias
     * whose hash has a file, and then that file.
     */
    function FindCachedFile(search: string): (r: Option<CachedFile>)
      reads this
      ensures r.Some? <==> search in aliases && aliases[search] in cachedFiles
      ensures r.Some? ==> r.value == cachedFiles[aliases[search]]
    {
      if search in aliases && aliases[search] in cachedFiles
      then Some(cachedFiles[aliases[search]])
      else None
    }

    /** The whole effect of `download` on the package state. */
    twostate predicate Downloaded(url: string, urlAliases: seq<string>, response: Response, hash: Hasher)
      reads this
    {
      if response.err.Some? then
        && cachedFiles == old(cachedFiles) && aliases == old(aliases)
        && assetFiles == old(assetFiles) && metadataFiles == old(metadataFiles)
      else
        var contentHash := hash(response.body);
        var urlHash := UrlHash(hash, url);
        && cachedFiles == old(cachedFiles)[contentHash := CachedFile(url, urlAliases, JoinPath(cacheDirectory, contentHash))]
        && aliases == Register(old(aliases), [url, urlHash] + urlAliases, contentHash)
        && assetFiles == old(assetFiles)[contentHash := response.body]
        && metadataFiles == old(metadataFiles)[contentHash + MetadataSuffix := Join([url, urlHash] + urlAliases, "\n")]
    }

    /**
     * `download`: on a fetch or read error nothing changes. Otherwise the
     * payload is written under its hash, the file record keeps only the
     * given aliases, while the URL, the URL's hash and every alias map to
     * the content hash, and the metadata file is written.
     */
    method Download(url: string, urlAliases: seq<string>, response: Response, hash: Hasher)
      modifies this
      ensures Downloaded(url, urlAliases, response, hash)
      ensures response.err.None? ==> forall a :: a in [url, UrlHash(hash, url)] + urlAliases ==>
        a in aliases && aliases[a] == hash(response.body)
    {
      if response.err.Some? {
        return;
      }
      var body := response.body;
      var urlHash := UrlHash(hash, url);
      var contentHash := hash(body);
      var path := JoinPath(cacheDirectory, contentHash);

      assetFiles := assetFiles[contentHash := body];
      cachedFiles := cachedFiles[contentHash := CachedFile(url, urlAliases, path)];

      aliases := aliases[url := contentHash];
      aliases := aliases[urlHash := contentHash];
      RegisterPair(old(aliases), url, urlHash, contentHash);
      aliases := RegisterEach(aliases, urlAliases, contentHash);
      RegisterAppend(old(aliases), [url, urlHash], urlAliases, contentHash);

      var content := EncodeMetadata(url, urlHash, urlAliases);
      metadataFiles := metadataFiles[contentHash + MetadataSuffix := content];
    }

    /** The walk's step for one metadata file: the file and each of its aliases are registered. */
    method LoadMetadataFile(fileName: string, content: string)
      modifies this`cachedFiles, this`aliases
      ensures Tables(cachedFiles, aliases)
        == LoadOne(Tables(old(cachedFiles), old(aliases)), cacheDirectory, fileName, content)
    {
      var fileNameParts := Split(fileName, '.');
      var contentHash := fileNameParts[0];
      var fileAliases := Split(content, '\n');
      cachedFiles := cachedFiles[contentHash := CachedFile(fileAliases[0], fileAliases, JoinPath(cacheDirectory, contentHash))];
      aliases := RegisterEach(aliases, fileAliases, contentHash);
    }

    /**
     * `initCachedFiles`: every metadata file of the directory, in the
     * walk's order, is loaded; a later file overrides an earlier one.
     */
    method InitCachedFiles(listing: seq<string>)
      modifies this`cachedFiles, this`aliases
      ensures Tables(cachedFiles, aliases)
        == Reload(Tables(old(cachedFiles), old(aliases)), cacheDirectory, metadataFiles, listing)
    {
      var i := 0;
      while i < |listing|
        invariant 0 <= i <= |listing|
        invariant Tables(cachedFiles, aliases)
          == Reload(Tables(old(cachedFiles), old(aliases)), cacheDirectory, metadataFiles, listing[..i])
      {
        assert listing[..i + 1][..i] == listing[..i];
        var name := listing[i];
        if HasSuffix(name, MetadataSuffix) && name in metadataFiles {
          LoadMetadataFile(name, metadataFiles[name]);
        }
        i := i + 1;
      }
      assert listing[..i] == listing;
    }

    /**
     * The `download` case of the event loop: the event is acted on only
     * if it carries both a `url` and an `aliases` attribute and the URL
     * is not already cached; the aliases are the comma-separated pieces.
     */
    method HandleDownloadEvent(e: Event, response: Response, hash: Hasher) returns (acted: bool)
      modifies this
      ensures acted <==> (e.name == "download" && "url" in e.attributes && "aliases" in e.attributes
        && old(FindCachedFile(e.attributes["url"])).None?)
      ensures acted ==> Downloaded(e.attributes["url"], Split(e.attributes["aliases"], ','), response, hash)
      ensures !acted ==> (cachedFiles == old(cachedFiles) && aliases == old(aliases)
        && assetFiles == old(assetFiles) && metadataFiles == old(metadataFiles))
    {
      acted := false;
      if e.name == "download" {
        if "url" in e.attributes && "aliases" in e.attributes {
          var url := e.attributes["url"];
          var urlAliases := e.attributes["aliases"];
          if FindCachedFile(url).None? {
            Download(url, Split(urlAliases, ','), response, hash);
            acted := true;
          }
        }
      }
    }
  }

  /**
   * Downloads survive a restart: after a successful `download`, a cache
   * started over the same directory whose walk visits the new metadata
   * file last finds the file by its URL, and that file's URL is the
   * original one, provided the hash has no dot and no line a newline.
   */
  method DownloadSurvivesRestart(cacheDirectory: string, url: string, urlAliases: seq<string>,
                                 response: Response, hash: Hasher, listing: seq<string>)
    returns (found: Option<CachedFile>)
    requires response.err.None? && '.' !in hash(response.body)
    requires FreeOf([url, UrlHash(hash, url)] + urlAliases, '\n')
    ensures found.Some? && found.value.url == url
    ensures found.value.aliases == [url, UrlHash(hash, url)] + urlAliases
  {
    var cache := new FileCache(cacheDirectory, map[], map[]);
    cache.Download(url, urlAliases, response, hash);
    var contentHash := hash(response.body);
    var restarted := new FileCache(cacheDirectory, cache.assetFiles, cache.metadataFiles);
    restarted.InitCachedFiles(listing + [contentHash + MetadataSuffix]);
    assert (listing + [contentHash + MetadataSuffix])[..|listing|] == listing;
    assert HasSuffix(contentHash + MetadataSuffix, MetadataSuffix);
    MetadataRoundTrip(Reload(Tables(map[], map[]), cacheDirectory, cache.metadataFiles, listing),
                      cacheDirectory, contentHash, url, UrlHash(hash, url), urlAliases);
    found := restarted.FindCachedFile(url);
  }
}
