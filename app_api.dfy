/**
 * app/api.go: the first HTTP front end. A package-level table maps
 * aliases (the URL, the URL's hash, extra aliases) to content hashes; a
 * POST fetches a URL and stores its payload under the content hash with
 * a `<hash>.aliases` record beside it; HEAD and GET answer with the
 * content hash an alias resolves to.
 *
 * The package variables become the fields of an `ApiCache` object and
 * the cache directory two maps from file name to content; the fetch is
 * the `response` parameter and the request its already-parsed values.
 */
module AppApi {
  import opened Common
  import opened Strings
  import opened UtilPool
  import opened AppCache

  /** The suffix of the alias records. */
  const AliasesSuffix := ".aliases"

  /** A request, by what the handler reads of it: the HTTP method, the URL query and the parsed form. */
  datatype Request = Request(verb: string, query: map<string, seq<string>>, form: map<string, seq<string>>)

  /** `url.Values.Get`: the first value of the key, or the empty string. */
  function ValuesGet(values: map<string, seq<string>>, key: string): string
  {
    if key in values && |values[key]| > 0 then values[key][0] else ""
  }

  /** Where `getValues` reads: the query for GET and HEAD, the form otherwise. */
  function ValueSource(req: Request): map<string, seq<string>>
  {
    if req.verb == "GET" || req.verb == "HEAD" then req.query else req.form
  }

  /**
   * `getValues`: a map holding exactly the requested keys, each bound to
   * its first value in the query (GET, HEAD) or the form (any other
   * method), or to the empty string when it has none.
   */
  method GetValues(req: Request, keys: seq<string>) returns (values: map<string, string>)
    ensures values.Keys == Elements(keys)
    ensures forall k :: k in values ==> values[k] == ValuesGet(ValueSource(req), k)
    ensures req.verb == "GET" || req.verb == "HEAD" ==>
      forall k :: k in values && k in req.query && |req.query[k]| > 0 ==> values[k] == req.query[k][0]
    ensures forall k :: k in values && (k !in ValueSource(req) || ValueSource(req)[k] == []) ==> values[k] == ""
  {
    values := map[];
    var source := if req.verb == "GET" || req.verb == "HEAD" then req.query else req.form;
    var i := 0;
    while i < |keys|
      invariant 0 <= i <= |keys|
      invariant values.Keys == Elements(keys[..i])
      invariant forall k :: k in values ==> values[k] == ValuesGet(ValueSource(req), k)
    {
      ElementsSnoc(keys, i);
      values := values[keys[i] := ValuesGet(source, keys[i])];
      i := i + 1;
    }
    assert keys[..i] == keys;
  }

  class ApiCache {
    const cacheDirectory: string
    var aliases: map<string, string>
    var assetFiles: map<string, Bytes>
    var aliasFiles: map<string, string>

    /** The package state at start: an empty table over the cache directory. */
    constructor (cacheDirectory: string, assetFiles: map<string, Bytes>, aliasFiles: map<string, string>)
      ensures this.cacheDirectory == cacheDirectory && aliases == map[]
      ensures this.assetFiles == assetFiles && this.aliasFiles == aliasFiles
    {
      this.cacheDirectory := cacheDirectory;
      aliases := map[];
      this.assetFiles := assetFiles;
      this.aliasFiles := aliasFiles;
    }

    /** `hashForAlias`: the hash the alias resolves to, or the empty string for an unknown alias. */
    function HashForAlias(alias: string): (r: string)
      reads this
      ensures alias in aliases ==> r == aliases[alias]
      ensures alias !in aliases ==> r == ""
    {
      if alias in aliases then aliases[alias] else ""
    }

    /**
     * The whole effect of `download` on the cache: nothing on an error;
     * otherwise the payload under its content hash, the `.aliases` record
     * beside it, and the URL, the URL's hash and every alias registered to
     * the content hash, no other alias changing.
     */
    twostate predicate Downloaded(url: string, urlAliases: seq<string>, response: Response, hash: Hasher)
      reads this
    {
      if response.err.Some? then
        aliases == old(aliases) && assetFiles == old(assetFiles) && aliasFiles == old(aliasFiles)
      else
        var contentHash := hash(response.body);
        && aliases == Register(old(aliases), [url, UrlHash(hash, url)] + urlAliases, contentHash)
        && assetFiles == old(assetFiles)[contentHash := response.body]
        && aliasFiles == old(aliasFiles)[contentHash + AliasesSuffix := Join([url, contentHash] + urlAliases, "\n")]
    }

    /**
     * `download`: on a fetch or read error nothing changes. Otherwise the
     * payload is written under its content hash, the URL, the URL's hash
     * and every alias resolve to the content hash, and the alias record
     * holds the URL, the content hash (not the URL's hash) and the
     * aliases, one per line, which split back into those lines when none
     * contains a newline.
     */
    method Download(url: string, urlAliases: seq<string>, response: Response, hash: Hasher)
      modifies this
      ensures Downloaded(url, urlAliases, response, hash)
      ensures response.err.None? ==>
        var record := [url, hash(response.body)] + urlAliases;
        FreeOf(record, '\n') ==> Split(aliasFiles[hash(response.body) + AliasesSuffix], '\n') == record
      ensures response.err.None? ==> forall a :: a in [url, UrlHash(hash, url)] + urlAliases ==>
        HashForAlias(a) == hash(response.body)
    {
      if response.err.Some? {
        return;
      }
      var body := response.body;
      var urlHash := UrlHash(hash, url);
      var contentHash := hash(body);

      assetFiles := assetFiles[contentHash := body];
      aliases := aliases[url := contentHash];
      aliases := aliases[urlHash := contentHash];
      RegisterPair(old(aliases), url, urlHash, contentHash);
      aliases := RegisterEach(aliases, urlAliases, contentHash);
      RegisterAppend(old(aliases), [url, urlHash], urlAliases, contentHash);

      // The buffer is built as app/cache.go builds its metadata, with the
      // content hash where that file has the URL's hash.
      var content := EncodeMetadata(url, contentHash, urlAliases);
      aliasFiles := aliasFiles[contentHash + AliasesSuffix := content];
    }

    /**
     * `HandleIndex`: the `url` value of the request is looked up for HEAD
     * and GET, answering 404 "not found" for an unknown alias and 200 with
     * the content hash otherwise; POST downloads the URL with no extra
     * aliases, with the whole effect of `download` (nothing changes when
     * the fetch fails, and the answer is still 200 "OK"); every method
     * other than HEAD and GET answers 200 "OK".
     */
    method HandleIndex(req: Request, response: Response, hash: Hasher) returns (status: int, body: string)
      modifies this
      ensures var url := ValuesGet(ValueSource(req), "url");
        req.verb == "HEAD" || req.verb == "GET" ==>
          && aliases == old(aliases) && assetFiles == old(assetFiles) && aliasFiles == old(aliasFiles)
          && (old(HashForAlias(url)) == "" ==> status == 404 && body == "not found")
          && (old(HashForAlias(url)) != "" ==> status == 200 && body == old(HashForAlias(url)))
      ensures req.verb != "HEAD" && req.verb != "GET" ==> status == 200 && body == "OK"
      ensures req.verb == "POST" ==> Downloaded(ValuesGet(req.form, "url"), [], response, hash)
      ensures req.verb == "POST" && response.err.None? ==>
        HashForAlias(ValuesGet(req.form, "url")) == hash(response.body)
      ensures req.verb != "HEAD" && req.verb != "GET" && req.verb != "POST" ==>
        aliases == old(aliases) && assetFiles == old(assetFiles) && aliasFiles == old(aliasFiles)
    {
      var values := GetValues(req, ["url"]);
      assert "url" in Elements(["url"]);
      var url := values["url"];
      if req.verb == "HEAD" {
        var h := HashForAlias(url);
        if h == "" {
          return 404, "not found";
        }
        return 200, h;
      } else if req.verb == "GET" {
        var h := HashForAlias(url);
        if h == "" {
          return 404, "not found";
        }
        return 200, h;
      } else if req.verb == "POST" {
        Download(url, [], response, hash);
      }
      return 200, "OK";
    }
  }

  /**
   * A URL posted with a successful fetch is then found by HEAD: the
   * answer is 200 with the payload's content hash, provided that hash is
   * not empty (SHA-1 hex never is).
   */
  method PostThenHead(api: ApiCache, url: string, response: Response, hash: Hasher)
    returns (status: int, body: string)
    modifies api
    requires response.err.None? && hash(response.body) != ""
    ensures status == 200 && body == hash(response.body)
  {
    var post := Request("POST", map[], map["url" := [url]]);
    var _, _ := api.HandleIndex(post, response, hash);
    var head := Request("HEAD", map["url" := [url]], map[]);
    status, body := api.HandleIndex(head, response, hash);
  }
}
