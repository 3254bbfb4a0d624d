/** util/misc.go: listing the keys of a string set. */
module UtilMisc {
  import opened Common

  /**
   * `MapKeys`: the keys of `source`, each once, in the map's iteration
   * order. Go leaves that order unspecified; the model picks the next
   * key arbitrarily, so nothing below depends on the order.
   */
  method MapKeys(source: map<string, bool>) returns (values: seq<string>)
    ensures forall k :: k in source <==> k in values
    ensures Distinct(values)
    ensures |values| == |source|
    ensures |source| == 0 ==> values == []
  {
    values := [];
    var remaining := source.Keys;
    while remaining != {}
      invariant remaining <= source.Keys
      invariant forall k :: k in source <==> k in values || k in remaining
      invariant forall k :: k in values ==> k !in remaining
      invariant Distinct(values)
      invariant |values| + |remaining| == |source|
      decreases |remaining|
    {
      var key :| key in remaining;
      values := values + [key];
      remaining := remaining - {key};
    }
  }

  /**
   * The alias list the download pipelines (app/middleware.go and
   * storage/storage.go) give a new file: the keys, through `MapKeys`, of
   * a string set holding the URL, the URL's hash, the content hash and
   * every given alias, so each of them exactly once.
   */
  method AllAliases(url: string, urlHash: string, contentHash: string, urlAliases: seq<string>)
    returns (keys: seq<string>)
    ensures Elements(keys) == {url, urlHash, contentHash} + Elements(urlAliases)
    ensures Distinct(keys)
  {
    var allAliases: map<string, bool> := map[];
    allAliases := allAliases[url := true];
    allAliases := allAliases[urlHash := true];
    allAliases := allAliases[contentHash := true];
    var i := 0;
    while i < |urlAliases|
      invariant 0 <= i <= |urlAliases|
      invariant allAliases.Keys == {url, urlHash, contentHash} + Elements(urlAliases[..i])
    {
      ElementsSnoc(urlAliases, i);
      allAliases := allAliases[urlAliases[i] := true];
      i := i + 1;
    }
    assert urlAliases[..i] == urlAliases;
    keys := MapKeys(allAliases);
  }
}
