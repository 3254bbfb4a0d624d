/**
 * app/index.go: the alias index. An in-memory map from lookup term (an
 * alias or a URL) to content hash, backed by one persisted record per
 * content hash.
 *
 * The index directory is the field `records`, from file name to the
 * record `load` would decode there; a name missing from it is a file
 * that cannot be read or decoded. Writing a record and removing one are
 * I/O whose outcome the caller passes in: `None` for success, or the
 * error the operating system reported.
 */
module AppIndex {
  import opened Common
  import opened AppStorage

  /** The text of `Find`'s error. */
  const NoContentHashMessage := "No content hash found for term"

  /** What `Find` returns: a content hash, or the "not found" error with its text. */
  datatype FindResult = Found(hash: string) | NotFound(message: string)

  /** The errors `Update`, `Merge` and `Clear` can return. */
  datatype IndexError =
    | WriteFailed(message: string)      // `write`: marshalling or writing the record
    | MissingRecord(contentHash: string) // `load`: no readable record under that name
    | RemoveFailed(message: string)     // `os.RemoveAll` of the record

  /** What `init` builds from the records named in `listing`, visited in order, on top of `m`. */
  function RebuildFrom(m: map<string, string>, records: map<string, SimpleCachedFile>,
                       listing: seq<string>): map<string, string>
  {
    if |listing| == 0 then m
    else
      var prev := RebuildFrom(m, records, listing[..|listing| - 1]);
      var name := listing[|listing| - 1];
      if name in records then Register(prev, records[name].Terms(), records[name].contentHash)
      else prev
  }

  /** The first term of `terms` that the map resolves, and its hash. */
  function FirstMatch(m: map<string, string>, terms: seq<string>): FindResult
  {
    if |terms| == 0 then NotFound(NoContentHashMessage)
    else if terms[0] in m then Found(m[terms[0]])
    else FirstMatch(m, terms[1..])
  }

  /** The record `Merge` writes: old lists followed by the new ones, duplicates kept. */
  function Merged(cachedFile: SimpleCachedFile, aliases: seq<string>, urls: seq<string>): SimpleCachedFile
  {
    SimpleCachedFile(cachedFile.contentHash, cachedFile.urls + urls, cachedFile.aliases + aliases,
                     cachedFile.size, cachedFile.attributes)
  }

  /**
   * `FirstMatch` is the first resolvable term: it finds a hash exactly
   * when some term resolves, and then it is the hash of the earliest one.
   */
  lemma {:induction false} FirstMatchIsFirst(m: map<string, string>, terms: seq<string>)
    ensures FirstMatch(m, terms).Found? <==> exists i :: 0 <= i < |terms| && terms[i] in m
    ensures FirstMatch(m, terms).Found? ==>
      exists i :: 0 <= i < |terms| && terms[i] in m && FirstMatch(m, terms).hash == m[terms[i]]
        && forall j :: 0 <= j < i ==> terms[j] !in m
  {
    if |terms| > 0 && terms[0] !in m {
      FirstMatchIsFirst(m, terms[1..]);
      if FirstMatch(m, terms).Found? {
        var i :| 0 <= i < |terms[1..]| && terms[1..][i] in m
          && FirstMatch(m, terms[1..]).hash == m[terms[1..][i]]
          && forall j :: 0 <= j < i ==> terms[1..][j] !in m;
        assert terms[i + 1] in m && forall j :: 0 <= j < i + 1 ==> terms[j] !in m;
      }
      if exists i :: 0 <= i < |terms| && terms[i] in m {
        var i :| 0 <= i < |terms| && terms[i] in m;
        assert terms[1..][i - 1] in m;
      }
    }
  }

  /**
   * Once `t` maps to `h`, rebuilding from records that never give `t`
   * another hash keeps it mapped to `h`.
   */
  lemma {:induction false} RebuildKeeps(m: map<string, string>, records: map<string, SimpleCachedFile>,
                                        listing: seq<string>, t: string, h: string)
    requires t in m && m[t] == h
    requires forall k :: k in records && t in records[k].Terms() ==> records[k].contentHash == h
    ensures t in RebuildFrom(m, records, listing) && RebuildFrom(m, records, listing)[t] == h
  {
    if |listing| > 0 {
      RebuildKeeps(m, records, listing[..|listing| - 1], t, h);
    }
  }

  /**
   * Rebuilding resolves a term of any listed record to that record's
   * hash, provided every record that lists the term agrees on the hash
   * (in particular when no other record lists it).
   */
  lemma {:induction false} RebuildFinds(m: map<string, string>, records: map<string, SimpleCachedFile>,
                                        listing: seq<string>, name: string, t: string)
    requires name in listing && name in records && t in records[name].Terms()
    requires forall k :: k in records && t in records[k].Terms() ==>
      records[k].contentHash == records[name].contentHash
    ensures t in RebuildFrom(m, records, listing)
    ensures RebuildFrom(m, records, listing)[t] == records[name].contentHash
  {
    var last := listing[|listing| - 1];
    var prefix := listing[..|listing| - 1];
    var h := records[name].contentHash;
    if last == name {
      var prev := RebuildFrom(m, records, prefix);
      assert t in Register(prev, records[name].Terms(), h);
    } else {
      assert listing == prefix + [last];
      assert name in prefix;
      RebuildFinds(m, records, prefix, name, t);
      var prev := RebuildFrom(m, records, prefix);
      if last in records {
        assert t in Register(prev, records[last].Terms(), records[last].contentHash);
      }
    }
  }

  class LocalIndex {
    var records: map<string, SimpleCachedFile>
    var aliases: map<string, string>

    /**
     * `newLocalIndex`: an index over the directory `records`, whose map
     * `init` rebuilds by visiting the file names in `listing` (the walk's
     * order); names that do not load are skipped.
     */
    constructor (records: map<string, SimpleCachedFile>, listing: seq<string>)
      ensures this.records == records
      ensures aliases == RebuildFrom(map[], records, listing)
    {
      this.records := records;
      aliases := map[];
      new;
      Init(listing);
    }

    /**
     * `init`: every term of every loadable record in the listing is
     * mapped to that record's hash; a later record overrides an earlier.
     */
    method Init(listing: seq<string>)
      modifies this`aliases
      ensures aliases == RebuildFrom(old(aliases), records, listing)
    {
      var i := 0;
      while i < |listing|
        invariant 0 <= i <= |listing|
        invariant aliases == RebuildFrom(old(aliases), records, listing[..i])
      {
        var name := listing[i];
        assert listing[..i + 1][..i] == listing[..i];
        if name in records {
          var data := records[name];
          var start := aliases;
          aliases := RegisterEach(aliases, data.aliases, data.contentHash);
          aliases := RegisterEach(aliases, data.urls, data.contentHash);
          RegisterAppend(start, data.aliases, data.urls, data.contentHash);
        }
        i := i + 1;
      }
      assert listing[..i] == listing;
    }

    /** `write`: the record is stored under its hash unless the write fails. */
    method Write(cachedFile: SimpleCachedFile, outcome: Option<string>) returns (err: Option<IndexError>)
      modifies this`records
      ensures outcome.Some? ==> err == Some(WriteFailed(outcome.value)) && records == old(records)
      ensures outcome.None? ==> err == None && records == old(records)[cachedFile.contentHash := cachedFile]
    {
      if outcome.Some? {
        return Some(WriteFailed(outcome.value));
      }
      records := records[cachedFile.contentHash := cachedFile];
      err := None;
    }

    /**
     * `Update`: if the record cannot be written, the error is returned
     * and nothing changes; otherwise the record is stored and every alias
     * and URL of the file maps to its hash, no other term changing.
     */
    method Update(cachedFile: SimpleCachedFile, outcome: Option<string>) returns (err: Option<IndexError>)
      modifies this
      ensures outcome.Some? ==>
        err == Some(WriteFailed(outcome.value)) && records == old(records) && aliases == old(aliases)
      ensures outcome.None? ==>
        err == None && records == old(records)[cachedFile.contentHash := cachedFile]
        && aliases == Register(old(aliases), cachedFile.Terms(), cachedFile.contentHash)
      ensures outcome.None? ==> forall t :: t in cachedFile.Terms() ==>
        t in aliases && aliases[t] == cachedFile.contentHash
      ensures forall t :: t !in cachedFile.Terms() ==>
        (t in aliases <==> t in old(aliases)) && (t in aliases ==> aliases[t] == old(aliases)[t])
    {
      err := Write(cachedFile, outcome);
      if err.Some? {
        return;
      }
      aliases := RegisterEach(aliases, cachedFile.aliases, cachedFile.contentHash);
      aliases := RegisterEach(aliases, cachedFile.urls, cachedFile.contentHash);
      RegisterAppend(old(aliases), cachedFile.aliases, cachedFile.urls, cachedFile.contentHash);
    }

    /**
     * `Merge`: writes the record whose aliases are the file's followed by
     * `newAliases` and whose URLs are the file's followed by `newUrls`,
     * duplicates kept, hash, size and attributes copied; on success every
     * merged term maps to the file's hash. On a failed write nothing
     * changes.
     */
    method Merge(cachedFile: SimpleCachedFile, newAliases: seq<string>, newUrls: seq<string>,
                 outcome: Option<string>) returns (err: Option<IndexError>)
      modifies this
      ensures outcome.Some? ==>
        err == Some(WriteFailed(outcome.value)) && records == old(records) && aliases == old(aliases)
      ensures outcome.None? ==>
        var merged := Merged(cachedFile, newAliases, newUrls);
        err == None && records == old(records)[cachedFile.contentHash := merged]
        && aliases == Register(old(aliases), merged.Terms(), cachedFile.contentHash)
      ensures outcome.None? ==>
        forall t :: t in cachedFile.Terms() + newAliases + newUrls ==>
          t in aliases && aliases[t] == cachedFile.contentHash
    {
      var allAliases: seq<string> := [];
      var i := 0;
      while i < |cachedFile.aliases|
        invariant 0 <= i <= |cachedFile.aliases|
        invariant allAliases == cachedFile.aliases[..i]
      {
        assert cachedFile.aliases[..i + 1] == cachedFile.aliases[..i] + [cachedFile.aliases[i]];
        allAliases := allAliases + [cachedFile.aliases[i]];
        i := i + 1;
      }
      i := 0;
      while i < |newAliases|
        invariant 0 <= i <= |newAliases|
        invariant allAliases == cachedFile.aliases + newAliases[..i]
      {
        assert newAliases[..i + 1] == newAliases[..i] + [newAliases[i]];
        allAliases := allAliases + [newAliases[i]];
        i := i + 1;
      }
      assert newAliases[..i] == newAliases;

      var allUrls: seq<string> := [];
      i := 0;
      while i < |cachedFile.urls|
        invariant 0 <= i <= |cachedFile.urls|
        invariant allUrls == cachedFile.urls[..i]
      {
        assert cachedFile.urls[..i + 1] == cachedFile.urls[..i] + [cachedFile.urls[i]];
        allUrls := allUrls + [cachedFile.urls[i]];
        i := i + 1;
      }
      i := 0;
      while i < |newUrls|
        invariant 0 <= i <= |newUrls|
        invariant allUrls == cachedFile.urls + newUrls[..i]
      {
        assert newUrls[..i + 1] == newUrls[..i] + [newUrls[i]];
        allUrls := allUrls + [newUrls[i]];
        i := i + 1;
      }
      assert newUrls[..i] == newUrls;

      var newCachedFile := SimpleCachedFile(cachedFile.contentHash, allUrls, allAliases,
                                            cachedFile.size, cachedFile.attributes);
      err := Write(newCachedFile, outcome);
      if err.Some? {
        return;
      }
      aliases := RegisterEach(aliases, allAliases, cachedFile.contentHash);
      aliases := RegisterEach(aliases, allUrls, cachedFile.contentHash);
      RegisterAppend(old(aliases), allAliases, allUrls, cachedFile.contentHash);
    }

    /**
     * `Clear`: with no loadable record for the hash, the load error is
     * returned and nothing changes. Otherwise every term the record lists
     * is deleted from the map, even one that now maps to another hash,
     * and then the record is removed (unless removal fails, which is
     * reported after the terms are already gone).
     */
    method Clear(contentHash: string, outcome: Option<string>) returns (err: Option<IndexError>)
      modifies this
      ensures contentHash !in old(records) ==>
        err == Some(MissingRecord(contentHash)) && records == old(records) && aliases == old(aliases)
      ensures contentHash in old(records) ==>
        aliases == old(aliases) - Elements(old(records)[contentHash].Terms())
      ensures contentHash in old(records) && outcome.None? ==>
        err == None && records == old(records) - {contentHash}
      ensures contentHash in old(records) && outcome.Some? ==>
        err == Some(RemoveFailed(outcome.value)) && records == old(records)
    {
      if contentHash !in records {
        return Some(MissingRecord(contentHash));
      }
      var cachedFile := records[contentHash];
      var j := 0;
      while j < |cachedFile.aliases|
        invariant 0 <= j <= |cachedFile.aliases|
        invariant aliases == old(aliases) - Elements(cachedFile.aliases[..j])
        invariant records == old(records)
      {
        ElementsSnoc(cachedFile.aliases, j);
        aliases := aliases - {cachedFile.aliases[j]};
        j := j + 1;
      }
      assert cachedFile.aliases[..j] == cachedFile.aliases;
      j := 0;
      while j < |cachedFile.urls|
        invariant 0 <= j <= |cachedFile.urls|
        invariant aliases == old(aliases) - Elements(cachedFile.aliases) - Elements(cachedFile.urls[..j])
        invariant records == old(records)
      {
        ElementsSnoc(cachedFile.urls, j);
        aliases := aliases - {cachedFile.urls[j]};
        j := j + 1;
      }
      assert cachedFile.urls[..j] == cachedFile.urls;
      assert Elements(cachedFile.Terms()) == Elements(cachedFile.aliases) + Elements(cachedFile.urls);

      if outcome.Some? {
        return Some(RemoveFailed(outcome.value));
      }
      records := records - {contentHash};
      err := None;
    }

    /**
     * `Find`: the hash of the first term, in the given order, that the
     * map holds; later terms are not consulted. With no such term, the
     * "not found" error. The map is only read.
     */
    method Find(terms: seq<string>) returns (r: FindResult)
      ensures r == FirstMatch(aliases, terms)
      ensures r.NotFound? ==> r.message == NoContentHashMessage
      ensures r.Found? <==> exists i :: 0 <= i < |terms| && terms[i] in aliases
      ensures r.Found? ==>
        exists i :: 0 <= i < |terms| && terms[i] in aliases && r.hash == aliases[terms[i]]
          && forall j :: 0 <= j < i ==> terms[j] !in aliases
    {
      FirstMatchIsFirst(aliases, terms);
      var i := 0;
      while i < |terms|
        invariant 0 <= i <= |terms|
        invariant FirstMatch(aliases, terms) == FirstMatch(aliases, terms[i..])
      {
        assert terms[i..][1..] == terms[i + 1..];
        var term := terms[i];
        if term in aliases {
          return Found(aliases[term]);
        }
        i := i + 1;
      }
      return NotFound(NoContentHashMessage);
    }
  }

  /**
   * Round trip of persistence: after a successful `Update`, an index
   * rebuilt by `init` from the same directory resolves every term of the
   * file to its hash, provided no other record lists that term with a
   * different hash and the walk visits the file's record.
   */
  method UpdateSurvivesRestart(records: map<string, SimpleCachedFile>, listing: seq<string>,
                               cachedFile: SimpleCachedFile, relisting: seq<string>, t: string)
    returns (r: FindResult)
    requires t in cachedFile.Terms() && cachedFile.contentHash in relisting
    requires forall k :: k in records && k != cachedFile.contentHash && t in records[k].Terms() ==>
      records[k].contentHash == cachedFile.contentHash
    ensures r == Found(cachedFile.contentHash)
  {
    var index := new LocalIndex(records, listing);
    var err := index.Update(cachedFile, None);
    var restarted := new LocalIndex(index.records, relisting);
    RebuildFinds(map[], restarted.records, relisting, cachedFile.contentHash, t);
    r := restarted.Find([t]);
  }
}
