# tram core, modelled in Dafny

tram is a caching HTTP proxy for remote files. A client names a URL and
optional aliases; tram fetches the URL once, stores the payload under
the SHA-1 hex of its content (the content hash), and afterwards answers
lookups by URL, by the hash of the URL, by the content hash or by any
alias. This project models the parts of tram that decide what is
fetched, what is stored and what a lookup resolves to:

- the alias index (`app/index.go`): the in-memory map from lookup term
  to content hash, its persisted per-hash records, and the rebuild of
  the map from those records at start-up;
- the download de-duplication pools (`util/pool.go`, `app/pool.go`):
  a URL already in transit is refused instead of fetched twice;
- the download listeners (`app/listeners.go`): who is told when a
  file arrives;
- the earlier caches (`app/middleware.go`, `app/cache.go`, `app/api.go`):
  fetch, store under the content hash, register aliases, write the
  metadata record, and rebuild the tables from those records;
- the fetch-then-store pipelines (`app/storage.go`, `storage/storage.go`,
  `storage/cachedfile.go`);
- `util.MapKeys`, the UID manager (`app/misc.go`), and the configuration
  field validators and constructors (`config/misc.go`, `config/user.go`).

One Dafny module stands for one Go file (`storage/storage.go` and
`storage/cachedfile.go` declare the same names and are one module).
State the Go code updates in place (the index map, the pools, the
listener list, the package-level tables of the caches, the random
source) is a `class` whose methods carry `modifies` clauses and state
the whole new state; pure logic is functions and lemmas. Each method is
tied to a reference function (`RebuildFrom`, `FirstMatch`, `Reload`,
`FirstCached`, `Matching`, `StringsOf`, `Uid`, `StorageConfigOf`, ...)
and the properties are proved about those functions.

Things outside the program's own logic are parameters:

- the SHA-1 hash is a `Hasher` (a function from bytes to a string);
- a fetch (`http.Get` plus reading the body) is a `Response` value or a
  `Fetcher` function;
- a file-system walk is the `listing` of names it visits, in order;
- the cache or index directory is a map from file name to content;
- the outcome of a write or a removal is an `Option<string>` (`None`
  for success, else the error text);
- the clock is an integer `now`;
- the random source is the sequence of values it will return.

Behaviour the model follows as the code has it:

- `DownloadListeners.Notify` sends to every matching listener and
  removes none of them.
- `LocalIndex.Merge` concatenates the old and new alias and URL lists,
  duplicates kept, and writes the record built from the file it is
  given.
- The `.aliases` record written by `app/api.go` holds the content hash
  on its second line; `app/cache.go` puts the URL's hash there.
- `app/middleware.go` stores a file whose alias list holds each term
  once; `app/cache.go` keeps only the caller's aliases in the file
  record while registering the URL and its hash as well.
- `app/pool.go`'s `DedupeWrapDownloader` performs no de-duplication
  (see Findings).

## Model

| member | source | states |
|---|---|---|
| UtilMisc.MapKeys | util/misc.go:9-15 | the result holds exactly the keys of the map, each once, so its length is the map's size; an empty map gives an empty list |
| UtilMisc.AllAliases | storage/storage.go:46-54 | the alias list built through a set holds exactly the URL, the URL's hash, the content hash and the given aliases, each once |
| UtilPool.DownloadPool.constructor | util/pool.go:58-63 | a new pool has no URL in transit |
| UtilPool.DownloadPool.Download | util/pool.go:39-43 | the URL is recorded as in transit since `now`; no other URL changes |
| UtilPool.DownloadPool.Finished | util/pool.go:45-49 | the URL is no longer in transit; no other URL changes |
| UtilPool.DownloadPool.IsInTransit | util/pool.go:51-56 | true exactly when the URL is in transit; the pool is unchanged |
| UtilPool.DedupingDownloader.Downloader | util/pool.go:28-37 | a URL in transit is refused with the "already being downloaded" download error and nothing is fetched; any other URL is fetched once through the wrapped fetcher, its result returned unchanged, and the pool ends as it began |
| UtilPool.DedupingDownloader.FetchMarked | util/pool.go:34-36 | once the URL is marked, the wrapped fetcher is called once, its answer returned, and the URL unmarked |
| UtilPool.DedupeWrapDownloader | util/pool.go:65-70 | the returned guard wraps the given fetcher over a fresh, empty pool |
| AppPool.DedupeWrapDownloader | app/pool.go:68-73 | as written, the returned fetcher is the given fetcher itself, answering every URL as it does |
| AppPool.DuplicateFetchedAsWritten | app/pool_test.go:90-119 | with the wrapper as written, a second request for a URL already being fetched succeeds too, contrary to the test's expectation |
| AppPool.DuplicateRejectedWhenGuarded | app/pool_test.go:90-119 | with the guard, the first request succeeds, the overlapping second one gets a download error, and the guard's record of calls to the wrapped fetcher is exactly the one URL, once |
| AppPool.InTransitLifecycle | app/pool_test.go:40-58 | a URL is not in transit before `Download`, is during, and is not after `Finished` |
| AppPool.ManyInTransit | app/pool_test.go:60-88 | finishing one URL leaves another URL in transit |
| AppStorage.StorageManager.Store | app/storage.go:17-21 | each `Store` call is recorded after the earlier ones |
| AppStorage.Download | app/storage.go:31-41 | on a fetch error nothing is stored; otherwise exactly one `Store` call with the body's hash, the body, the single URL, the given aliases and the callback; stored payloads stay content addressed |
| AppIndex.FirstMatchIsFirst | app/index.go:142-152 | the first-match lookup finds a hash exactly when some term is in the map, and then it is the hash of the earliest such term |
| AppIndex.RebuildKeeps | app/index.go:40-70 | rebuilding from records that never give a term another hash keeps that term's hash |
| AppIndex.RebuildFinds | app/index.go:40-70 | rebuilding maps every term of a listed, loadable record to that record's hash when all records listing the term agree |
| AppIndex.LocalIndex.constructor | app/index.go:26-38 | a new index holds the directory's records and the map rebuilt from them in walk order |
| AppIndex.LocalIndex.Init | app/index.go:40-70 | every term of every loadable listed record maps to its hash, a later record overriding an earlier |
| AppIndex.LocalIndex.Write | app/index.go:154-164 | the record is stored under its hash, or the write error is returned and nothing changes |
| AppIndex.LocalIndex.Update | app/index.go:72-84 | on a failed write the error is returned and nothing changes; otherwise the record is stored, every alias and URL maps to its hash, and no other term changes |
| AppIndex.LocalIndex.Merge | app/index.go:86-121 | the written record has the old lists followed by the new ones, duplicates kept; on success every merged term maps to the hash; on a failed write nothing changes |
| AppIndex.LocalIndex.Clear | app/index.go:123-140 | with no loadable record the error is returned and nothing changes; otherwise every listed term is deleted even if it now maps elsewhere, then the record is removed unless removal fails |
| AppIndex.LocalIndex.Find | app/index.go:142-152 | the hash of the first term the map holds, later terms not consulted; when there is none, the error "No content hash found for term"; the index is unchanged |
| AppIndex.UpdateSurvivesRestart | app/index.go:72-84 | after a successful `Update`, an index rebuilt from the same directory resolves each of the file's terms to its hash |
| AppListeners.AnyShared | app/listeners.go:40-46 | true exactly when some alias is in both lists |
| AppListeners.ShouldNotify | app/listeners.go:35-48 | a listener is notified exactly when its URL is the file's URL or they share an alias; with a different URL and no aliases, never |
| AppListeners.MatchingMembers | app/listeners.go:27-33 | the listeners notified are exactly the registered ones that match the file, never more than are registered |
| AppListeners.DownloadListeners.constructor | app/listeners.go:16-20 | a new registry has no listener |
| AppListeners.DownloadListeners.Add | app/listeners.go:22-25 | the listener, stamped with `now`, is appended after the existing ones |
| AppListeners.DownloadListeners.Notify | app/listeners.go:27-33 | the listeners sent the file are exactly the registered ones that match it, in registration order; none is removed |
| AppCache.EventString | app/cache.go:39-45 | the event's name, a space, then the `key=value` pairs joined by spaces, one per attribute: a ghost key order lists every attribute key exactly once and the i-th pair is the i-th key's; the name and a space when there are no attributes |
| AppCache.EncodeMetadata | app/cache.go:187-194 | the metadata is the URL, the URL's hash and the aliases joined by newlines, and splits back into them when no line holds a newline |
| AppCache.MetadataRoundTrip | app/cache.go:129-140 | reloading a written metadata file gives the original URL and lines, each alias mapped to the hash |
| AppCache.FileCache.constructor | app/cache.go:70-80 | the cache starts with empty tables over its directory |
| AppCache.FileCache.FindCachedFile | app/cache.go:150-159 | a file exactly when the term is an alias whose hash has a file, and then that file |
| AppCache.FileCache.Download | app/cache.go:161-195 | on an error nothing changes; otherwise the payload and metadata are written under the hash and the URL, its hash and every alias resolve to the stored file |
| AppCache.FileCache.LoadMetadataFile | app/cache.go:129-140 | the tables become those after loading the one metadata file |
| AppCache.FileCache.InitCachedFiles | app/cache.go:114-148 | the tables become those reloaded from every metadata file in walk order |
| AppCache.FileCache.HandleDownloadEvent | app/cache.go:93-103 | a download is made exactly for a `download` event with `url` and `aliases` attributes whose URL is not cached, with the comma-separated aliases; otherwise the tables are unchanged |
| AppCache.DownloadSurvivesRestart | app/cache.go:161-195 | after a successful download, a cache restarted over the same directory finds the file by its URL, with the original URL and lines |
| AppMiddleware.FirstCachedIsFirst | app/middleware.go:156-167 | the lookup finds a file exactly when some token resolves to a stored hash, and then it is the file of the earliest such token |
| AppMiddleware.DiskFileCache.constructor | app/middleware.go:42-53 | a new cache has empty tables over its directory |
| AppMiddleware.DiskFileCache.InitCachedFiles | app/middleware.go:121-154 | the tables become those reloaded from every metadata file in walk order |
| AppMiddleware.DiskFileCache.FindCachedFile | app/middleware.go:156-167 | the file of the first token that resolves, or none exactly when none does |
| AppMiddleware.DiskFileCache.Download | app/middleware.go:169-209 | an already cached URL or alias returns that file and changes nothing; a fetch error returns nothing and changes nothing; otherwise the file at the hash's path lists the URL, its hash, the content hash and the aliases once each, all of which then resolve to it |
| AppMiddleware.WarmTwice | app/middleware.go:169-173 | after a successful first download, a second download of the same URL returns the same file, whatever its fetch would give, and leaves the tables as the first left them: unchanged if the URL was already cached, else with just the new file stored and its aliases registered |
| AppApi.GetValues | app/api.go:96-113 | exactly the requested keys, each bound to its first value in the query (GET, HEAD) or the form, or to the empty string |
| AppApi.ApiCache.constructor | app/api.go:14-26 | the alias table starts empty over the cache directory; the directory's files are as given |
| AppApi.ApiCache.Download | app/api.go:54-87 | on an error nothing changes; otherwise the payload is stored under its hash, the URL, its hash and every alias resolve to that hash, and the `.aliases` record holds the URL, the content hash and the aliases, one per line, which split back |
| AppApi.ApiCache.HandleIndex | app/api.go:28-52 | HEAD and GET answer 404 "not found" for an unknown alias and 200 with its hash otherwise, changing nothing; POST answers 200 "OK" and has the whole effect of `download` for the form's URL with no aliases: nothing changes when the fetch fails, and otherwise the payload and `.aliases` record are written and the URL and its hash resolve to the body's hash, no other alias changing; every other method answers 200 "OK" and changes nothing |
| AppApi.ApiCache.HashForAlias | app/api.go:89-94 | the content hash the alias is registered to, or the empty string when the alias is unknown |
| AppApi.PostThenHead | app/api.go:28-52 | a URL posted with a successful fetch is then answered by HEAD with 200 and the body's hash |
| AppMisc.LittleEndianRoundTrip | app/misc.go:19-27 | the eight bytes written for a draw, read back least significant first, give the draw |
| AppMisc.LittleEndianTopBit | app/misc.go:18-27 | the last byte written for a number below 2^63 has its high bit clear |
| AppMisc.UidDecodes | app/misc.go:13-30 | a UID is 16 bytes and each half reads back to its draw |
| AppMisc.UidInjective | app/misc.go:13-30 | distinct pairs of draws give distinct UIDs |
| AppMisc.UidHighBitsClear | app/misc.go:13-30 | bytes 7 and 15 of every UID are below 128 |
| AppMisc.Hex | app/misc.go:32-34 | two lower-case hex digits per byte |
| AppMisc.HexRoundTrip | app/misc.go:32-34 | the hex text reads back to the bytes |
| AppMisc.UidManager.constructor | app/misc.go:36-40 | the manager draws from the given source, every value of which is below 2^63 |
| AppMisc.UidManager.Generate | app/misc.go:13-30 | two draws are consumed and the 16-byte UID is the eight bytes of each, least significant first; the high bits of bytes 7 and 15 are clear; the remaining draws stay below 2^63 |
| AppMisc.UidManager.GenerateHex | app/misc.go:32-34 | the 32 hex digits of the UID made from the next two draws |
| StorageDownload.StorageManager.Store | storage/storage.go:23-26 | each `Store` call is recorded after the earlier ones |
| StorageDownload.Download | storage/storage.go:36-55 | on a fetch error nothing is stored; otherwise exactly one `Store` call with the body, the URL, the body's hash, the callback and the URL, its hash, the content hash and the aliases once each |
| ConfigMisc.MissingIsNotATypeError | config/misc.go:21-67 | the "missing" message differs from every type-error message |
| ConfigMisc.ParseConfigGroup | config/misc.go:9-19 | the group's object exactly when the group is present and an object; otherwise the "Missing" or "Invalid" group error |
| ConfigMisc.ParseString | config/misc.go:21-31 | the string exactly when the key holds one; otherwise the missing or not-a-string error |
| ConfigMisc.ParseBool | config/misc.go:33-43 | the boolean exactly when the key holds one; otherwise the missing or not-a-bool error |
| ConfigMisc.ParseInt | config/misc.go:45-55 | the number exactly when the key holds one; otherwise the missing or not-an-int error |
| ConfigMisc.StringsOfKeepsStrings | config/misc.go:78-85 | the collected list holds exactly the list's string elements, no more items than the list, and all of them in order when every element is a string |
| ConfigMisc.CollectStrings | config/misc.go:78-85 | the loop collects the string elements in order |
| ConfigMisc.ParseStringArray | config/misc.go:69-86 | the string elements exactly when the key holds a list; otherwise the missing or not-a-list error |
| ConfigMisc.GetStringArray | config/misc.go:108-121 | the string elements exactly when the value is a list; otherwise "Data is not an array." |
| ConfigUser.FirstFailureIsFirst | config/user.go:126-155 | validation fails exactly when some required field is missing or mistyped, and reports the first such field |
| ConfigUser.FirstFailureAt | config/user.go:138-155 | when all earlier fields pass, the first failing field's error is the one reported |
| ConfigUser.StorageAccepted | config/user.go:118-158 | an accepted storage group holds a string engine and, for `local` and `s3`, the required fields, whose values the configuration carries |
| ConfigUser.OtherStorageEngineAccepted | config/user.go:118-158 | an engine other than local or s3 needs only the engine field |
| ConfigUser.S3CheckedInOrder | config/user.go:138-155 | the s3 fields are checked in source order, so a missing key is reported before a missing secret |
| ConfigUser.NewUserStorageAppConfig | config/user.go:118-158 | the result is the reference storage configuration of the group, error or value |
| ConfigUser.NewUserIndexAppConfig | config/user.go:160-181 | the result is the reference index configuration of the group, error or value |
| ConfigUser.NewUserAppConfig | config/user.go:31-64 | a decoding error is returned as is; otherwise the reference configuration, whose source is the given text |
| ConfigUser.AppConfigAccepted | config/user.go:40-63 | an accepted configuration carries the document's `listen` and `lruSize` and the accepted storage and index configurations |

## Left out

- Goroutines, channels, mutexes and timeouts are not modelled. This covers the event loop of `app/cache.go`, `Query`, `PublishEvent`, the warm/query channels of `app/middleware.go`, its 3-second timeouts, and `Close`. Each operation is one atomic step on the state it guards.
- The network is not modelled: `http.Get`, reading the body and `util.DefaultRemoteFileFetcher` are a `Response` value or a `Fetcher` parameter.
- SHA-1 is not modelled: `util.Hash` and the package-local `hash` helpers are the `Hasher` parameter.
- File-system I/O is not modelled: walks, reads, writes, `os.MkdirAll`, `os.Getwd` and the `init` functions that use them. A directory is a map from file name to content, a walk is its listing, and directories and unreadable files are skipped; a walk that meets a stat error stops there, and the listing is then the names visited before it.
- AppIndex.LocalIndex.Write: a failed write leaves the records as they were; `ioutil.WriteFile` truncates the file first, so a write failing part-way can leave a record `load` can no longer read, which the model does not capture.
- Ignored write errors (`app/cache.go`, `app/api.go`) are written as successful writes.
- `filepath.Join` path cleaning is not modelled; a path is the directory, "/" and the name.
- JSON encoding and decoding of index records and configuration files are not modelled. A record is a `SimpleCachedFile` value; a decoded document is a `Json` value, or the decoding error.
- AppMiddleware.DiskFileCache.Download: app/middleware.go:199 calls a lower-case `mapKeys` that no file of the repository defines; the model assumes it behaves as `util.MapKeys` (util/misc.go:9-15), and the clauses that the alias list holds each term once and exactly the set's terms rest on that assumption.
- `CachedFile.StoreAsset` and `StoreMetadata`, called at app/middleware.go:200-201, are defined in no file of the repository, so the model leaves the cache directory unchanged for that download.
- HTTP wiring is not modelled: martini handlers, `NewFileCacheMiddleware`, `NewFileCacheWithPath`, the `http.ServeFile` answer of GET, and `app/app.go`.
- The storage backends are not modelled: S3 and local `Store`/`Delete`/`Serve` implementations, and `Serialize`, `Location` and `LocationType`, with the location-type names `CachedFile_Local` and `CachedFile_Remote` (storage/storage.go:8-11). The pipelines record the `Store` calls they make.
- `config/config.go`, `config/default.go` and `getFloat` are not part of this model.
- The time stamps of the pool and the listeners are an integer `now`, not a `time.Time`.
- `app/pool.go` declares the same pool types and methods as `util/pool.go`. They are modelled once, in `UtilPool`; only its `DedupeWrapDownloader` differs and is modelled separately.
- The accessors of `simpleCachedFile`, the getters of `config/user.go`, `DownloadError.Error`/`UtilPool.ErrorText` and `StorageError.Error` are plain field reads without contracts of their own.
- The seeding of the random source from the clock is not modelled.
- Go strings are byte strings; the model's strings are sequences of Unicode characters, turned into bytes by `Utf8` where a hash is taken. `strings.Split`, `strings.HasSuffix` and `strings.Join` on byte strings that are not valid UTF-8 are outside the model.
- AppMisc.UidManager.Generate: requires two values still to come from the random source, which in Go is unbounded; that every value is below 2^63, as `Int63` guarantees, is the manager's `Valid` invariant.
- AppMisc.UidManager.GenerateHex: requires two values still to come from the random source, as `Generate` does.
- ConfigMisc.ParseInt: a JSON number is taken as the integer Go's `int(...)` conversion yields; float truncation is not modelled.
- ConfigMisc.ParseUint64: has the same checks and messages as `ParseInt` and no contract of its own; the `uint64` conversion of negative or out-of-range numbers is not modelled.
- ConfigUser.NewUserAppConfig: requires a decoded document to be an object, where Go's type assertion would panic.
- AppCache.EventString: the order of the pairs is left open, as Go's map iteration order is; the ghost `keys` names the order chosen.
- UtilMisc.MapKeys: the order of the keys is left open, as Go's map iteration order is.

## Findings

| source | as written | input that shows it | evidently intended | confidence | as-written member | corrected member |
|---|---|---|---|---|---|---|
| app/pool.go:68-73 | `DedupeWrapDownloader` returns `dedupingDownloader.downloader`, the fetcher it was given, so the pool it builds is never consulted | two overlapping requests for the same URL, as in app/pool_test.go:99-117: both are fetched and both succeed | return the guarded `dedupingDownloader.download`, as util/pool.go:65-70 does, so the second request gets a download error | high; not executed | AppPool.DuplicateFetchedAsWritten | AppPool.DuplicateRejectedWhenGuarded |
