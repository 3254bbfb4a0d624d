/**
 * config/user.go: the application configuration read from a user's JSON
 * file. The top level needs a string `listen`, a number `lruSize`, an
 * `index` group and a `storage` group; each group needs a string
 * `engine`, and the engine decides which further attributes are
 * required. The first failing check, in the source's order, is the
 * error reported.
 *
 * The constructors are methods that fill a record step by step with
 * early returns; each is proved equal to a reference definition that
 * states the requirements as a list, and lemmas about the references
 * give what a valid configuration guarantees.
 */
module ConfigUser {
  import opened Common
  import opened ConfigMisc

  /** `userIndexAppConfig`; the member functions are its getters. */
  datatype UserIndexAppConfig = UserIndexAppConfig(engine: string, localBasePath: string)
  {
    function Engine(): string { engine }
    function LocalBasePath(): string { localBasePath }
  }

  /** `userStorageAppConfig`; the member functions are its getters. */
  datatype UserStorageAppConfig = UserStorageAppConfig(
    engine: string,
    basePath: string,
    s3Key: string,
    s3Secret: string,
    s3Host: string,
    s3Buckets: seq<string>)
  {
    function Engine(): string { engine }
    function BasePath(): string { basePath }
    function S3Key(): string { s3Key }
    function S3Secret(): string { s3Secret }
    function S3Buckets(): seq<string> { s3Buckets }
    function S3Host(): string { s3Host }
  }

  /** `userAppConfig`; the member functions are its getters. */
  datatype UserAppConfig = UserAppConfig(
    source: string,
    listen: string,
    lruSize: int,
    storageAppConfig: UserStorageAppConfig,
    indexAppConfig: UserIndexAppConfig)
  {
    function Source(): string { source }
    function Listen(): string { listen }
    function LruSize(): int { lruSize }
    function Storage(): UserStorageAppConfig { storageAppConfig }
    function Index(): UserIndexAppConfig { indexAppConfig }
  }

  /** A required attribute of a group and the type it must have. */
  datatype Requirement = RequireString(key: string) | RequireStringList(key: string)

  /** The error a requirement gives on `data`, if it is not met. */
  function Failure(group: string, data: map<string, Json>, req: Requirement): Option<string>
  {
    match req
      case RequireString(key) =>
        if key !in data then Some(AttributeError(group, key, Missing))
        else if !data[key].JString? then Some(AttributeError(group, key, NotAString))
        else None
      case RequireStringList(key) =>
        if key !in data then Some(AttributeError(group, key, Missing))
        else if !data[key].JArray? then Some(AttributeError(group, key, NotAListOfStrings))
        else None
  }

  /** The error of the first requirement not met, if any. */
  function FirstFailure(group: string, data: map<string, Json>, reqs: seq<Requirement>): Option<string>
  {
    if |reqs| == 0 then None
    else if Failure(group, data, reqs[0]).Some? then Failure(group, data, reqs[0])
    else FirstFailure(group, data, reqs[1..])
  }

  /**
   * `FirstFailure` finds nothing exactly when every requirement is met,
   * and otherwise reports the earliest requirement that is not.
   */
  lemma {:induction false} FirstFailureIsFirst(group: string, data: map<string, Json>, reqs: seq<Requirement>)
    ensures FirstFailure(group, data, reqs).None? <==>
      forall i :: 0 <= i < |reqs| ==> Failure(group, data, reqs[i]).None?
    ensures FirstFailure(group, data, reqs).Some? ==>
      exists i :: 0 <= i < |reqs| && FirstFailure(group, data, reqs) == Failure(group, data, reqs[i])
        && forall j :: 0 <= j < i ==> Failure(group, data, reqs[j]).None?
  {
    if |reqs| > 0 && Failure(group, data, reqs[0]).None? {
      var rest := reqs[1..];
      FirstFailureIsFirst(group, data, rest);
      if FirstFailure(group, data, reqs).Some? {
        var i :| 0 <= i < |rest| && FirstFailure(group, data, rest) == Failure(group, data, rest[i])
          && forall j :: 0 <= j < i ==> Failure(group, data, rest[j]).None?;
        assert reqs[i + 1] == rest[i];
        assert forall j :: 0 <= j < i + 1 ==> Failure(group, data, reqs[j]).None? by {
          forall j | 0 <= j < i + 1
            ensures Failure(group, data, reqs[j]).None?
          {
            if j > 0 {
              assert reqs[j] == rest[j - 1];
            }
          }
        }
      } else {
        forall i | 0 <= i < |reqs|
          ensures Failure(group, data, reqs[i]).None?
        {
          if i > 0 {
            assert reqs[i] == rest[i - 1];
          }
        }
      }
    }
  }

  /** A requirement that fails after all earlier ones are met gives the error. */
  lemma FirstFailureAt(group: string, data: map<string, Json>, reqs: seq<Requirement>, k: nat)
    requires k < |reqs| && Failure(group, data, reqs[k]).Some?
    requires forall j :: 0 <= j < k ==> Failure(group, data, reqs[j]).None?
    ensures FirstFailure(group, data, reqs) == Failure(group, data, reqs[k])
  {
    FirstFailureIsFirst(group, data, reqs);
    var i :| 0 <= i < |reqs| && FirstFailure(group, data, reqs) == Failure(group, data, reqs[i])
      && forall j :: 0 <= j < i ==> Failure(group, data, reqs[j]).None?;
    assert i == k;
  }

  /** The string value of `key`, or "" when there is none. */
  function StringAt(data: map<string, Json>, key: string): string
  {
    if key in data && data[key].JString? then data[key].s else ""
  }

  /** The string elements of the list at `key`, or [] when there is none. */
  function StringListAt(data: map<string, Json>, key: string): seq<string>
  {
    if key in data && data[key].JArray? then StringsOf(data[key].items) else []
  }

  /** What a storage engine requires beyond `engine`. */
  function StorageRequirements(engine: string): seq<Requirement>
  {
    if engine == "local" then [RequireString("basePath")]
    else if engine == "s3" then
      [RequireString("s3Key"), RequireString("s3Secret"), RequireString("s3Host"), RequireStringList("s3Buckets")]
    else []
  }

  /** What an index engine requires beyond `engine`. */
  function IndexRequirements(engine: string): seq<Requirement>
  {
    if engine == "local" then [RequireString("localBasePath")] else []
  }

  /**
   * The storage configuration `m` describes: the `storage` group and its
   * `engine` must be present, then the engine's requirements in order;
   * the attributes the engine does not use stay empty.
   */
  function StorageConfigOf(m: map<string, Json>): Result<UserStorageAppConfig>
  {
    var group := ParseConfigGroup("storage", m);
    if group.Err? then Err(group.message)
    else
      var data := group.value;
      var engine := ParseString("storage", "engine", data);
      if engine.Err? then Err(engine.message)
      else
        var failure := FirstFailure("storage", data, StorageRequirements(engine.value));
        if failure.Some? then Err(failure.value)
        else
          var local := engine.value == "local";
          var s3 := engine.value == "s3";
          Ok(UserStorageAppConfig(
            engine.value,
            if local then StringAt(data, "basePath") else "",
            if s3 then StringAt(data, "s3Key") else "",
            if s3 then StringAt(data, "s3Secret") else "",
            if s3 then StringAt(data, "s3Host") else "",
            if s3 then StringListAt(data, "s3Buckets") else []))
  }

  /** The index configuration `m` describes, in the same way. */
  function IndexConfigOf(m: map<string, Json>): Result<UserIndexAppConfig>
  {
    var group := ParseConfigGroup("index", m);
    if group.Err? then Err(group.message)
    else
      var data := group.value;
      var engine := ParseString("index", "engine", data);
      if engine.Err? then Err(engine.message)
      else
        var failure := FirstFailure("index", data, IndexRequirements(engine.value));
        if failure.Some? then Err(failure.value)
        else Ok(UserIndexAppConfig(engine.value,
                                   if engine.value == "local" then StringAt(data, "localBasePath") else ""))
  }

  /**
   * The application configuration: `listen`, then `lruSize`, then the
   * index group, then the storage group; the first error wins.
   */
  function AppConfigOf(content: string, m: map<string, Json>): Result<UserAppConfig>
  {
    var listen := ParseString("config", "listen", m);
    var lruSize := ParseUint64("config", "lruSize", m);
    var index := IndexConfigOf(m);
    var storage := StorageConfigOf(m);
    if listen.Err? then Err(listen.message)
    else if lruSize.Err? then Err(lruSize.message)
    else if index.Err? then Err(index.message)
    else if storage.Err? then Err(storage.message)
    else Ok(UserAppConfig(content, listen.value, lruSize.value, storage.value, index.value))
  }

  /**
   * An accepted `s3` storage group has string `s3Key`, `s3Secret` and
   * `s3Host` and a list `s3Buckets`, and the configuration holds their
   * values; an accepted `local` one has a string `basePath`.
   */
  lemma StorageAccepted(m: map<string, Json>)
    requires StorageConfigOf(m).Ok?
    ensures var data := m["storage"].fields;
      var c := StorageConfigOf(m).value;
      && "engine" in data && data["engine"] == JString(c.engine)
      && (c.engine == "local" ==> "basePath" in data && data["basePath"] == JString(c.basePath))
      && (c.engine == "s3" ==>
          && "s3Key" in data && data["s3Key"] == JString(c.s3Key)
          && "s3Secret" in data && data["s3Secret"] == JString(c.s3Secret)
          && "s3Host" in data && data["s3Host"] == JString(c.s3Host)
          && "s3Buckets" in data && data["s3Buckets"].JArray?
          && c.s3Buckets == StringsOf(data["s3Buckets"].items))
  {
    var data := m["storage"].fields;
    var engine := data["engine"].s;
    FirstFailureIsFirst("storage", data, StorageRequirements(engine));
    if engine == "local" {
      assert Failure("storage", data, StorageRequirements(engine)[0]).None?;
    }
    if engine == "s3" {
      var reqs := StorageRequirements(engine);
      assert Failure("storage", data, reqs[0]).None?;
      assert Failure("storage", data, reqs[1]).None?;
      assert Failure("storage", data, reqs[2]).None?;
      assert Failure("storage", data, reqs[3]).None?;
    }
  }

  /**
   * A storage group with a string engine other than `local` and `s3` is
   * accepted whatever else it holds, with every other attribute empty.
   */
  lemma OtherStorageEngineAccepted(m: map<string, Json>, engine: string)
    requires "storage" in m && m["storage"].JObject?
    requires "engine" in m["storage"].fields && m["storage"].fields["engine"] == JString(engine)
    requires engine != "local" && engine != "s3"
    ensures StorageConfigOf(m) == Ok(UserStorageAppConfig(engine, "", "", "", "", []))
  {
  }

  /**
   * For an `s3` group the attributes are checked in the order `s3Key`,
   * `s3Secret`, `s3Host`, `s3Buckets`: the error is about the first one
   * that is missing or mistyped.
   */
  lemma S3CheckedInOrder(m: map<string, Json>, k: nat)
    requires "storage" in m && m["storage"].JObject?
    requires "engine" in m["storage"].fields && m["storage"].fields["engine"] == JString("s3")
    requires k < 4
    requires var reqs := StorageRequirements("s3");
      && Failure("storage", m["storage"].fields, reqs[k]).Some?
      && forall j :: 0 <= j < k ==> Failure("storage", m["storage"].fields, reqs[j]).None?
    ensures StorageConfigOf(m) == Err(Failure("storage", m["storage"].fields, StorageRequirements("s3")[k]).value)
  {
    FirstFailureAt("storage", m["storage"].fields, StorageRequirements("s3"), k);
  }

  /**
   * `newUserStorageAppConfig`: the storage configuration of `m`, with the
   * first error met.
   */
  method NewUserStorageAppConfig(m: map<string, Json>) returns (r: Result<UserStorageAppConfig>)
    ensures r == StorageConfigOf(m)
  {
    var group := ParseConfigGroup("storage", m);
    if group.Err? {
      return Err(group.message);
    }
    var data := group.value;
    var config := UserStorageAppConfig("", "", "", "", "", []);

    var engine := ParseString("storage", "engine", data);
    if engine.Err? {
      return Err(engine.message);
    }
    config := config.(engine := engine.value);

    var reqs := StorageRequirements(config.engine);
    if config.engine == "local" {
      var basePath := ParseString("storage", "basePath", data);
      if basePath.Err? {
        FirstFailureAt("storage", data, reqs, 0);
        return Err(basePath.message);
      }
      config := config.(basePath := basePath.value);
    }

    if config.engine == "s3" {
      var s3Key := ParseString("storage", "s3Key", data);
      if s3Key.Err? {
        FirstFailureAt("storage", data, reqs, 0);
        return Err(s3Key.message);
      }
      config := config.(s3Key := s3Key.value);
      var s3Secret := ParseString("storage", "s3Secret", data);
      if s3Secret.Err? {
        FirstFailureAt("storage", data, reqs, 1);
        return Err(s3Secret.message);
      }
      config := config.(s3Secret := s3Secret.value);
      var s3Host := ParseString("storage", "s3Host", data);
      if s3Host.Err? {
        FirstFailureAt("storage", data, reqs, 2);
        return Err(s3Host.message);
      }
      config := config.(s3Host := s3Host.value);
      var s3Buckets := ParseStringArray("storage", "s3Buckets", data);
      if s3Buckets.Err? {
        FirstFailureAt("storage", data, reqs, 3);
        return Err(s3Buckets.message);
      }
      config := config.(s3Buckets := s3Buckets.value);
    }

    FirstFailureIsFirst("storage", data, reqs);
    return Ok(config);
  }

  /** `newUserIndexAppConfig`: the index configuration of `m`, with the first error met. */
  method NewUserIndexAppConfig(m: map<string, Json>) returns (r: Result<UserIndexAppConfig>)
    ensures r == IndexConfigOf(m)
  {
    var group := ParseConfigGroup("index", m);
    if group.Err? {
      return Err(group.message);
    }
    var data := group.value;
    var config := UserIndexAppConfig("", "");

    var engine := ParseString("index", "engine", data);
    if engine.Err? {
      return Err(engine.message);
    }
    config := config.(engine := engine.value);

    var reqs := IndexRequirements(config.engine);
    if config.engine == "local" {
      var localBasePath := ParseString("index", "localBasePath", data);
      if localBasePath.Err? {
        FirstFailureAt("index", data, reqs, 0);
        return Err(localBasePath.message);
      }
      config := config.(localBasePath := localBasePath.value);
    }

    FirstFailureIsFirst("index", data, reqs);

    return Ok(config);
  }

  /**
   * `NewUserAppConfig`: a decoding error is returned as it is; otherwise
   * the configuration of the decoded object, whose source is the input
   * text, or the first error met. The source asserts that the decoded
   * value is an object (and panics otherwise), which the requires states.
   */
  method NewUserAppConfig(content: string, decoded: Result<Json>) returns (r: Result<UserAppConfig>)
    requires decoded.Ok? ==> decoded.value.JObject?
    ensures decoded.Err? ==> r == Err(decoded.message)
    ensures decoded.Ok? ==> r == AppConfigOf(content, decoded.value.fields)
    ensures r.Ok? ==> r.value.source == content
  {
    if decoded.Err? {
      return Err(decoded.message);
    }
    var m := decoded.value.fields;
    var appConfig := UserAppConfig(content, "", 0, UserStorageAppConfig("", "", "", "", "", []),
                                   UserIndexAppConfig("", ""));

    var listen := ParseString("config", "listen", m);
    if listen.Err? {
      return Err(listen.message);
    }
    appConfig := appConfig.(listen := listen.value);

    var lruSize := ParseUint64("config", "lruSize", m);
    if lruSize.Err? {
      return Err(lruSize.message);
    }
    appConfig := appConfig.(lruSize := lruSize.value);

    var index := NewUserIndexAppConfig(m);
    if index.Err? {
      return Err(index.message);
    }
    appConfig := appConfig.(indexAppConfig := index.value);

    var storage := NewUserStorageAppConfig(m);
    if storage.Err? {
      return Err(storage.message);
    }
    appConfig := appConfig.(storageAppConfig := storage.value);

    return Ok(appConfig);
  }

  /**
   * An accepted configuration carries the input's `listen` string and
   * `lruSize` number, and both groups are accepted on their own.
   */
  lemma AppConfigAccepted(content: string, m: map<string, Json>)
    requires AppConfigOf(content, m).Ok?
    ensures var c := AppConfigOf(content, m).value;
      && "listen" in m && m["listen"] == JString(c.listen)
      && "lruSize" in m && m["lruSize"] == JNumber(c.lruSize)
      && IndexConfigOf(m) == Ok(c.indexAppConfig)
      && StorageConfigOf(m) == Ok(c.storageAppConfig)
  {
  }
}
