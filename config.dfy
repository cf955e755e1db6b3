/** The configuration manager (mqtt_stat/config/__init__.py) over an abstract
    file store. Paths are sequences of components from the root; a store
    holds directories and JSON files. `open`, `os.makedirs` and `json.load`
    become total functions on the store that return the error Python would
    raise. */
module Config {
  import opened Wrappers
  import opened Json

  // ---------------------------------------------------------------------
  // The file store

  /** A resolved absolute path: its components from the root; `[]` is the root. */
  type Path = seq<string>

  datatype Store = Store(files: map<Path, Value>, dirs: set<Path>)

  /** What the store operations and the manager raise. `MergeTypeError` is
      the `TypeError` of `{**a, **b}` when a side is not a mapping, and
      `AttributeError` the one of `.get` on a configuration that is `None`. */
  datatype Error =
    | FileNotFoundError
    | IsADirectoryError
    | NotADirectoryError
    | FileExistsError
    | MergeTypeError
    | AttributeError
    | ValueError(msg: string)
    | TypeError(msg: string)

  /** An operation on the store: its outcome and the store afterwards. */
  datatype Io<+T> = Io(result: Result<T, Error>, store: Store)

  function Parent(p: Path): Path
  {
    if p == [] then [] else p[..|p| - 1]
  }

  predicate IsDir(fs: Store, p: Path)
  {
    p == [] || p in fs.dirs
  }

  /** `Path.exists()`. */
  predicate Exists(fs: Store, p: Path)
  {
    IsDir(fs, p) || p in fs.files
  }

  /** Some proper prefix of `p` is a file, so `p` cannot be reached. */
  predicate AncestorIsFile(fs: Store, p: Path)
  {
    exists k :: 0 <= k < |p| && p[..k] in fs.files
  }

  /** A store a real file system could be in: files and directories are
      apart, the root is neither, and every entry sits in a directory. */
  ghost predicate WellFormed(fs: Store)
  {
    && (forall p :: p in fs.files ==> p != [] && p !in fs.dirs && IsDir(fs, Parent(p)))
    && (forall p :: p in fs.dirs ==> p != [] && IsDir(fs, Parent(p)))
  }

  /** `json.load(open(p))`: the file's value, or the error `open` raises. */
  function ReadFile(fs: Store, p: Path): (r: Result<Value, Error>)
    ensures r.Ok? <==> p in fs.files
    ensures r.Ok? ==> r.value == fs.files[p]
  {
    if p in fs.files then Ok(fs.files[p])
    else if IsDir(fs, p) then Err(IsADirectoryError)
    else if AncestorIsFile(fs, p) then Err(NotADirectoryError)
    else Err(FileNotFoundError)
  }

  /** `json.dump(v, open(p, 'w'))`: replaces or creates the file when its
      directory exists; otherwise the store is unchanged and `open` raises. */
  function WriteFile(fs: Store, p: Path, v: Value): (r: Io<()>)
    ensures r.result.Ok? ==> r.store == fs.(files := fs.files[p := v])
    ensures r.result.Err? ==> r.store == fs
    ensures r.result.Ok? <==> !IsDir(fs, p) && !AncestorIsFile(fs, p) && IsDir(fs, Parent(p))
  {
    if IsDir(fs, p) then Io(Err(IsADirectoryError), fs)
    else if AncestorIsFile(fs, p) then Io(Err(NotADirectoryError), fs)
    else if !IsDir(fs, Parent(p)) then Io(Err(FileNotFoundError), fs)
    else Io(Ok(()), fs.(files := fs.files[p := v]))
  }

  /** The non-empty prefixes of `p`: the directories `os.makedirs(p)` makes. */
  function Prefixes(p: Path): set<Path>
  {
    set k | 1 <= k <= |p| :: p[..k]
  }

  /** `os.makedirs(p)`: creates `p` and its missing ancestors; raises when
      `p` already exists or a file stands in the way. */
  function MakeDirs(fs: Store, p: Path): (r: Io<()>)
    ensures r.result.Ok? <==> !Exists(fs, p) && !AncestorIsFile(fs, p)
    ensures r.result.Ok? ==> IsDir(r.store, p) && r.store.files == fs.files
    ensures r.result.Ok? ==> forall q :: IsDir(fs, q) ==> IsDir(r.store, q)
    ensures r.result.Err? ==> r.store == fs
  {
    if Exists(fs, p) then Io(Err(FileExistsError), fs)
    else if AncestorIsFile(fs, p) then Io(Err(NotADirectoryError), fs)
    else
      assert p != [] && p[..|p|] == p;
      Io(Ok(()), fs.(dirs := fs.dirs + Prefixes(p)))
  }

  /** Every prefix of a directory is a directory. */
  lemma {:induction false} DirPrefixes(fs: Store, p: Path)
    requires WellFormed(fs) && IsDir(fs, p)
    ensures forall k :: 0 <= k <= |p| ==> IsDir(fs, p[..k])
  {
    if p != [] {
      DirPrefixes(fs, Parent(p));
      forall k | 0 <= k <= |p|
        ensures IsDir(fs, p[..k])
      {
        if k < |p| {
          assert p[..k] == Parent(p)[..k];
        } else {
          assert p[..k] == p;
        }
      }
    }
  }

  /** A path whose directory exists is not blocked by a file. */
  lemma {:induction false} ReachableThroughDirs(fs: Store, p: Path)
    requires WellFormed(fs) && IsDir(fs, Parent(p)) && p != []
    ensures !AncestorIsFile(fs, p)
  {
    DirPrefixes(fs, Parent(p));
    forall k | 0 <= k < |p|
      ensures p[..k] !in fs.files
    {
      assert p[..k] == Parent(p)[..k];
    }
  }

  /** In a well-formed store an existing file can always be rewritten. */
  lemma {:induction false} RewriteExisting(fs: Store, p: Path, v: Value)
    requires WellFormed(fs) && p in fs.files
    ensures WriteFile(fs, p, v) == Io(Ok(()), fs.(files := fs.files[p := v]))
  {
    ReachableThroughDirs(fs, p);
  }

  /** Writing and making directories keep a store well-formed. */
  lemma {:induction false} WriteKeepsWellFormed(fs: Store, p: Path, v: Value)
    requires WellFormed(fs)
    ensures WellFormed(WriteFile(fs, p, v).store)
  {
  }

  lemma {:induction false} MakeDirsKeepsWellFormed(fs: Store, p: Path)
    requires WellFormed(fs)
    ensures WellFormed(MakeDirs(fs, p).store)
  {
    var r := MakeDirs(fs, p);
    if r.result.Ok? {
      forall q | q in Prefixes(p)
        ensures q != [] && q !in fs.files && IsDir(r.store, Parent(q))
      {
        var k :| 1 <= k <= |p| && q == p[..k];
        assert Parent(q) == p[..k - 1];
        if k < |p| {
          assert q == p[..k];
        } else {
          assert q == p;
        }
        if k - 1 >= 1 {
          assert Parent(q) in Prefixes(p);
        }
      }
    }
  }

  // ---------------------------------------------------------------------
  // Module functions

  /** `create_missing_directories(filepath)`: makes the directory that holds
      `filepath` when it is missing and returns it; `None` when it exists. */
  function CreateMissingDirectories(fs: Store, filepath: Path): (r: Io<Option<Path>>)
    ensures Exists(fs, Parent(filepath)) ==> r == Io(Ok(None), fs)
    ensures r.result == Ok(None) ==> Exists(fs, Parent(filepath))
    ensures !Exists(fs, Parent(filepath)) && !AncestorIsFile(fs, Parent(filepath)) ==>
      r == Io(Ok(Some(Parent(filepath))), MakeDirs(fs, Parent(filepath)).store)
    ensures !Exists(fs, Parent(filepath)) && AncestorIsFile(fs, Parent(filepath)) ==>
      r == Io(Err(NotADirectoryError), fs)
    ensures r.result.Ok? && r.result.value.Some? ==>
      r.result.value == Some(Parent(filepath)) && IsDir(r.store, Parent(filepath))
    ensures r.store.files == fs.files
    ensures r.result.Err? ==> r.store == fs
  {
    var parent := Parent(filepath);
    if !Exists(fs, parent) then
      var made := MakeDirs(fs, parent);
      if made.result.Err? then Io(Err(made.result.error), fs)
      else Io(Ok(Some(parent)), made.store)
    else Io(Ok(None), fs)
  }

  /** Once it has made the directory, a second call finds it and does nothing. */
  lemma {:induction false} CreateMissingDirectoriesSettles(fs: Store, filepath: Path)
    requires CreateMissingDirectories(fs, filepath).result.Ok?
    ensures var s := CreateMissingDirectories(fs, filepath).store;
      CreateMissingDirectories(s, filepath) == Io(Ok(None), s)
  {
  }

  /** `{**defaults, **user}`: every key of either, the user's value where the
      user has one and the default's elsewhere. */
  function MergeConfigs(defaults: Object, user: Object): (m: Object)
    ensures m.Keys == defaults.Keys + user.Keys
    ensures forall k :: k in user ==> m[k] == user[k]
    ensures forall k :: k in defaults && k !in user ==> m[k] == defaults[k]
  {
    defaults + user
  }

  /** The merge differs from the user's file exactly when the defaults hold a
      key the user's file lacks: that is when `load_config` rewrites it. */
  lemma {:induction false} MergeDiffersIff(defaults: Object, user: Object)
    ensures MergeConfigs(defaults, user) != user <==> exists k :: k in defaults && k !in user
  {
    var m := MergeConfigs(defaults, user);
    if exists k :: k in defaults && k !in user {
      var k :| k in defaults && k !in user;
      assert k in m;
    } else {
      assert m.Keys == user.Keys;
    }
  }

  /** Merging the defaults into a merge changes nothing more. */
  lemma {:induction false} MergeSettles(defaults: Object, user: Object)
    ensures MergeConfigs(defaults, MergeConfigs(defaults, user)) == MergeConfigs(defaults, user)
  {
    MergeDiffersIff(defaults, MergeConfigs(defaults, user));
  }

  // ---------------------------------------------------------------------
  // load_config

  /** What `load_config` does: its result, the store afterwards, and the
      value it assigns to the stored configuration (`None`: left as it was). */
  datatype LoadStep = LoadStep(result: Result<Value, Error>, store: Store, stored: Option<Value>)

  /** `load_config`, on the configuration file at `configPath` and the
      defaults file at `defaultFile`:
      - the defaults are read first, and an error there is raised;
      - with no configuration file the defaults are written there and
        returned, and the stored configuration is left alone;
      - otherwise the file is read (twice: `merge_configs` reads it and
        discards it), merged under the defaults, written back when the merge
        differs, stored and returned. */
  function Load(fs: Store, configPath: Path, defaultFile: Path): (r: LoadStep)
    ensures r.result.Err? ==> r.store == fs && r.stored == None
    ensures r.stored.Some? ==> r.result == Ok(r.stored.value) && r.stored.value.JObject?
    ensures !Exists(fs, configPath) && r.result.Ok? ==>
      && r.stored == None
      && r.result == ReadFile(fs, defaultFile)
      && r.store.files == fs.files[configPath := r.result.value]
    ensures Exists(fs, configPath) && r.result.Ok? ==> r.stored.Some?
  {
    var defaults := ReadFile(fs, defaultFile);
    if defaults.Err? then LoadStep(Err(defaults.error), fs, None)
    else if !Exists(fs, configPath) then
      var w := WriteFile(fs, configPath, defaults.value);
      if w.result.Err? then LoadStep(Err(w.result.error), fs, None)
      else LoadStep(Ok(defaults.value), w.store, None)
    else
      var user := ReadFile(fs, configPath);
      if user.Err? then LoadStep(Err(user.error), fs, None)
      else if !defaults.value.JObject? || !user.value.JObject? then LoadStep(Err(MergeTypeError), fs, None)
      else
        var merged := MergeConfigs(defaults.value.fields, user.value.fields);
        if merged != user.value.fields then
          var w := WriteFile(fs, configPath, JObject(merged));
          if w.result.Err? then LoadStep(Err(w.result.error), fs, None)
          else LoadStep(Ok(JObject(merged)), w.store, Some(JObject(merged)))
        else LoadStep(Ok(JObject(merged)), fs, Some(JObject(merged)))
  }

  /** With an existing configuration file of key/value pairs, the load
      returns and stores the merge, and rewrites the file exactly when the
      defaults hold a key it lacks. */
  lemma {:induction false} LoadMerges(fs: Store, configPath: Path, defaultFile: Path, defaults: Object, user: Object)
    requires WellFormed(fs)
    requires ReadFile(fs, defaultFile) == Ok(JObject(defaults))
    requires ReadFile(fs, configPath) == Ok(JObject(user))
    ensures var r := Load(fs, configPath, defaultFile);
      && r.result == Ok(JObject(MergeConfigs(defaults, user)))
      && r.stored == Some(JObject(MergeConfigs(defaults, user)))
      && (r.store == fs <==> forall k :: k in defaults ==> k in user)
      && r.store.files == fs.files[configPath := JObject(MergeConfigs(defaults, user))]
  {
    var merged := MergeConfigs(defaults, user);
    MergeDiffersIff(defaults, user);
    RewriteExisting(fs, configPath, JObject(merged));
    if merged == user {
      assert fs.files[configPath := JObject(merged)] == fs.files;
    } else {
      assert fs.files[configPath := JObject(merged)][configPath] != fs.files[configPath];
    }
  }

  /** A second load right after a successful one writes nothing and returns
      the same configuration. */
  lemma {:induction false} LoadSettles(fs: Store, configPath: Path, defaultFile: Path)
    requires WellFormed(fs) && configPath != defaultFile
    requires Exists(fs, configPath)
    requires Load(fs, configPath, defaultFile).result.Ok?
    ensures var r := Load(fs, configPath, defaultFile);
      var again := Load(r.store, configPath, defaultFile);
      again == LoadStep(r.result, r.store, r.stored)
  {
    var r := Load(fs, configPath, defaultFile);
    var defaults := ReadFile(fs, defaultFile).value.fields;
    var user := ReadFile(fs, configPath).value.fields;
    LoadMerges(fs, configPath, defaultFile, defaults, user);
    WriteKeepsWellFormed(fs, configPath, JObject(MergeConfigs(defaults, user)));
    MergeSettles(defaults, user);
    LoadMerges(r.store, configPath, defaultFile, defaults, MergeConfigs(defaults, user));
  }

  /** A first load with no configuration file in an existing directory
      writes the defaults and returns them. */
  lemma {:induction false} LoadCreatesFromDefaults(fs: Store, configPath: Path, defaultFile: Path, defaults: Value)
    requires WellFormed(fs) && configPath != []
    requires ReadFile(fs, defaultFile) == Ok(defaults)
    requires !Exists(fs, configPath) && IsDir(fs, Parent(configPath))
    ensures Load(fs, configPath, defaultFile) ==
      LoadStep(Ok(defaults), fs.(files := fs.files[configPath := defaults]), None)
  {
    ReachableThroughDirs(fs, configPath);
  }

  // ---------------------------------------------------------------------
  // create_default_config

  /** `create_default_config` as written: when the file is missing it calls
      `os.makedirs` on the directory unconditionally, which raises
      `FileExistsError` when that directory is already there. */
  function CreateDefaultConfigAsWritten(fs: Store, configPath: Path, defaultFile: Path): (r: Io<()>)
    ensures r.result.Err? ==> r.store == fs
    ensures r.result.Ok? ==> configPath in r.store.files
  {
    var defaults := ReadFile(fs, defaultFile);
    if defaults.Err? then Io(Err(defaults.error), fs)
    else
      var made := if !Exists(fs, configPath) then MakeDirs(fs, Parent(configPath)) else Io(Ok(()), fs);
      if made.result.Err? then Io(Err(made.result.error), fs)
      else
        var w := WriteFile(made.store, configPath, defaults.value);
        if w.result.Err? then Io(Err(w.result.error), fs) else w
  }

  /** The common case fails: a missing file in an existing directory. */
  lemma {:induction false} CreateDefaultConfigFailsInExistingDir(fs: Store, configPath: Path, defaultFile: Path)
    requires ReadFile(fs, defaultFile).Ok?
    requires !Exists(fs, configPath) && IsDir(fs, Parent(configPath))
    ensures CreateDefaultConfigAsWritten(fs, configPath, defaultFile) == Io(Err(FileExistsError), fs)
  {
  }

  /** `create_default_config` with the directory made only when it is
      missing: it writes the defaults whenever the path is reachable. */
  function CreateDefaultConfig(fs: Store, configPath: Path, defaultFile: Path): (r: Io<()>)
    ensures r.result.Err? ==> r.store == fs
    ensures r.result.Ok? ==>
      ReadFile(fs, defaultFile).Ok? && configPath in r.store.files && r.store.files[configPath] == ReadFile(fs, defaultFile).value
  {
    var defaults := ReadFile(fs, defaultFile);
    if defaults.Err? then Io(Err(defaults.error), fs)
    else
      var made := CreateMissingDirectories(fs, configPath);
      if made.result.Err? then Io(Err(made.result.error), fs)
      else
        var w := WriteFile(made.store, configPath, defaults.value);
        if w.result.Err? then Io(Err(w.result.error), fs) else w
  }

  /** The corrected version succeeds in the case the written one fails. */
  lemma {:induction false} CreateDefaultConfigInExistingDir(fs: Store, configPath: Path, defaultFile: Path, defaults: Value)
    requires WellFormed(fs) && configPath != []
    requires ReadFile(fs, defaultFile) == Ok(defaults)
    requires !Exists(fs, configPath) && IsDir(fs, Parent(configPath))
    ensures CreateDefaultConfig(fs, configPath, defaultFile) ==
      Io(Ok(()), fs.(files := fs.files[configPath := defaults]))
  {
    ReachableThroughDirs(fs, configPath);
  }

  // ---------------------------------------------------------------------
  // The manager

  /** Any Python value handed to a setter: only whether it is a `bool` matters. */
  datatype Arg = BoolArg(b: bool) | OtherArg

  /** What the `config_filepath` setter accepts: a `Path`, a `str`, or anything else. */
  datatype PathArg = PathObject(p: Path) | PathString(p: Path) | OtherPath

  const AutoLoadMessage: string := "`auto_load` must be a boolean!"
  const CreateMissingDirsMessage: string := "`create_missing_dirs` must be a boolean value!"
  const ConfigFilepathMessage: string := "The `config_filepath` property must be a string or a Path object!"

  class ConfigManager {
    var configPath: Path
    const defaultConfigFile: Path
    var autoLoad: bool
    var createMissingDirs: bool
    /** `__config`: `None` until a load merges an existing file. */
    var config: Option<Value>

    /** The assignments of `__init__`: the configuration file is `configFile`
        in `configDir`, or in `defaultDir` when no directory is given. */
    constructor (configDir: Option<Path>, configFile: string, autoLoad: bool, createMissingDirs: bool,
                 defaultConfigFile: Path, defaultDir: Path)
      ensures configPath == (if configDir.Some? then configDir.value else defaultDir) + [configFile]
      ensures this.defaultConfigFile == defaultConfigFile
      ensures this.autoLoad == autoLoad && this.createMissingDirs == createMissingDirs
      ensures config == None
    {
      configPath := (if configDir.Some? then configDir.value else defaultDir) + [configFile];
      this.defaultConfigFile := defaultConfigFile;
      this.autoLoad := autoLoad;
      this.createMissingDirs := createMissingDirs;
      config := None;
    }

    /** `ConfigManager(...)`, with the load `__init__` runs when `auto_load`
        is set; an error in that load is raised from the constructor. */
    static method New(configDir: Option<Path>, configFile: string, autoLoad: bool, createMissingDirs: bool,
                      defaultConfigFile: Path, defaultDir: Path, fs: Store)
      returns (r: Result<ConfigManager, Error>, fs': Store)
      ensures var path := (if configDir.Some? then configDir.value else defaultDir) + [configFile];
        var s := Load(fs, path, defaultConfigFile);
        && (!autoLoad ==> r.Ok? && fs' == fs && r.value.config == None)
        && (autoLoad ==> fs' == s.store && (r.Ok? <==> s.result.Ok?))
        && (autoLoad && r.Ok? ==> r.value.config == s.stored)
      ensures r.Ok? ==> fresh(r.value) && r.value.configPath == (if configDir.Some? then configDir.value else defaultDir) + [configFile]
    {
      var m := new ConfigManager(configDir, configFile, autoLoad, createMissingDirs, defaultConfigFile, defaultDir);
      fs' := fs;
      if autoLoad {
        var loaded;
        loaded, fs' := m.LoadConfig(fs);
        if loaded.Err? {
          return Err(loaded.error), fs';
        }
      }
      r := Ok(m);
    }

    /** The `auto_load` setter: a non-bool raises `ValueError` and changes
        nothing; any bool, `False` included, stores `True`. */
    method SetAutoLoad(v: Arg) returns (r: Outcome<Error>)
      modifies this`autoLoad
      ensures r.Pass? <==> v.BoolArg?
      ensures r.Pass? ==> autoLoad
      ensures r.Fail? ==> r.error == ValueError(AutoLoadMessage) && autoLoad == old(autoLoad)
    {
      if !v.BoolArg? {
        return Fail(ValueError(AutoLoadMessage));
      }
      autoLoad := true;
      r := Pass;
    }

    /** The `create_missing_dirs` setter: a non-bool raises `TypeError` and
        changes nothing; a bool is stored. */
    method SetCreateMissingDirs(v: Arg) returns (r: Outcome<Error>)
      modifies this`createMissingDirs
      ensures r.Pass? <==> v.BoolArg?
      ensures r.Pass? ==> createMissingDirs == v.b
      ensures r.Fail? ==> r.error == TypeError(CreateMissingDirsMessage) && createMissingDirs == old(createMissingDirs)
    {
      if !v.BoolArg? {
        return Fail(TypeError(CreateMissingDirsMessage));
      }
      createMissingDirs := v.b;
      r := Pass;
    }

    /** The `config_filepath` setter: a `Path` or a `str` is stored (already
        resolved here); anything else raises `TypeError`. */
    method SetConfigFilepath(v: PathArg) returns (r: Outcome<Error>)
      modifies this`configPath
      ensures r.Pass? <==> !v.OtherPath?
      ensures r.Pass? ==> configPath == v.p
      ensures r.Fail? ==> r.error == TypeError(ConfigFilepathMessage) && configPath == old(configPath)
    {
      if v.OtherPath? {
        return Fail(TypeError(ConfigFilepathMessage));
      }
      configPath := v.p;
      r := Pass;
    }

    /** `load_config()`: the step `Load` describes, with the stored
        configuration stored only when the step assigns it. */
    method LoadConfig(fs: Store) returns (r: Result<Value, Error>, fs': Store)
      modifies this`config
      ensures var s := Load(fs, configPath, defaultConfigFile);
        r == s.result && fs' == s.store && config == (if s.stored.Some? then s.stored else old(config))
    {
      var s := Load(fs, configPath, defaultConfigFile);
      r, fs' := s.result, s.store;
      if s.stored.Some? {
        config := s.stored;
      }
    }

    /** The `config` property: the stored configuration when there is one,
        otherwise a load and whatever it stored, which is still `None` after
        the load that creates the file. */
    method GetConfig(fs: Store) returns (r: Result<Option<Value>, Error>, fs': Store)
      modifies this`config
      ensures old(config).Some? ==> r == Ok(old(config)) && fs' == fs && config == old(config)
      ensures old(config) == None ==>
        var s := Load(fs, configPath, defaultConfigFile);
        && fs' == s.store && config == s.stored
        && (r.Ok? <==> s.result.Ok?) && (r.Ok? ==> r.value == s.stored)
      ensures old(config) == None && !Exists(fs, configPath) && r.Ok? ==> r.value == None
    {
      if config.Some? {
        return Ok(config), fs;
      }
      var loaded;
      loaded, fs' := LoadConfig(fs);
      if loaded.Err? {
        return Err(loaded.error), fs';
      }
      r := Ok(config);
    }

    /** The `config` deleter: it only logs, so the stored configuration stays. */
    method DeleteConfig()
      ensures unchanged(this)
    {
    }

    /** `reload_config()`: the delete that keeps the stored value, then a load;
        when the load does not assign, the old configuration survives. */
    method ReloadConfig(fs: Store) returns (r: Result<Value, Error>, fs': Store)
      modifies this`config
      ensures var s := Load(fs, configPath, defaultConfigFile);
        r == s.result && fs' == s.store && config == (if s.stored.Some? then s.stored else old(config))
    {
      DeleteConfig();
      r, fs' := LoadConfig(fs);
    }

    /** `get(key)`: the key's value in the configuration the `config`
        property yields, `None` for a missing key, and `AttributeError` when
        that configuration is `None`. */
    method Get(key: string, fs: Store) returns (r: Result<Option<Value>, Error>, fs': Store)
      modifies this`config
      ensures old(config).Some? && old(config).value.JObject? ==>
        var m := old(config).value.fields;
        r == Ok(if key in m then Some(m[key]) else None) && fs' == fs
      ensures old(config) == None && !Exists(fs, configPath) ==> r.Err?
      ensures r.Ok? ==>
        && config.Some? && config.value.JObject?
        && r == Ok(if key in config.value.fields then Some(config.value.fields[key]) else None)
    {
      var c;
      c, fs' := GetConfig(fs);
      if c.Err? {
        return Err(c.error), fs';
      }
      if c.value.None? || !c.value.value.JObject? {
        return Err(AttributeError), fs';
      }
      var m := c.value.value.fields;
      r := Ok(if key in m then Some(m[key]) else None);
    }

    /** The existence guard that opens `create_blank_config` and
        `prepare_config_path`. */
    predicate FileGuard(fs: Store)
      reads this
    {
      Exists(fs, configPath)
    }

    /** `prepare_config_path()`: raises `FileExistsError` when the file is
        there; otherwise makes its directory when that is missing and
        `create_missing_dirs` is set. Files are never touched. */
    function PrepareConfigPath(fs: Store): (r: Io<()>)
      reads this
      ensures FileGuard(fs) ==> r == Io(Err(FileExistsError), fs)
      ensures r.store.files == fs.files
      ensures r.result.Ok? && createMissingDirs ==> Exists(r.store, Parent(configPath))
      ensures r.result.Ok? && !createMissingDirs ==> r.store == fs
    {
      if FileGuard(fs) then Io(Err(FileExistsError), fs)
      else if !Exists(fs, Parent(configPath)) && createMissingDirs then
        var made := CreateMissingDirectories(fs, configPath);
        if made.result.Err? then Io(Err(made.result.error), fs) else Io(Ok(()), made.store)
      else Io(Ok(()), fs)
    }

    /** `create_blank_config()` as written: the directory handed to
        `create_missing_directories` is the configuration's directory, so
        only its parent is made, and the save sits inside the branch for a
        missing directory. */
    function CreateBlankConfigAsWritten(fs: Store): (r: Io<()>)
      reads this
      ensures FileGuard(fs) ==> r == Io(Err(FileExistsError), fs)
    {
      var parent := Parent(configPath);
      if FileGuard(fs) then Io(Err(FileExistsError), fs)
      else if !Exists(fs, parent) then
        var made := if createMissingDirs then CreateMissingDirectories(fs, parent) else Io(Ok(None), fs);
        if made.result.Err? then Io(Err(made.result.error), fs)
        else
          var defaults := ReadFile(made.store, defaultConfigFile);
          if defaults.Err? then Io(Err(defaults.error), made.store)
          else WriteFile(made.store, configPath, defaults.value)
      else Io(Ok(()), fs)
    }

    /** The written version never creates the configuration file: with the
        directory present it does nothing, and with it missing the save
        cannot reach it. */
    lemma {:induction false} CreateBlankConfigNeverWrites(fs: Store)
      requires !FileGuard(fs)
      ensures configPath !in CreateBlankConfigAsWritten(fs).store.files
      ensures CreateBlankConfigAsWritten(fs).store.files == fs.files
      ensures !Exists(fs, Parent(configPath)) ==> CreateBlankConfigAsWritten(fs).result.Err?
    {
      var parent := Parent(configPath);
      if !Exists(fs, parent) {
        var made := if createMissingDirs then CreateMissingDirectories(fs, parent) else Io(Ok(None), fs);
        if made.result.Ok? && createMissingDirs && made.result.value.Some? {
          var q := Parent(parent);
          assert parent !in Prefixes(q);
        }
        assert !IsDir(made.store, parent);
      }
    }

    /** `create_blank_config()` as evidently intended: `prepare_config_path`
        (which makes the configuration's own directory), then the defaults
        saved whether or not the directory had to be made. */
    function CreateBlankConfig(fs: Store): (r: Io<()>)
      reads this
      ensures FileGuard(fs) ==> r == Io(Err(FileExistsError), fs)
      ensures r.result.Ok? ==> configPath in r.store.files
    {
      var prepared := PrepareConfigPath(fs);
      if prepared.result.Err? then prepared
      else
        var defaults := ReadFile(prepared.store, defaultConfigFile);
        if defaults.Err? then Io(Err(defaults.error), prepared.store)
        else WriteFile(prepared.store, configPath, defaults.value)
    }

    /** The intended version creates the file from the defaults whenever the
        path is free and reachable. */
    lemma {:induction false} CreateBlankConfigWrites(fs: Store, defaults: Value)
      requires WellFormed(fs) && configPath != [] && defaultConfigFile != configPath
      requires !FileGuard(fs) && (createMissingDirs || IsDir(fs, Parent(configPath)))
      requires !AncestorIsFile(fs, Parent(configPath)) && Parent(configPath) !in fs.files
      requires ReadFile(fs, defaultConfigFile) == Ok(defaults)
      ensures CreateBlankConfig(fs).result.Ok?
      ensures CreateBlankConfig(fs).store.files == fs.files[configPath := defaults]
    {
      var prepared := PrepareConfigPath(fs);
      var parent := Parent(configPath);
      if !Exists(fs, parent) && createMissingDirs {
        MakeDirsKeepsWellFormed(fs, parent);
      }
      assert prepared.result.Ok? && IsDir(prepared.store, parent);
      assert WellFormed(prepared.store);
      ReachableThroughDirs(prepared.store, configPath);
    }

    /** `assess_config()` as written: with no file at the path it calls the
        written `create_blank_config()`, so the files never change; with the
        directory present nothing at all happens. */
    function AssessConfig(fs: Store): (r: Io<()>)
      reads this
      ensures FileGuard(fs) ==> r == Io(Ok(()), fs)
      ensures r.store.files == fs.files
      ensures !FileGuard(fs) && Exists(fs, Parent(configPath)) ==> r == Io(Ok(()), fs)
    {
      if FileGuard(fs) then Io(Ok(()), fs)
      else
        CreateBlankConfigNeverWrites(fs);
        CreateBlankConfigAsWritten(fs)
    }

    /** `assess_config()` over the intended `create_blank_config()`: with no
        file at the path, a free and reachable path receives the defaults. */
    function AssessConfigIntended(fs: Store): (r: Io<()>)
      reads this
      ensures FileGuard(fs) ==> r == Io(Ok(()), fs)
      ensures !FileGuard(fs) && r.result.Ok? ==> configPath in r.store.files
    {
      if FileGuard(fs) then Io(Ok(()), fs) else CreateBlankConfig(fs)
    }

    /** The intended assessment creates the file from the defaults whenever
        the path is free and reachable, where the written one creates nothing. */
    lemma {:induction false} AssessConfigIntendedWrites(fs: Store, defaults: Value)
      requires WellFormed(fs) && configPath != [] && defaultConfigFile != configPath
      requires !FileGuard(fs) && (createMissingDirs || IsDir(fs, Parent(configPath)))
      requires !AncestorIsFile(fs, Parent(configPath)) && Parent(configPath) !in fs.files
      requires ReadFile(fs, defaultConfigFile) == Ok(defaults)
      ensures AssessConfigIntended(fs).result.Ok?
      ensures AssessConfigIntended(fs).store.files == fs.files[configPath := defaults]
      ensures configPath !in AssessConfig(fs).store.files
    {
      CreateBlankConfigWrites(fs, defaults);
    }
  }
}
