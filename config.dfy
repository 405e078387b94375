/** The credential configuration: the `Config` record with the API key and
    the model name, `set key` saving the key to the per-user key file, and
    `loadConfig` taking the key from the environment or from that file.
    The environment variable is an optional string; the file system is a
    `ConfigStore` holding the key file's text, with the failures of its
    steps passed in as parameters. */
module Configuration {
  import opened Text

  datatype Option<T> = None | Some(value: T)

  datatype Result<T, E> = Ok(value: T) | Err(error: E)

  /** The model named when nothing else is configured. */
  const DefaultModel: string := "gemini-1.5-flash"

  /** The start of the key file's key line: the variable's name and `=`. */
  const KeyPrefix: string := "GEMINI_API_KEY="

  /** The application configuration. */
  class Config {
    var APIKey: string
    var Model: string

    /** The global `config` as the program starts. */
    constructor ()
      ensures APIKey == "" && Model == DefaultModel
    {
      APIKey := "";
      Model := DefaultModel;
    }
  }

  /** The per-user configuration directory and the key file
      `<dir>/geminiz/config` in it. */
  class ConfigStore {
    /** Whether `os.UserConfigDir` finds the directory. */
    const dirKnown: bool
    /** The key file's text; `None` when it does not exist or cannot be opened. */
    var file: Option<string>

    constructor (dirKnown: bool, file: Option<string>)
      ensures this.dirKnown == dirKnown && this.file == file
    {
      this.dirKnown := dirKnown;
      this.file := file;
    }
  }

  /** A file-system step of `saveAPIKey` that fails. */
  datatype SaveFault = MkdirFails | CreateFails | WriteFails

  datatype SaveError = SaveDirUnknown | MkdirFailed | CreateFailed | WriteFailed

  datatype SetKeyError = EmptyKey | SaveFailed(cause: SaveError)

  datatype LoadError =
    | LoadDirUnknown  // "unable to determine config directory"
    | KeyFileMissing  // "API key not found. Use 'geminiz set key <GEMINI_API_KEY>' to set it"
    | KeyNotInFile    // "API key not found in config file"

  /** The text `saveAPIKey` writes for `apiKey`. */
  function KeyLine(apiKey: string): string {
    KeyPrefix + apiKey + "\n"
  }

  /** `saveAPIKey`: creates the directory, creates (truncating) the key file
      and writes the key line; each step can fail. */
  method SaveAPIKey(store: ConfigStore, apiKey: string, fault: Option<SaveFault>) returns (err: Option<SaveError>)
    modifies store
    ensures err == None <==> store.dirKnown && fault == None
    ensures err == None ==> store.file == Some(KeyLine(apiKey))
    ensures !store.dirKnown ==> err == Some(SaveDirUnknown) && store.file == old(store.file)
    ensures store.dirKnown && fault == Some(MkdirFails) ==> err == Some(MkdirFailed) && store.file == old(store.file)
    ensures store.dirKnown && fault == Some(CreateFails) ==> err == Some(CreateFailed) && store.file == old(store.file)
    ensures store.dirKnown && fault == Some(WriteFails) ==> err == Some(WriteFailed) && store.file == Some("")
  {
    if !store.dirKnown {
      return Some(SaveDirUnknown);
    }
    match fault {
      case Some(MkdirFails) =>
        return Some(MkdirFailed);
      case Some(CreateFails) =>
        return Some(CreateFailed);
      case Some(WriteFails) =>
        store.file := Some("");  // os.Create has truncated the file
        return Some(WriteFailed);
      case None =>
        store.file := Some("");  // os.Create
        store.file := Some(KeyLine(apiKey));  // fmt.Fprintf
        return None;
    }
  }

  /** `runSetKey`: rejects an empty key, otherwise saves it. */
  method RunSetKey(store: ConfigStore, apiKey: string, fault: Option<SaveFault>) returns (err: Option<SetKeyError>)
    modifies store
    ensures apiKey == "" ==> err == Some(EmptyKey) && store.file == old(store.file)
    ensures apiKey != "" && !store.dirKnown ==> err == Some(SaveFailed(SaveDirUnknown)) && store.file == old(store.file)
    ensures apiKey != "" && store.dirKnown && fault == Some(MkdirFails) ==> err == Some(SaveFailed(MkdirFailed)) && store.file == old(store.file)
    ensures apiKey != "" && store.dirKnown && fault == Some(CreateFails) ==> err == Some(SaveFailed(CreateFailed)) && store.file == old(store.file)
    ensures apiKey != "" && store.dirKnown && fault == Some(WriteFails) ==> err == Some(SaveFailed(WriteFailed)) && store.file == Some("")
    ensures apiKey != "" && store.dirKnown && fault == None ==> err == None && store.file == Some(KeyLine(apiKey))
  {
    if apiKey == "" {
      return Some(EmptyKey);
    }
    var saveErr := SaveAPIKey(store, apiKey, fault);
    if saveErr.Some? {
      return Some(SaveFailed(saveErr.value));
    }
    return None;
  }

  /** `os.Getenv`: the empty string for an unset variable. */
  function Getenv(env: Option<string>): string {
    if env.Some? then env.value else ""
  }

  /** The key on the first line that starts with the key prefix. */
  function FindKey(lines: seq<string>): Option<string>
    decreases |lines|
  {
    if lines == [] then None
    else if HasPrefix(lines[0], KeyPrefix) then Some(TrimPrefix(lines[0], KeyPrefix))
    else FindKey(lines[1..])
  }

  /** What `loadConfig` decides: the environment's key if it is not empty,
      otherwise the key in the key file. */
  function Load(env: Option<string>, dirKnown: bool, file: Option<string>): Result<string, LoadError> {
    if Getenv(env) != "" then Ok(Getenv(env))
    else if !dirKnown then Err(LoadDirUnknown)
    else if file.None? then Err(KeyFileMissing)
    else match FindKey(SplitLines(file.value))
      case Some(key) => Ok(key)
      case None => Err(KeyNotInFile)
  }

  /** `loadConfig`: sets `APIKey` from the environment or from the first
      key line of the key file, and leaves it alone when neither has one. */
  method LoadConfig(cfg: Config, env: Option<string>, store: ConfigStore) returns (err: Option<LoadError>)
    modifies cfg`APIKey
    ensures cfg.Model == old(cfg.Model)
    ensures Load(env, store.dirKnown, store.file).Ok? ==> err == None && cfg.APIKey == Load(env, store.dirKnown, store.file).value
    ensures Load(env, store.dirKnown, store.file).Err? ==> err == Some(Load(env, store.dirKnown, store.file).error) && cfg.APIKey == old(cfg.APIKey)
  {
    var envKey := Getenv(env);
    if envKey != "" {
      cfg.APIKey := envKey;
      return None;
    }
    if !store.dirKnown {
      return Some(LoadDirUnknown);
    }
    if store.file.None? {
      return Some(KeyFileMissing);
    }
    var lines := SplitLines(store.file.value);
    var i := 0;
    while i < |lines|
      invariant 0 <= i <= |lines|
      invariant FindKey(lines[i..]) == FindKey(lines)
      invariant cfg.APIKey == old(cfg.APIKey)
    {
      var line := lines[i];
      if HasPrefix(line, KeyPrefix) {
        cfg.APIKey := TrimPrefix(line, KeyPrefix);
        return None;
      }
      assert lines[i..][1..] == lines[i + 1..];
      i := i + 1;
    }
    return Some(KeyNotInFile);
  }

  // ---------------------------------------------------------------------
  // Properties

  /** The key is taken from the first key line, whatever comes after it. */
  lemma {:induction false} FindKeyFirstLine(lines: seq<string>, i: nat)
    requires i < |lines| && HasPrefix(lines[i], KeyPrefix)
    requires forall j :: 0 <= j < i ==> !HasPrefix(lines[j], KeyPrefix)
    ensures FindKey(lines) == Some(lines[i][|KeyPrefix|..])
    decreases i
  {
    if i > 0 {
      FindKeyFirstLine(lines[1..], i - 1);
    }
  }

  /** No key is found exactly when no line starts with the prefix. */
  lemma {:induction false} FindKeyNone(lines: seq<string>)
    ensures FindKey(lines) == None <==> forall j :: 0 <= j < |lines| ==> !HasPrefix(lines[j], KeyPrefix)
    decreases |lines|
  {
    if lines != [] {
      FindKeyNone(lines[1..]);
      if !HasPrefix(lines[0], KeyPrefix) {
        assert forall j :: 1 <= j < |lines| ==> lines[j] == lines[1..][j - 1];
      }
    }
  }

  /** Lines after a key line never matter. */
  lemma {:induction false} FindKeyIgnoresLater(lines: seq<string>, more: seq<string>)
    requires FindKey(lines).Some?
    ensures FindKey(lines + more) == FindKey(lines)
    decreases |lines|
  {
    assert (lines + more)[0] == lines[0];
    if !HasPrefix(lines[0], KeyPrefix) {
      assert (lines + more)[1..] == lines[1..] + more;
      FindKeyIgnoresLater(lines[1..], more);
    }
  }

  /** A non-empty environment value is the key, whatever the file says. */
  lemma EnvironmentFirst(env: Option<string>, dirKnown: bool, file: Option<string>)
    requires env.Some? && env.value != ""
    ensures Load(env, dirKnown, file) == Ok(env.value)
  {
  }

  /** Saving a key and loading it back, with the environment variable unset
      or empty, gives the key: the file holds exactly one line, the key line. */
  lemma SaveThenLoad(apiKey: string, env: Option<string>)
    requires '\n' !in apiKey && (apiKey == "" || apiKey[|apiKey| - 1] != '\r')
    requires Getenv(env) == ""
    ensures SplitLines(KeyLine(apiKey)) == [KeyPrefix + apiKey]
    ensures Load(env, true, Some(KeyLine(apiKey))) == Ok(apiKey)
  {
    var line := KeyPrefix + apiKey;
    assert '\n' !in line by {
      assert forall k :: 0 <= k < |KeyPrefix| ==> KeyPrefix[k] != '\n';
      assert forall k :: |KeyPrefix| <= k < |line| ==> line[k] == apiKey[k - |KeyPrefix|];
    }
    SplitLinesFirst(line, "");
    assert KeyLine(apiKey) == line + "\n" + "";
    assert DropCR(line) == line;
    assert line[..|KeyPrefix|] == KeyPrefix;
  }

  /** `bufio.ScanLines` drops a carriage return before the line end, so a
      key ending in `'\r'` comes back without it. */
  lemma CarriageReturnLost(apiKey: string)
    requires '\n' !in apiKey
    ensures Load(None, true, Some(KeyLine(apiKey + "\r"))) == Ok(apiKey)
  {
    var line := KeyPrefix + apiKey + "\r";
    assert '\n' !in line by {
      assert forall k :: 0 <= k < |KeyPrefix| ==> KeyPrefix[k] != '\n';
      assert forall k :: |KeyPrefix| <= k < |line| - 1 ==> line[k] == apiKey[k - |KeyPrefix|];
    }
    SplitLinesFirst(line, "");
    assert KeyLine(apiKey + "\r") == line + "\n" + "";
    assert DropCR(line) == KeyPrefix + apiKey;
    assert (KeyPrefix + apiKey)[..|KeyPrefix|] == KeyPrefix;
  }

  /** `geminiz set key K` followed by a later start with the environment
      variable unset: the loaded key is `K`, and the model is the default. */
  method SetKeyThenLoad(apiKey: string) returns (err: Option<SetKeyError>, loaded: string, model: string)
    requires '\n' !in apiKey && (apiKey == "" || apiKey[|apiKey| - 1] != '\r')
    ensures apiKey == "" ==> err == Some(EmptyKey)
    ensures apiKey != "" ==> err == None && loaded == apiKey
    ensures model == DefaultModel
  {
    var store := new ConfigStore(true, None);
    err := RunSetKey(store, apiKey, None);
    var cfg := new Config();
    var loadErr := LoadConfig(cfg, None, store);
    if apiKey != "" {
      SaveThenLoad(apiKey, None);
    }
    loaded, model := cfg.APIKey, cfg.Model;
  }
}
