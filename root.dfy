/** The root command's start-up: `initConfig` loads the configuration before
    any command runs and stops the program when no key is found, unless the
    command line is `geminiz set key ...`, which is how a key gets set in the
    first place. The argument vector is `os.Args`, program name first. */
module Root {
  import opened Configuration

  /** `isSetKeyCommand`. */
  predicate IsSetKeyCommand(args: seq<string>) {
    if |args| >= 3 then args[1] == "set" && args[2] == "key" else false
  }

  /** What start-up does after loading the configuration. */
  datatype Decision =
    | Continue
    | Exit(reason: LoadError)  // the error is reported and the process exits with status 1

  /** `initConfig`. */
  method InitConfig(cfg: Config, args: seq<string>, env: Option<string>, store: ConfigStore) returns (d: Decision)
    modifies cfg`APIKey
    ensures d.Exit? <==> Load(env, store.dirKnown, store.file).Err? && !IsSetKeyCommand(args)
    ensures d.Exit? ==> d.reason == Load(env, store.dirKnown, store.file).error
    ensures Load(env, store.dirKnown, store.file).Ok? ==> cfg.APIKey == Load(env, store.dirKnown, store.file).value
    ensures Load(env, store.dirKnown, store.file).Err? ==> cfg.APIKey == old(cfg.APIKey)
    ensures cfg.Model == old(cfg.Model)
  {
    var err := LoadConfig(cfg, env, store);
    if err.Some? {
      if !IsSetKeyCommand(args) {
        return Exit(err.value);
      }
    }
    return Continue;
  }

  /** With fewer than three words the command line is never `set key`. */
  lemma ShortArgsNotSetKey(args: seq<string>)
    requires |args| < 3
    ensures !IsSetKeyCommand(args)
  {
  }

  /** Words after the third do not change the verdict. */
  lemma SetKeyIgnoresTrailingArgs(args: seq<string>, extra: seq<string>)
    requires |args| >= 3
    ensures IsSetKeyCommand(args + extra) == IsSetKeyCommand(args)
  {
    assert (args + extra)[1] == args[1] && (args + extra)[2] == args[2];
  }

  /** Start-up with a non-empty key in the environment never exits, whatever
      the file system holds. */
  method StartWithEnvironmentKey(args: seq<string>, envKey: string, dirKnown: bool, file: Option<string>) returns (d: Decision, key: string)
    requires envKey != ""
    ensures d == Continue && key == envKey
  {
    var cfg := new Config();
    var store := new ConfigStore(dirKnown, file);
    d := InitConfig(cfg, args, Some(envKey), store);
    key := cfg.APIKey;
  }

  /** `geminiz set key ...` always gets past start-up, whatever the
      environment and the file system hold: it is how a key is set. */
  method SetKeyAlwaysStarts(args: seq<string>, env: Option<string>, dirKnown: bool, file: Option<string>) returns (d: Decision, key: string)
    requires |args| >= 3 && args[1] == "set" && args[2] == "key"
    ensures d == Continue
    ensures Load(env, dirKnown, file).Ok? ==> key == Load(env, dirKnown, file).value
    ensures Load(env, dirKnown, file).Err? ==> key == ""
  {
    var cfg := new Config();
    var store := new ConfigStore(dirKnown, file);
    d := InitConfig(cfg, args, env, store);
    key := cfg.APIKey;
  }

  /** On a fresh installation (no environment key, no key file) every
      command that runs, other than `set key`, makes start-up exit, and
      `set key` can run. */
  method StartFresh(args: seq<string>) returns (d: Decision)
    ensures d.Exit? <==> !IsSetKeyCommand(args)
    ensures d.Exit? ==> d.reason == KeyFileMissing
  {
    var cfg := new Config();
    var store := new ConfigStore(true, None);
    d := InitConfig(cfg, args, None, store);
  }
}
