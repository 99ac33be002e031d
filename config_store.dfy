/**
  The configuration store of models/config.py: `load` merges the file with
  `DEFAULT_ORDER_VALUES`, `save` writes it back (a failure becomes a
  ConfigurationError), and `resolve_osr` picks the effective OSR id.
 */
module ConfigStore {
  import opened Wrappers
  import opened PyDict
  import opened Defaults

  /** The configuration file as `load` finds it. */
  datatype ConfigFile = Missing | Invalid | Parsed(contents: Config)

  /** The merge loop of `load`: each default whose key the file lacks is added, in the defaults' order. */
  function Merged(config: Config, defaults: Config): Config
    decreases |defaults|
  {
    if defaults == [] then config
    else
      var (k, v) := defaults[0];
      Merged(if HasKey(config, k) then config else Put(config, k, v), defaults[1..])
  }

  /** What `load` returns: the merged file, or a copy of the defaults when the file is missing or is not JSON. */
  function Loaded(f: ConfigFile): Config {
    match f
    case Missing => DefaultOrderValues()
    case Invalid => DefaultOrderValues()
    case Parsed(c) => Merged(c, DefaultOrderValues())
  }

  /** The merge never overwrites an entry read from the file. */
  lemma {:induction false} MergeKeepsFileEntries(config: Config, defaults: Config, k: string)
    requires HasKey(config, k)
    ensures Get(Merged(config, defaults), k) == Get(config, k)
    decreases |defaults|
  {
    if defaults != [] {
      var (k0, v0) := defaults[0];
      var next := if HasKey(config, k0) then config else Put(config, k0, v0);
      assert HasKey(next, k) && Get(next, k) == Get(config, k);
      MergeKeepsFileEntries(next, defaults[1..], k);
    }
  }

  /**
    After the merge every default key is present; a key the file lacked
    takes its default value.
   */
  lemma {:induction false} MergeAddsDefaults(config: Config, defaults: Config, k: string)
    requires Unique(defaults) && HasKey(defaults, k)
    ensures HasKey(Merged(config, defaults), k)
    ensures !HasKey(config, k) ==> Get(Merged(config, defaults), k) == Get(defaults, k)
    decreases |defaults|
  {
    var (k0, v0) := defaults[0];
    var next := if HasKey(config, k0) then config else Put(config, k0, v0);
    GetCons(defaults[0], defaults[1..], k);
    assert defaults == [defaults[0]] + defaults[1..];
    if k0 == k {
      assert HasKey(next, k);
      MergeKeepsFileEntries(next, defaults[1..], k);
      if !HasKey(config, k) {
        assert Get(next, k) == Some(v0);
      }
    } else {
      assert HasKey(defaults[1..], k);
      assert Unique(defaults[1..]) by {
        forall i, j | 0 <= i < j < |defaults[1..]| ensures defaults[1..][i].0 != defaults[1..][j].0 {
          assert defaults[1..][i] == defaults[i + 1] && defaults[1..][j] == defaults[j + 1];
        }
      }
      assert HasKey(next, k) <==> HasKey(config, k);
      MergeAddsDefaults(next, defaults[1..], k);
    }
  }

  /** The merge keys are the file's keys followed by the missing defaults; it keeps keys unique. */
  lemma {:induction false} MergeUnique(config: Config, defaults: Config)
    requires Unique(config)
    ensures Unique(Merged(config, defaults))
    decreases |defaults|
  {
    if defaults != [] {
      var (k0, v0) := defaults[0];
      var next := if HasKey(config, k0) then config else Put(config, k0, v0);
      MergeUnique(next, defaults[1..]);
    }
  }

  /** A file that already holds every default key loads back exactly as it was saved. */
  lemma {:induction false} MergeComplete(config: Config, defaults: Config)
    requires forall k :: HasKey(defaults, k) ==> HasKey(config, k)
    ensures Merged(config, defaults) == config
    decreases |defaults|
  {
    if defaults != [] {
      assert Keys(defaults)[0] == defaults[0].0;
      assert forall k :: HasKey(defaults[1..], k) ==> HasKey(defaults, k) by {
        forall k | HasKey(defaults[1..], k) ensures HasKey(defaults, k) {
          GetCons(defaults[0], defaults[1..], k);
          assert defaults == [defaults[0]] + defaults[1..];
        }
      }
      MergeComplete(config, defaults[1..]);
    }
  }

  /**
    Whatever the file holds, the loaded configuration has every default
    key; entries read from the file are kept as they were, and a default
    key the file lacks takes its default value.
   */
  lemma {:induction false} LoadedHasDefaults(f: ConfigFile, k: string)
    requires HasKey(DefaultOrderValues(), k)
    ensures HasKey(Loaded(f), k)
    ensures f.Parsed? && HasKey(f.contents, k) ==> Get(Loaded(f), k) == Get(f.contents, k)
    ensures !(f.Parsed? && HasKey(f.contents, k)) ==> Get(Loaded(f), k) == Get(DefaultOrderValues(), k)
  {
    DefaultsUnique();
    LoadedFromHasDefaults(f, DefaultOrderValues(), k);
  }

  lemma {:induction false} LoadedFromHasDefaults(f: ConfigFile, defaults: Config, k: string)
    requires Unique(defaults) && HasKey(defaults, k)
    ensures var r := if f.Parsed? then Merged(f.contents, defaults) else defaults;
      && HasKey(r, k)
      && (f.Parsed? && HasKey(f.contents, k) ==> Get(r, k) == Get(f.contents, k))
      && (!(f.Parsed? && HasKey(f.contents, k)) ==> Get(r, k) == Get(defaults, k))
  {
    if f.Parsed? {
      MergeAddsDefaults(f.contents, defaults, k);
      if HasKey(f.contents, k) {
        MergeKeepsFileEntries(f.contents, defaults, k);
      }
    }
  }

  /** A saved configuration that holds every default key loads back unchanged. */
  lemma {:induction false} SaveThenLoad(config: Config)
    requires forall k :: HasKey(DefaultOrderValues(), k) ==> HasKey(config, k)
    ensures Loaded(Parsed(config)) == config
  {
    MergeComplete(config, DefaultOrderValues());
  }

  /** The merge loop of `load`: `config[key] = value` for every default key not yet in `config`. */
  method MergeDefaults(file: Config, defaults: Config) returns (config: Config)
    ensures config == Merged(file, defaults)
  {
    config := file;
    var i := 0;
    while i < |defaults|
      invariant 0 <= i <= |defaults|
      invariant Merged(config, defaults[i..]) == Merged(file, defaults)
    {
      assert defaults[i..][1..] == defaults[i + 1..];
      var (k, v) := defaults[i];
      if !HasKey(config, k) {
        config := Put(config, k, v);
      }
      i := i + 1;
    }
  }

  /** The configuration file, read by `load` and written by `save`. */
  class ConfigManager {
    var file: ConfigFile

    constructor(file: ConfigFile)
      ensures this.file == file
    {
      this.file := file;
    }

    /** `load`. */
    method Load() returns (config: Config)
      ensures config == Loaded(file)
    {
      if !file.Parsed? {
        return DefaultOrderValues();
      }
      config := MergeDefaults(file.contents, DefaultOrderValues());
    }

    /**
      `save`: when the file can be written it holds `config` afterwards;
      otherwise ConfigurationError is raised and the file is as it was.
     */
    method Save(config: Config, writable: bool) returns (raised: bool)
      modifies this
      ensures raised <==> !writable
      ensures writable ==> file == Parsed(config)
      ensures !writable ==> file == old(file)
    {
      if !writable {
        return true;
      }
      file := Parsed(config);
      return false;
    }
  }

  /** A configuration value as text: the string of a `Text` entry, `""` for any other kind. */
  function TextOf(v: ConfigValue): string {
    if v.Text? then v.text else ""
  }

  /**
    `resolve_osr`: the `"osr_id"` entry when the key exists (even when it is
    empty), else the `OSR_ID` environment variable, else `""`.
   */
  function ResolveOsr(config: Config, envOsrId: Option<string>): (r: string)
    ensures HasKey(config, "osr_id") ==> r == TextOf(Get(config, "osr_id").value)
    ensures !HasKey(config, "osr_id") && envOsrId.Some? ==> r == envOsrId.value
    ensures !HasKey(config, "osr_id") && envOsrId.None? ==> r == ""
  {
    match Get(config, "osr_id")
    case Some(v) => TextOf(v)
    case None => if envOsrId.Some? then envOsrId.value else ""
  }
}
