/**
  The OSR id screen of controllers/config_controller.py: it shows the
  current OSR id, reads a new one, sets or removes the `osr_id` entry of
  the configuration, saves it and reports what the OSR id now comes from.
 */
module ConfigController {
  import opened Wrappers
  import opened PyText
  import opened PyDict
  import opened Terminal
  import opened UiUtils
  import opened Defaults
  import ConfigStore

  /** `os.environ.get("OSR_ID", "")`. */
  function EnvText(envOsrId: Option<string>): string {
    if envOsrId.Some? then envOsrId.value else ""
  }

  /** `min(width - 8, 70)`. */
  function DialogWidth(screen: Screen): (w: int)
    ensures w <= 70 && w <= screen.width - 8
    ensures w == 70 || w == screen.width - 8
  {
    if screen.width - 8 < 70 then screen.width - 8 else 70
  }

  /** The `n` of `getstr`: one less than the input field, which is eight narrower than the dialog. */
  function InputLimit(screen: Screen): (n: int)
    ensures n == DialogWidth(screen) - 9
    ensures n <= 61
    ensures UsableScreen(screen) ==> n >= 23
  {
    DialogWidth(screen) - 8 - 1
  }

  /** The colour of the current value. */
  datatype Shade = ShadeSuccess | ShadeInfo | ShadeWarning

  /**
    The current value the dialog shows: `config.get("osr_id", env)`, which
    is what `resolve_osr` gives, when it is not empty, else the
    environment's value, else a note that none is configured.
   */
  function CurrentValue(config: Config, envOsrId: Option<string>): (r: (string, Shade))
    ensures var current := ConfigStore.ResolveOsr(config, envOsrId);
      && (current != "" ==> r == (current, ShadeSuccess))
      && (current == "" && EnvText(envOsrId) != "" ==> r == ("(environment: " + EnvText(envOsrId) + ")", ShadeInfo))
      && (current == "" && EnvText(envOsrId) == "" ==> r == ("(not configured)", ShadeWarning))
  {
    var current := ConfigStore.ResolveOsr(config, envOsrId);
    if current != "" then (current, ShadeSuccess)
    else if EnvText(envOsrId) != "" then ("(environment: " + EnvText(envOsrId) + ")", ShadeInfo)
    else ("(not configured)", ShadeWarning)
  }

  /** The configuration after the input: set `osr_id` to a non-empty input, remove it for an empty one. */
  function OsrUpdated(config: Config, entered: string): (r: Config)
    requires Unique(config)
    ensures entered != "" ==> Get(r, "osr_id") == Some(Text(entered))
    ensures entered == "" ==> !HasKey(r, "osr_id")
    ensures forall k :: k != "osr_id" ==> Get(r, k) == Get(config, k)
    ensures Unique(r)
  {
    if entered != "" then Put(config, "osr_id", Text(entered)) else Pop(config, "osr_id")
  }

  /** The message box after saving: its text and `display_dialog` type. */
  function OsrMessage(entered: string, envOsrId: Option<string>): (m: (string, string))
    ensures m.1 == "warning" <==> entered == "" && EnvText(envOsrId) == ""
    ensures m.1 == "success" <==> !(entered == "" && EnvText(envOsrId) == "")
  {
    if entered != "" then ("OK OSR ID updated to: " + entered, "success")
    else if EnvText(envOsrId) != "" then ("OK OSR ID cleared - now using environment: " + EnvText(envOsrId), "success")
    else ("! OSR ID cleared - environment variable OSR_ID not set!", "warning")
  }

  /** How `configure_osr_id` ends. */
  datatype OsrEnd =
    | OsrCancelled                                     // Ctrl+C at the prompt: nothing changes
    | OsrSaveFailed(config: Config)                    // `save` raised after the update
    | OsrSet(config: Config, message: string, kind: string)

  /**
    The outcome of `configure_osr_id` for the size query `q` answered and
    what is read at the prompt; the size comes from `get_screen_size`, so
    the `getstr` length is never negative.
   */
  function ConfigureOsrRun(q: SizeQuery, config: Config, envOsrId: Option<string>, read: Read, writable: bool): OsrEnd
    requires Unique(config)
  {
    var limit := InputLimit(GetScreenSize(q));
    match ReadLine(read, limit)
      case None => OsrCancelled
      case Some(entered) =>
        var updated := OsrUpdated(config, entered);
        if !writable then OsrSaveFailed(updated)
        else var (msg, kind) := OsrMessage(entered, envOsrId); OsrSet(updated, msg, kind)
  }

  /**
    After the OSR id screen, the OSR id the application resolves is the
    stripped input when one was typed, and the environment's otherwise.
   */
  lemma {:induction false} ConfiguredOsrResolves(q: SizeQuery, config: Config, envOsrId: Option<string>, read: Read, writable: bool)
    requires Unique(config)
    requires ConfigureOsrRun(q, config, envOsrId, read, writable).OsrSet?
    ensures var e := ConfigureOsrRun(q, config, envOsrId, read, writable);
      var n := InputLimit(GetScreenSize(q));
      var entered := ReadLine(read, n).value;
      && read.Typed?
      && 23 <= n && |entered| <= n
      && entered == Strip(PyPrefix(read.text, n))
      && (entered != "" ==> ConfigStore.ResolveOsr(e.config, envOsrId) == entered)
      && (entered == "" ==> ConfigStore.ResolveOsr(e.config, envOsrId) == EnvText(envOsrId))
      && (e.kind == "warning" <==> ConfigStore.ResolveOsr(e.config, envOsrId) == "")
  {
    var entered := ReadLine(read, InputLimit(GetScreenSize(q))).value;
    var updated := OsrUpdated(config, entered);
    assert ConfigureOsrRun(q, config, envOsrId, read, writable).config == updated;
    if entered != "" {
      assert Get(updated, "osr_id") == Some(Text(entered));
    } else {
      assert !HasKey(updated, "osr_id");
    }
  }

  /**
    `configure_osr_id`: sets or removes `config["osr_id"]`, then saves the
    configuration in both cases; an interrupted prompt changes and saves
    nothing.
   */
  method ConfigureOsrId(q: SizeQuery, config: Config, envOsrId: Option<string>, read: Read,
                        cm: ConfigStore.ConfigManager, writable: bool)
    returns (e: OsrEnd)
    requires Unique(config)
    modifies cm
    ensures e == ConfigureOsrRun(q, config, envOsrId, read, writable)
    ensures e.OsrSet? || e.OsrSaveFailed? ==> cm.file == if writable then ConfigStore.Parsed(e.config) else old(cm.file)
    ensures e.OsrCancelled? ==> cm.file == old(cm.file)
  {
    var screen := GetScreenSize(q);
    var limit := InputLimit(screen);
    var line := ReadLine(read, limit);
    if line.None? {
      return OsrCancelled;
    }
    var entered := line.value;
    var updated := config;
    if entered != "" {
      updated := Put(updated, "osr_id", Text(entered));
    } else {
      updated := Pop(updated, "osr_id");
    }
    var raised := cm.Save(updated, writable);
    if raised {
      return OsrSaveFailed(updated);
    }
    var (msg, kind) := OsrMessage(entered, envOsrId);
    e := OsrSet(updated, msg, kind);
  }
}
