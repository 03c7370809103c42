/**
 * The settings commands the frontend invokes (src-tauri/src/commands.rs): changing the
 * global shortcut, storing or deleting API keys, reporting where keys come from,
 * choosing the transcription provider, and keeping the resized main window on screen.
 * The keychain is a map from account name to secret; the environment is the set of
 * variables that are set; the settings file is one object both commands write, and
 * its writes and the shortcut registry report their outcomes as inputs.
 */
module Commands {
  import opened Wrappers
  import opened Text
  import opened Settings

  // ---------------------------------------------------------------------------
  // set_shortcut
  // ---------------------------------------------------------------------------

  const MultiKeyMessage := "Multi-key shortcuts (e.g., R+L) are not supported. " +
    "Use modifier keys (\U{2318}\U{21E7}\U{2303}\U{2325}) with a single key."

  /** The key checks of `set_shortcut`: '+' first, then the key table. */
  function ValidateShortcutKey(key: string): (r: Result<KeyCode>)
    ensures '+' in key ==> r == Err(MultiKeyMessage)
    ensures '+' !in key && ParseKey(key).None? ==> r == Err("Invalid key: " + key)
    ensures r.Ok? ==> ParseKey(key) == Some(r.value)
  {
    if '+' in key then Err(MultiKeyMessage)
    else match ParseKey(key)
      case None => Err("Invalid key: " + key)
      case Some(code) => Ok(code)
  }

  /**
   * A key is accepted exactly when `parse_key` accepts it: the '+' check only gives a
   * more helpful message for keys the table rejects anyway.
   */
  lemma ValidateShortcutKeyIsParseKey(key: string)
    ensures ValidateShortcutKey(key).Ok? <==> ParseKey(key).Some?
  {
  }

  /** `Shortcut::new` with the parsed modifiers, where an empty set means no modifiers. */
  function MakeShortcut(mods: set<Modifier>, key: KeyCode): (s: Shortcut)
    ensures s.key == key
    ensures s.mods.None? <==> mods == {}
    ensures s.mods.Some? ==> s.mods.value == mods
  {
    Shortcut(if mods == {} then None else Some(mods), key)
  }

  /** What `set_shortcut` returns on success. */
  datatype ShortcutInfo = ShortcutInfo(modifiers: seq<string>, key: string, display: string)

  /**
   * `settings.json`: what `load_settings` reads back and `save_settings` replaces. A
   * file that is missing or cannot be parsed reads as the default settings, so the
   * file is modelled by the settings it reads as.
   */
  class SettingsFile {
    var stored: AppSettings

    constructor (stored: AppSettings)
      ensures this.stored == stored
    {
      this.stored := stored;
    }
  }

  /** The shortcuts registered with the operating system. */
  class GlobalShortcuts {
    var registered: set<Shortcut>

    constructor ()
      ensures registered == {}
    {
      registered := {};
    }
  }

  /** `ShortcutSettings`: the registered shortcut and its configuration. */
  class ShortcutSettings {
    var currentShortcut: Option<Shortcut>
    var config: ShortcutConfig

    constructor (current: Option<Shortcut>, config: ShortcutConfig)
      ensures currentShortcut == current && this.config == config
    {
      currentShortcut := current;
      this.config := config;
    }

    /**
     * `set_shortcut`. A rejected key changes nothing. Otherwise the old shortcut is
     * unregistered (its outcome, `unregister`, is ignored: a failed unregistration
     * leaves it registered) before the new one is registered, so a failed registration
     * leaves `currentShortcut` and `config` with their old values. After a successful
     * registration the state is updated, and then the settings file is reloaded and
     * written back with the new shortcut; a failed write is reported with the state
     * already updated and the file as it was.
     */
    method SetShortcut(shortcuts: GlobalShortcuts, file: SettingsFile, modifiers: seq<string>, key: string,
                       unregister: Result<Unit>, register: Result<Unit>, save: Result<Unit>)
      returns (r: Result<ShortcutInfo>)
      modifies this, shortcuts, file
      ensures ValidateShortcutKey(key).Err? ==>
        r == Err(ValidateShortcutKey(key).error)
        && unchanged(this) && unchanged(file) && shortcuts.registered == old(shortcuts.registered)
      ensures ValidateShortcutKey(key).Ok? ==>
        var s := MakeShortcut(ModifiersOf(modifiers), ValidateShortcutKey(key).value);
        var unregistered := old(shortcuts.registered) -
          (if old(currentShortcut).Some? && unregister.Ok? then {old(currentShortcut).value} else {});
        if register.Err? then
          r == Err("Failed to register shortcut: " + register.error)
          && unchanged(this) && unchanged(file) && shortcuts.registered == unregistered
        else
          currentShortcut == Some(s) && config == ShortcutConfig(modifiers, key)
          && shortcuts.registered == unregistered + {s}
          && (save.Ok? ==>
                file.stored == old(file.stored).(shortcut := config)
                && r == Ok(ShortcutInfo(modifiers, key, DisplayOf(ShortcutConfig(modifiers, key)))))
          && (save.Err? ==> unchanged(file) && r == Err(save.error))
    {
      var code := ValidateShortcutKey(key);
      if code.Err? {
        return Err(code.error);
      }
      var newConfig := ShortcutConfig(modifiers, key);
      var parsed := ParseModifiers(modifiers);
      var newShortcut := MakeShortcut(parsed, code.value);
      if currentShortcut.Some? && unregister.Ok? {
        shortcuts.registered := shortcuts.registered - {currentShortcut.value};
      }
      if register.Err? {
        return Err("Failed to register shortcut: " + register.error);
      }
      shortcuts.registered := shortcuts.registered + {newShortcut};
      currentShortcut := Some(newShortcut);
      config := newConfig;
      if save.Err? {
        return Err(save.error);
      }
      file.stored := file.stored.(shortcut := newConfig);
      var display := FormatShortcutDisplay(newConfig);
      r := Ok(ShortcutInfo(modifiers, key, display));
    }
  }

  // ---------------------------------------------------------------------------
  // API keys
  // ---------------------------------------------------------------------------

  /** The provider names the commands accept, in any case. */
  function ParseProvider(name: string): (p: Option<Provider>)
    ensures p.Some? ==> ToLower(name) == ProviderKey(p.value)
  {
    match ToLower(name)
    case "openai" => Some(OpenAI)
    case "groq" => Some(Groq)
    case _ => None
  }

  /** Every provider is accepted under its keychain name, and only those names are accepted. */
  lemma ParseProviderRoundTrip(p: Provider, name: string)
    ensures ParseProvider(ProviderKey(p)) == Some(p)
    ensures ParseProvider(name).Some? <==> ToLower(name) == "openai" || ToLower(name) == "groq"
  {
    LowerOfLower(ProviderKey(p));
  }

  /** The environment variable each provider's key may come from. */
  function EnvVar(p: Provider): string {
    match p
    case OpenAI => "OPENAI_API_KEY"
    case Groq => "GROQ_API_KEY"
  }

  datatype ApiKeyStatus = ApiKeyStatus(
    openaiConfigured: bool,
    groqConfigured: bool,
    openaiSource: Option<string>,
    groqSource: Option<string>)

  /** Where a key comes from: the keychain first, then the environment. */
  function Source(inKeychain: bool, inEnv: bool): Option<string> {
    if inKeychain then Some("keychain") else if inEnv then Some("env") else None
  }

  /**
   * `get_api_key_status_internal`: a provider has a source exactly when it is
   * configured, and a keychain entry always makes it configured.
   */
  function KeyStatus(keychain: map<string, string>, env: set<string>): (s: ApiKeyStatus)
    ensures s.openaiSource.None? <==> !s.openaiConfigured
    ensures s.groqSource.None? <==> !s.groqConfigured
    ensures ProviderKey(OpenAI) in keychain ==> s.openaiConfigured && s.openaiSource == Some("keychain")
    ensures ProviderKey(Groq) in keychain ==> s.groqConfigured && s.groqSource == Some("keychain")
  {
    ApiKeyStatus(
      ProviderKey(OpenAI) in keychain || EnvVar(OpenAI) in env,
      ProviderKey(Groq) in keychain || EnvVar(Groq) in env,
      Source(ProviderKey(OpenAI) in keychain, EnvVar(OpenAI) in env),
      Source(ProviderKey(Groq) in keychain, EnvVar(Groq) in env))
  }

  function Configured(s: ApiKeyStatus, p: Provider): bool {
    match p case OpenAI => s.openaiConfigured case Groq => s.groqConfigured
  }

  function SourceFor(s: ApiKeyStatus, p: Provider): Option<string> {
    match p case OpenAI => s.openaiSource case Groq => s.groqSource
  }

  /**
   * For each provider: configured iff the key is in the keychain or the environment;
   * the source is "keychain" iff it is in the keychain, "env" iff it is only in the
   * environment, and absent iff it is in neither.
   */
  lemma KeyStatusPrecedence(keychain: map<string, string>, env: set<string>, p: Provider)
    ensures var s := KeyStatus(keychain, env);
      (Configured(s, p) <==> ProviderKey(p) in keychain || EnvVar(p) in env)
      && (SourceFor(s, p) == Some("keychain") <==> ProviderKey(p) in keychain)
      && (SourceFor(s, p) == Some("env") <==> ProviderKey(p) !in keychain && EnvVar(p) in env)
      && (SourceFor(s, p).None? <==> !Configured(s, p))
  {
    assert "keychain" != "env";
  }

  /**
   * A key set only in the environment is reported as configured, but the provider's
   * key lookup reads only the keychain, so that provider cannot be selected.
   */
  lemma EnvOnlyKeyIsReportedButNotUsable(keychain: map<string, string>, env: set<string>, p: Provider)
    requires ProviderKey(p) !in keychain && EnvVar(p) in env
    ensures Configured(KeyStatus(keychain, env), p)
    ensures ApiKeyFor(p, keychain).None?
  {
  }

  /** What `set_api_key` does to the keychain once the input is validated. */
  datatype KeyAction = Remove | Store(key: string)

  const OpenAIPrefixMessage := "OpenAI API keys should start with 'sk-'"
  const GroqPrefixMessage := "Groq API keys should start with 'gsk_'"

  /** The prefix each provider's keys must have. */
  function KeyPrefix(p: Provider): string {
    match p case OpenAI => "sk-" case Groq => "gsk_"
  }

  /**
   * The validation part of `set_api_key`: the provider name, then the trimmed key,
   * which is deleted when empty and otherwise must carry the provider's prefix.
   */
  function ApiKeyAction(provider: string, apiKey: string): (r: Result<(Provider, KeyAction)>)
    ensures ParseProvider(provider).None? ==> r == Err("Unknown provider: " + provider)
    ensures r.Ok? ==> ParseProvider(provider) == Some(r.value.0)
    ensures r.Ok? && r.value.1.Store? ==>
      r.value.1.key == Trim(apiKey) && Trim(apiKey) != [] && StartsWith(Trim(apiKey), KeyPrefix(r.value.0))
    ensures r.Ok? && r.value.1.Remove? ==> Trim(apiKey) == []
    ensures ParseProvider(provider).Some? && Trim(apiKey) != [] && !StartsWith(Trim(apiKey), KeyPrefix(ParseProvider(provider).value)) ==>
      r == Err(if ParseProvider(provider).value == OpenAI then OpenAIPrefixMessage else GroqPrefixMessage)
    ensures ParseProvider(provider).Some? && Trim(apiKey) == [] ==>
      r == Ok((ParseProvider(provider).value, Remove))
    ensures ParseProvider(provider).Some? && Trim(apiKey) != [] && StartsWith(Trim(apiKey), KeyPrefix(ParseProvider(provider).value)) ==>
      r == Ok((ParseProvider(provider).value, Store(Trim(apiKey))))
  {
    match ParseProvider(provider)
    case None => Err("Unknown provider: " + provider)
    case Some(p) =>
      var trimmed := Trim(apiKey);
      if trimmed == [] then Ok((p, Remove))
      else if p == OpenAI && !StartsWith(trimmed, "sk-") then Err(OpenAIPrefixMessage)
      else if p == Groq && !StartsWith(trimmed, "gsk_") then Err(GroqPrefixMessage)
      else Ok((p, Store(trimmed)))
  }

  /** How the keychain call went; a failure carries the message `keychain.rs` formats. */
  datatype KeychainOutcome = KeychainOk | KeychainFailed(message: string)

  /**
   * `set_api_key`: the result and the keychain afterwards. It succeeds exactly when the
   * input is valid and the keychain call succeeds; a failed keychain call is reported
   * with its message and the keychain as it was; success reports the status of the
   * updated keychain.
   */
  function SetApiKey(provider: string, apiKey: string, keychain: map<string, string>, env: set<string>,
                     outcome: KeychainOutcome): (r: (Result<ApiKeyStatus>, map<string, string>))
    ensures r.0.Ok? <==> ApiKeyAction(provider, apiKey).Ok? && outcome.KeychainOk?
    ensures ApiKeyAction(provider, apiKey).Ok? && outcome.KeychainFailed? ==>
      r == (Err(outcome.message), keychain)
    ensures r.0.Ok? ==> r.0.value == KeyStatus(r.1, env)
  {
    match ApiKeyAction(provider, apiKey)
    case Err(e) => (Err(e), keychain)
    case Ok((p, action)) =>
      if outcome.KeychainFailed? then (Err(outcome.message), keychain)
      else
        var updated := match action
          case Remove => keychain - {ProviderKey(p)}
          case Store(k) => keychain[ProviderKey(p) := k];
        (Ok(KeyStatus(updated, env)), updated)
  }

  /** A rejected provider name or key format leaves the keychain alone. */
  lemma SetApiKeyRejectionLeavesKeychain(provider: string, apiKey: string, keychain: map<string, string>,
                                         env: set<string>, outcome: KeychainOutcome)
    requires ApiKeyAction(provider, apiKey).Err?
    ensures SetApiKey(provider, apiKey, keychain, env, outcome) == (Err(ApiKeyAction(provider, apiKey).error), keychain)
  {
  }

  /**
   * A successful `set_api_key` stores the trimmed key, which has the provider's prefix,
   * or removes the entry when the trimmed key is empty; the other provider's entry is
   * untouched, and the returned status shows the provider as configured exactly when
   * a key was stored or the environment has one.
   */
  lemma SetApiKeySuccess(provider: string, apiKey: string, keychain: map<string, string>,
                        env: set<string>, outcome: KeychainOutcome)
    requires SetApiKey(provider, apiKey, keychain, env, outcome).0.Ok?
    ensures var (r, kc) := SetApiKey(provider, apiKey, keychain, env, outcome);
      var p := ParseProvider(provider).value;
      var t := Trim(apiKey);
      (t == [] ==> ProviderKey(p) !in kc)
      && (t != [] ==> ProviderKey(p) in kc && kc[ProviderKey(p)] == t && StartsWith(t, KeyPrefix(p)))
      && (forall q :: q != p ==>
            (ProviderKey(q) in kc <==> ProviderKey(q) in keychain)
            && (ProviderKey(q) in kc ==> kc[ProviderKey(q)] == keychain[ProviderKey(q)]))
      && (Configured(r.value, p) <==> t != [] || EnvVar(p) in env)
  {
    var p := ParseProvider(provider).value;
    forall q | q != p
      ensures ProviderKey(q) != ProviderKey(p)
    {
      ProviderTables();
    }
  }

  /** Example: the provider name is matched in any case, and the key is trimmed before it is stored. */
  lemma ApiKeyExampleStore()
    ensures ApiKeyAction("OpenAI", " sk-abc ") == Ok((OpenAI, Store("sk-abc")))
  {
    ParseProviderExamples();
    TrimSurrounded(" ", "sk-abc", " ");
    assert " " + "sk-abc" + " " == " sk-abc ";
    assert StartsWith("sk-abc", "sk-");
  }

  /** Example: a key without the provider's prefix is refused. */
  lemma ApiKeyExampleWrongPrefix()
    ensures ApiKeyAction("groq", "sk-abc") == Err(GroqPrefixMessage)
  {
    ParseProviderExamples();
    TrimOfTrimmed("sk-abc");
    assert "sk-abc"[0] != "gsk_"[0];
  }

  /** Example: a blank key means delete. */
  lemma ApiKeyExampleBlank()
    ensures ApiKeyAction("groq", "  ") == Ok((Groq, Remove))
  {
    ParseProviderExamples();
    TrimSurrounded("  ", "", "");
    assert "  " + "" + "" == "  ";
  }

  /** Example: an unknown provider is refused. */
  lemma ApiKeyExampleUnknown()
    ensures ApiKeyAction("whisper", "sk-abc") == Err("Unknown provider: whisper")
  {
    ParseProviderExamples();
  }

  /** Provider names in the examples. */
  lemma ParseProviderExamples()
    ensures ParseProvider("OpenAI") == Some(OpenAI)
    ensures ParseProvider("groq") == Some(Groq)
    ensures ParseProvider("whisper") == None
  {
    assert ToLower("OpenAI") == "openai";
    LowerOfLower("groq");
    LowerOfLower("whisper");
  }

  // ---------------------------------------------------------------------------
  // Transcription provider
  // ---------------------------------------------------------------------------

  /** What `get_transcription_settings` and `set_transcription_provider` return. */
  datatype TranscriptionSettings = TranscriptionSettings(provider: string, model: string)

  /** `SettingsState`: the settings loaded at startup, as the app keeps them in memory. */
  class SettingsState {
    var settings: AppSettings

    constructor (settings: AppSettings)
      ensures this.settings == settings
    {
      this.settings := settings;
    }

    /** `get_transcription_settings`: the provider's name and its model. */
    method GetTranscriptionSettings() returns (r: TranscriptionSettings)
      ensures ParseProvider(r.provider) == Some(settings.transcription.provider)
      ensures r.model == ModelFor(settings.transcription.provider)
    {
      var p := settings.transcription.provider;
      ParseProviderRoundTrip(p, ProviderKey(p));
      r := TranscriptionSettings(ProviderKey(p), ModelFor(p));
    }

    /**
     * `set_transcription_provider` as written. An unknown name, or a provider without a
     * keychain key, is refused before anything changes. Otherwise the provider is
     * selected in memory and the whole in-memory settings are written to the file,
     * replacing whatever it held; a failed write is reported with the selection made.
     * The result echoes the name as given, with the provider's model.
     */
    method SetTranscriptionProvider(file: SettingsFile, provider: string, keychain: map<string, string>,
                                    save: Result<Unit>)
      returns (r: Result<TranscriptionSettings>)
      modifies this, file
      ensures ParseProvider(provider).None? ==>
        r == Err("Unknown provider: " + provider) && unchanged(this) && unchanged(file)
      ensures ParseProvider(provider).Some? && ApiKeyFor(ParseProvider(provider).value, keychain).None? ==>
        r == Err("No API key configured for " + provider) && unchanged(this) && unchanged(file)
      ensures ParseProvider(provider).Some? && ApiKeyFor(ParseProvider(provider).value, keychain).Some? ==>
        var p := ParseProvider(provider).value;
        settings == old(settings).(transcription := TranscriptionConfig(p))
        && (save.Ok? ==> file.stored == settings && r == Ok(TranscriptionSettings(provider, ModelFor(p))))
        && (save.Err? ==> unchanged(file) && r == Err(save.error))
    {
      var p := ValidateProvider(provider, keychain);
      if p.Err? {
        return Err(p.error);
      }
      settings := settings.(transcription := TranscriptionConfig(p.value));
      if save.Err? {
        return Err(save.error);
      }
      file.stored := settings;
      r := Ok(TranscriptionSettings(provider, ModelFor(p.value)));
    }

    /**
     * `set_transcription_provider` as evidently intended: like `set_shortcut`, it
     * reloads the file and writes it back with only the provider changed, so a
     * shortcut saved since startup is kept. The in-memory selection is as before.
     */
    method SetTranscriptionProviderReloading(file: SettingsFile, provider: string, keychain: map<string, string>,
                                             save: Result<Unit>)
      returns (r: Result<TranscriptionSettings>)
      modifies this, file
      ensures ParseProvider(provider).None? ==>
        r == Err("Unknown provider: " + provider) && unchanged(this) && unchanged(file)
      ensures ParseProvider(provider).Some? && ApiKeyFor(ParseProvider(provider).value, keychain).None? ==>
        r == Err("No API key configured for " + provider) && unchanged(this) && unchanged(file)
      ensures ParseProvider(provider).Some? && ApiKeyFor(ParseProvider(provider).value, keychain).Some? ==>
        var p := ParseProvider(provider).value;
        settings == old(settings).(transcription := TranscriptionConfig(p))
        && (save.Ok? ==>
              file.stored == old(file.stored).(transcription := TranscriptionConfig(p))
              && r == Ok(TranscriptionSettings(provider, ModelFor(p))))
        && (save.Err? ==> unchanged(file) && r == Err(save.error))
    {
      var p := ValidateProvider(provider, keychain);
      if p.Err? {
        return Err(p.error);
      }
      settings := settings.(transcription := TranscriptionConfig(p.value));
      if save.Err? {
        return Err(save.error);
      }
      file.stored := file.stored.(transcription := TranscriptionConfig(p.value));
      r := Ok(TranscriptionSettings(provider, ModelFor(p.value)));
    }
  }

  /**
   * The checks `set_transcription_provider` makes before changing anything: a known
   * provider name, then a key for it in the keychain.
   */
  function ValidateProvider(provider: string, keychain: map<string, string>): (r: Result<Provider>)
    ensures ParseProvider(provider).None? ==> r == Err("Unknown provider: " + provider)
    ensures ParseProvider(provider).Some? && ApiKeyFor(ParseProvider(provider).value, keychain).None? ==>
      r == Err("No API key configured for " + provider)
    ensures r.Ok? <==> ParseProvider(provider).Some? && ApiKeyFor(ParseProvider(provider).value, keychain).Some?
    ensures r.Ok? ==> ParseProvider(provider) == Some(r.value)
  {
    match ParseProvider(provider)
    case None => Err("Unknown provider: " + provider)
    case Some(p) => if ApiKeyFor(p, keychain).None? then Err("No API key configured for " + provider) else Ok(p)
  }

  /**
   * A shortcut change followed by a provider change, both succeeding, with the
   * commands as written: the provider change writes back the shortcut loaded at
   * startup, so the file no longer holds the shortcut just set and the next launch
   * registers the old one.
   */
  method ShortcutThenProvider(shortcutState: ShortcutSettings, settingsState: SettingsState,
                              shortcuts: GlobalShortcuts, file: SettingsFile,
                              modifiers: seq<string>, key: string, provider: string, keychain: map<string, string>)
      returns (r1: Result<ShortcutInfo>, r2: Result<TranscriptionSettings>)
    requires ValidateShortcutKey(key).Ok? && ValidateProvider(provider, keychain).Ok?
    modifies shortcutState, settingsState, shortcuts, file
    ensures r1.Ok? && r2.Ok?
    ensures shortcutState.config == ShortcutConfig(modifiers, key)
    ensures file.stored.shortcut == old(settingsState.settings.shortcut)
    ensures old(settingsState.settings.shortcut) != ShortcutConfig(modifiers, key) ==>
      file.stored.shortcut != shortcutState.config
  {
    r1 := shortcutState.SetShortcut(shortcuts, file, modifiers, key, Ok(Unit), Ok(Unit), Ok(Unit));
    r2 := settingsState.SetTranscriptionProvider(file, provider, keychain, Ok(Unit));
  }

  /**
   * The same sequence with the reloading provider change: the file ends up with both
   * the new shortcut and the new provider.
   */
  method ShortcutThenProviderReloading(shortcutState: ShortcutSettings, settingsState: SettingsState,
                                       shortcuts: GlobalShortcuts, file: SettingsFile,
                                       modifiers: seq<string>, key: string, provider: string, keychain: map<string, string>)
      returns (r1: Result<ShortcutInfo>, r2: Result<TranscriptionSettings>)
    requires ValidateShortcutKey(key).Ok? && ValidateProvider(provider, keychain).Ok?
    modifies shortcutState, settingsState, shortcuts, file
    ensures r1.Ok? && r2.Ok?
    ensures shortcutState.config == ShortcutConfig(modifiers, key)
    ensures file.stored == old(file.stored).(shortcut := ShortcutConfig(modifiers, key),
                                              transcription := TranscriptionConfig(ValidateProvider(provider, keychain).value))
  {
    r1 := shortcutState.SetShortcut(shortcuts, file, modifiers, key, Ok(Unit), Ok(Unit), Ok(Unit));
    r2 := settingsState.SetTranscriptionProviderReloading(file, provider, keychain, Ok(Unit));
  }

  // ---------------------------------------------------------------------------
  // resize_window
  // ---------------------------------------------------------------------------

  /** Values of Rust's `i32`. */
  type I32 = x: int | -0x8000_0000 <= x < 0x8000_0000

  /** `i32::saturating_sub`. */
  function SaturatingSub(a: I32, b: I32): (r: I32)
    ensures -0x8000_0000 <= a - b < 0x8000_0000 ==> r == a - b
    ensures a - b < -0x8000_0000 ==> r == -0x8000_0000
    ensures a - b >= 0x8000_0000 ==> r == 0x7FFF_FFFF
  {
    if a - b < -0x8000_0000 then -0x8000_0000
    else if a - b >= 0x8000_0000 then 0x7FFF_FFFF
    else a - b
  }

  /** `v.max(0).min(hi)`. */
  function ClampToScreen(v: I32, hi: I32): (r: I32)
    ensures r <= hi
    ensures hi >= 0 ==> r >= 0
    ensures 0 <= v <= hi ==> r == v
  {
    var m := if v >= 0 then v else 0;
    if m <= hi then m else hi
  }

  /**
   * The position `resize_window` moves the main window to, from its position, the
   * main display's size and the requested height (already cast to `i32`).
   */
  function ResizePosition(x: I32, y: I32, screenW: I32, screenH: I32, height: I32): (r: (I32, I32))
    ensures screenW >= 320 ==> 0 <= r.0 <= screenW - 320
    ensures 0 <= x && x + 320 <= screenW ==> r.0 == x
    ensures height >= 0 && screenH >= height ==> 0 <= r.1 <= screenH - height
    ensures 0 <= height && 0 <= y && y + height <= screenH ==> r.1 == y
  {
    var w: I32 := 320;
    var h: I32 := if height >= 0 then height else 0;
    (ClampToScreen(x, SaturatingSub(screenW, w)), ClampToScreen(y, SaturatingSub(screenH, h)))
  }

  /**
   * When the window fits on the display, the clamped position keeps all of it on the
   * display; a window already on screen does not move.
   */
  lemma ResizeKeepsWindowOnScreen(x: I32, y: I32, screenW: I32, screenH: I32, height: I32)
    requires 320 <= screenW && 0 <= height <= screenH
    ensures var (nx, ny) := ResizePosition(x, y, screenW, screenH, height);
      0 <= nx && nx + 320 <= screenW && 0 <= ny && ny + height <= screenH
      && (0 <= x && x + 320 <= screenW && 0 <= y && y + height <= screenH ==> nx == x && ny == y)
  {
  }
}
