/**
 * src-tauri/src/settings.rs: the persisted configuration types and their defaults,
 * the parsers that turn a configured shortcut into the global-shortcut plugin's
 * modifier set and key code, the shortcut's display string, and the per-provider
 * model and endpoint tables.  Loading and saving the JSON file is left out.
 */
module Settings {
  import opened Wrappers
  import opened Text

  /** `ShortcutConfig`: modifier names such as ["super", "shift"] and a key name such as "Space". */
  datatype ShortcutConfig = ShortcutConfig(modifiers: seq<string>, key: string)

  datatype Provider = OpenAI | Groq

  datatype TranscriptionConfig = TranscriptionConfig(provider: Provider)

  /** `Settings`; the legacy `api_keys` section is never read and is not modelled. */
  datatype AppSettings = AppSettings(
    shortcut: ShortcutConfig,
    transcription: TranscriptionConfig,
    audioInputDevice: Option<string>)

  /** `Default` for `ShortcutConfig`, `TranscriptionProvider`, `TranscriptionConfig` and `Settings`. */
  const DefaultShortcut := ShortcutConfig(["super", "shift"], "Space")
  const DefaultProvider := OpenAI
  const DefaultSettings := AppSettings(DefaultShortcut, TranscriptionConfig(DefaultProvider), None)

  /** The flags of the plugin's `Modifiers` bit set that the parser can produce. */
  datatype Modifier = Super | Shift | Control | Alt

  /** The plugin's key codes that `parse_key` can produce. */
  datatype KeyCode =
    | KeyA | KeyB | KeyC | KeyD | KeyE | KeyF | KeyG | KeyH | KeyI | KeyJ | KeyK | KeyL | KeyM
    | KeyN | KeyO | KeyP | KeyQ | KeyR | KeyS | KeyT | KeyU | KeyV | KeyW | KeyX | KeyY | KeyZ
    | Digit0 | Digit1 | Digit2 | Digit3 | Digit4 | Digit5 | Digit6 | Digit7 | Digit8 | Digit9
    | F1 | F2 | F3 | F4 | F5 | F6 | F7 | F8 | F9 | F10 | F11 | F12
    | Space | Enter | Tab | Escape | Backspace | Delete | Insert | Home | End | PageUp | PageDown
    | ArrowUp | ArrowDown | ArrowLeft | ArrowRight
    | Minus | Equal | BracketLeft | BracketRight | Backslash | Semicolon | Quote | Backquote
    | Comma | Period | Slash

  /** The arguments of the plugin's `Shortcut::new(mods, key)`. */
  datatype Shortcut = Shortcut(mods: Option<set<Modifier>>, key: KeyCode)

  /** The match arm of `parse_modifiers` for one modifier name. */
  function ModifierOf(name: string): Option<Modifier> {
    match ToLower(name)
    case "super" | "cmd" | "command" | "meta" => Some(Super)
    case "shift" => Some(Shift)
    case "ctrl" | "control" => Some(Control)
    case "alt" | "option" => Some(Alt)
    case _ => None
  }

  /** The modifier set of a list of names: the flags of the recognised names, OR-ed together. */
  ghost function ModifiersOf(names: seq<string>): set<Modifier> {
    if names == [] then {} else
      var m := ModifierOf(names[|names| - 1]);
      ModifiersOf(names[..|names| - 1]) + (if m.Some? then {m.value} else {})
  }

  /** `parse_modifiers`: fold the names into a flag set, ignoring unknown names. */
  method ParseModifiers(modifiers: seq<string>) returns (result: set<Modifier>)
    ensures result == ModifiersOf(modifiers)
  {
    result := {};
    for i := 0 to |modifiers|
      invariant result == ModifiersOf(modifiers[..i])
    {
      assert modifiers[..i + 1][..i] == modifiers[..i];
      match ModifierOf(modifiers[i]) {
        case Some(m) => result := result + {m};
        case None =>
      }
    }
    assert modifiers[..|modifiers|] == modifiers;
  }

  /**
   * A flag is in the parsed set exactly when some name in the list maps to it, so the
   * order of the names and repetitions do not matter, and no names give no flags.
   */
  lemma {:induction false} ModifiersOfMembership(names: seq<string>, m: Modifier)
    ensures m in ModifiersOf(names) <==> exists i :: 0 <= i < |names| && ModifierOf(names[i]) == Some(m)
  {
    if names != [] {
      var init := names[..|names| - 1];
      ModifiersOfMembership(init, m);
      if m in ModifiersOf(init) {
        var i :| 0 <= i < |init| && ModifierOf(init[i]) == Some(m);
        assert names[i] == init[i];
      }
      if exists i :: 0 <= i < |names| && ModifierOf(names[i]) == Some(m) {
        var i :| 0 <= i < |names| && ModifierOf(names[i]) == Some(m);
        if i < |init| {
          assert init[i] == names[i];
        }
      }
    }
  }

  /** Two lists with the same names, in any order and with any repetitions, parse alike. */
  lemma ModifiersOfOrderFree(a: seq<string>, b: seq<string>)
    requires forall n :: n in a <==> n in b
    ensures ModifiersOf(a) == ModifiersOf(b)
  {
    forall m ensures m in ModifiersOf(a) <==> m in ModifiersOf(b) {
      ModifiersOfMembership(a, m);
      ModifiersOfMembership(b, m);
      if m in ModifiersOf(a) {
        var i :| 0 <= i < |a| && ModifierOf(a[i]) == Some(m);
        assert a[i] in a;
        var j :| 0 <= j < |b| && b[j] == a[i];
        assert ModifierOf(b[j]) == Some(m);
      }
      if m in ModifiersOf(b) {
        var j :| 0 <= j < |b| && ModifierOf(b[j]) == Some(m);
        assert b[j] in b;
        var i :| 0 <= i < |a| && a[i] == b[j];
        assert ModifierOf(a[i]) == Some(m);
      }
    }
  }

  /**
   * `parse_key`: the key table, matched after lower-casing. No entry of the table
   * holds a '+', so a name with a '+' never parses.
   */
  function ParseKey(key: string): (r: Option<KeyCode>)
    ensures '+' in key ==> r.None?
  {
    var name := ToLower(key);
    if '+' in key then
      LoweringKeepsPlus(key);
      KeyTableHasNoPlus(name);
      KeyNamed(name)
    else KeyNamed(name)
  }

  /** The key table of `parse_key`, indexed by lower-case name. */
  function KeyNamed(name: string): Option<KeyCode> {
    match name
    // Letters
    case "a" => Some(KeyA) case "b" => Some(KeyB) case "c" => Some(KeyC)
    case "d" => Some(KeyD) case "e" => Some(KeyE) case "f" => Some(KeyF)
    case "g" => Some(KeyG) case "h" => Some(KeyH) case "i" => Some(KeyI)
    case "j" => Some(KeyJ) case "k" => Some(KeyK) case "l" => Some(KeyL)
    case "m" => Some(KeyM) case "n" => Some(KeyN) case "o" => Some(KeyO)
    case "p" => Some(KeyP) case "q" => Some(KeyQ) case "r" => Some(KeyR)
    case "s" => Some(KeyS) case "t" => Some(KeyT) case "u" => Some(KeyU)
    case "v" => Some(KeyV) case "w" => Some(KeyW) case "x" => Some(KeyX)
    case "y" => Some(KeyY) case "z" => Some(KeyZ)
    // Numbers
    case "0" | "digit0" => Some(Digit0) case "1" | "digit1" => Some(Digit1)
    case "2" | "digit2" => Some(Digit2) case "3" | "digit3" => Some(Digit3)
    case "4" | "digit4" => Some(Digit4) case "5" | "digit5" => Some(Digit5)
    case "6" | "digit6" => Some(Digit6) case "7" | "digit7" => Some(Digit7)
    case "8" | "digit8" => Some(Digit8) case "9" | "digit9" => Some(Digit9)
    // Function keys
    case "f1" => Some(F1) case "f2" => Some(F2) case "f3" => Some(F3)
    case "f4" => Some(F4) case "f5" => Some(F5) case "f6" => Some(F6)
    case "f7" => Some(F7) case "f8" => Some(F8) case "f9" => Some(F9)
    case "f10" => Some(F10) case "f11" => Some(F11) case "f12" => Some(F12)
    // Special keys
    case "space" => Some(Space)
    case "enter" | "return" => Some(Enter)
    case "tab" => Some(Tab)
    case "escape" | "esc" => Some(Escape)
    case "backspace" => Some(Backspace)
    case "delete" => Some(Delete)
    case "insert" => Some(Insert)
    case "home" => Some(Home)
    case "end" => Some(End)
    case "pageup" => Some(PageUp)
    case "pagedown" => Some(PageDown)
    // Arrow keys
    case "arrowup" | "up" => Some(ArrowUp)
    case "arrowdown" | "down" => Some(ArrowDown)
    case "arrowleft" | "left" => Some(ArrowLeft)
    case "arrowright" | "right" => Some(ArrowRight)
    // Punctuation
    case "minus" | "-" => Some(Minus)
    case "equal" | "=" => Some(Equal)
    case "bracketleft" | "[" => Some(BracketLeft)
    case "bracketright" | "]" => Some(BracketRight)
    case "backslash" | "\\" => Some(Backslash)
    case "semicolon" | ";" => Some(Semicolon)
    case "quote" | "'" => Some(Quote)
    case "backquote" | "`" => Some(Backquote)
    case "comma" | "," => Some(Comma)
    case "period" | "." => Some(Period)
    case "slash" | "/" => Some(Slash)
    case _ => None
  }

  /** `parse_key` ignores case: a key name parses as its lower-case form does. */
  lemma ParseKeyIgnoresCase(key: string)
    ensures ParseKey(key) == ParseKey(ToLower(key))
  {
    ToLowerIdempotent(key);
  }

  /** The source's letter test: lower- and upper-case letters name the same key. */
  lemma ParseKeyLetters()
    ensures ParseKey("a") == Some(KeyA) && ParseKey("z") == Some(KeyZ) && ParseKey("A") == Some(KeyA)
  {
    LowerOfLower("a"); LowerOfLower("z");
    assert ToLower("A") == "a";
  }

  /** The source's special-key test: "enter" and "return" are aliases. */
  lemma ParseKeySpecial()
    ensures ParseKey("space") == Some(Space) && ParseKey("tab") == Some(Tab)
    ensures ParseKey("enter") == Some(Enter) && ParseKey("return") == Some(Enter)
  {
    LowerOfLower("space"); LowerOfLower("tab"); LowerOfLower("enter"); LowerOfLower("return");
  }

  /** The source's function-key and invalid-key tests. */
  lemma ParseKeyFunctionAndInvalid()
    ensures ParseKey("f1") == Some(F1) && ParseKey("f12") == Some(F12)
    ensures ParseKey("invalid_key") == None
  {
    LowerOfLower("f1"); LowerOfLower("f12"); LowerOfLower("invalid_key");
  }

  /** Lower-casing keeps a '+'. */
  lemma LoweringKeepsPlus(key: string)
    requires '+' in key
    ensures '+' in ToLower(key)
  {
    var i :| 0 <= i < |key| && key[i] == '+';
    assert ToLower(key)[i] == '+';
  }

  lemma KeyTableHasNoPlus(name: string)
    requires '+' in name
    ensures KeyNamed(name) == None
  {
    if |name| <= 3 {
      ShortKeyNamesHaveNoPlus(name);
    } else if |name| <= 6 {
      MiddleKeyNamesHaveNoPlus(name);
    } else {
      LongKeyNamesHaveNoPlus(name);
    }
  }

  lemma ShortKeyNamesHaveNoPlus(name: string)
    requires '+' in name && |name| <= 3
    ensures KeyNamed(name) == None
  {
  }

  lemma MiddleKeyNamesHaveNoPlus(name: string)
    requires '+' in name && 3 < |name| <= 6
    ensures KeyNamed(name) == None
  {
  }

  lemma LongKeyNamesHaveNoPlus(name: string)
    requires '+' in name && |name| > 6
    ensures KeyNamed(name) == None
  {
  }

  /** Modifier names are matched after lower-casing, so case does not matter. */
  lemma ModifierOfIgnoresCase(name: string)
    ensures ModifierOf(name) == ModifierOf(ToLower(name))
  {
    ToLowerIdempotent(name);
  }

  /** The source's `parse_modifiers` tests, plus the empty list and an ignored unknown name. */
  lemma ModifierExamples()
    ensures ModifiersOf(["super"]) == {Super}
    ensures ModifiersOf(["shift"]) == {Shift}
    ensures ModifiersOf(["super", "shift", "ctrl"]) == {Super, Shift, Control}
    ensures ModifiersOf([]) == {}
    ensures ModifiersOf(["Cmd", "hyper"]) == {Super}
  {
    LowerOfLower("super"); LowerOfLower("shift"); LowerOfLower("ctrl"); LowerOfLower("hyper");
    assert ToLower("Cmd") == "cmd";
    assert ["super", "shift", "ctrl"][..2] == ["super", "shift"];
    assert ["super", "shift"][..1] == ["super"];
    assert ["Cmd", "hyper"][..1] == ["Cmd"];
  }

  /** The match arm of `format_shortcut_display` for one modifier name. */
  function ModifierGlyph(name: string): Option<string> {
    match ToLower(name)
    case "super" | "cmd" | "command" | "meta" => Some("\U{2318}") // ⌘
    case "shift" => Some("\U{21E7}")                             // ⇧
    case "ctrl" | "control" => Some("\U{2303}")                  // ⌃
    case "alt" | "option" => Some("\U{2325}")                    // ⌥
    case _ => None
  }

  /** The glyph of each modifier flag. */
  function Glyph(m: Modifier): string {
    match m
    case Super => "\U{2318}"
    case Shift => "\U{21E7}"
    case Control => "\U{2303}"
    case Alt => "\U{2325}"
  }

  /** The key part of the display: a symbol for the named special keys, else the key upper-cased. */
  function KeyDisplay(key: string): string {
    match ToLower(key)
    case "space" => "Space"
    case "enter" | "return" => "\U{21A9}"     // ↩
    case "tab" => "\U{21E5}"                  // ⇥
    case "escape" | "esc" => "\U{238B}"       // ⎋
    case "backspace" => "\U{232B}"            // ⌫
    case "delete" => "\U{2326}"               // ⌦
    case "arrowup" | "up" => "\U{2191}"       // ↑
    case "arrowdown" | "down" => "\U{2193}"   // ↓
    case "arrowleft" | "left" => "\U{2190}"   // ←
    case "arrowright" | "right" => "\U{2192}" // →
    case other => ToUpper(other)
  }

  /** The glyphs pushed onto `parts` for a list of modifier names, in order. */
  ghost function Glyphs(names: seq<string>): seq<string> {
    if names == [] then [] else
      var g := ModifierGlyph(names[|names| - 1]);
      Glyphs(names[..|names| - 1]) + (if g.Some? then [g.value] else [])
  }

  /** `parts.join("")`. */
  function Join(parts: seq<string>): string {
    if parts == [] then "" else Join(parts[..|parts| - 1]) + parts[|parts| - 1]
  }

  /** What `format_shortcut_display` shows for a configuration. */
  ghost function DisplayOf(config: ShortcutConfig): string {
    Join(Glyphs(config.modifiers)) + KeyDisplay(config.key)
  }

  /**
   * `format_shortcut_display`: the glyphs of the recognised modifiers in input order,
   * then the key's symbol, or the key upper-cased when it has none.
   */
  method FormatShortcutDisplay(config: ShortcutConfig) returns (display: string)
    ensures display == DisplayOf(config)
  {
    var parts: seq<string> := [];
    for i := 0 to |config.modifiers|
      invariant parts == Glyphs(config.modifiers[..i])
    {
      assert config.modifiers[..i + 1][..i] == config.modifiers[..i];
      match ModifierGlyph(config.modifiers[i]) {
        case Some(g) => parts := parts + [g];
        case None =>
      }
    }
    assert config.modifiers[..|config.modifiers|] == config.modifiers;
    display := Join(parts) + KeyDisplay(config.key);
  }

  /** The flags `parse_modifiers` recognises in a list of names, in input order. */
  ghost function Recognised(names: seq<string>): seq<Modifier> {
    if names == [] then [] else
      var m := ModifierOf(names[|names| - 1]);
      Recognised(names[..|names| - 1]) + (if m.Some? then [m.value] else [])
  }

  function GlyphsOf(ms: seq<Modifier>): seq<string> {
    if ms == [] then [] else GlyphsOf(ms[..|ms| - 1]) + [Glyph(ms[|ms| - 1])]
  }

  /**
   * The display and the parser agree on the modifier names: the display shows one
   * glyph per name that `parse_modifiers` recognises, in input order, and the set of
   * those flags is the parsed set.
   */
  lemma {:induction false} DisplayShowsParsedModifiers(names: seq<string>)
    ensures Glyphs(names) == GlyphsOf(Recognised(names))
    ensures forall m :: m in Recognised(names) <==> m in ModifiersOf(names)
  {
    if names != [] {
      var init := names[..|names| - 1];
      var last := names[|names| - 1];
      DisplayShowsParsedModifiers(init);
      var r := Recognised(init);
      match ModifierOf(last) {
        case Some(m) =>
          assert ModifierGlyph(last) == Some(Glyph(m));
          assert Recognised(names) == r + [m];
          assert (r + [m])[..|r + [m]| - 1] == r;
        case None =>
          assert ModifierGlyph(last) == None;
          assert Glyphs(names) == Glyphs(init) + [] == Glyphs(init);
          assert Recognised(names) == r + [] == r;
      }
    }
  }

  /** The source's display tests, and the default shortcut's display. */
  lemma DisplayExamples()
    ensures DisplayOf(ShortcutConfig(["super", "shift"], "space")) == "\U{2318}\U{21E7}Space"
    ensures DisplayOf(ShortcutConfig(["ctrl"], "c")) == "\U{2303}C"
    ensures DisplayOf(DefaultShortcut) == "\U{2318}\U{21E7}Space"
  {
    LowerOfLower("super"); LowerOfLower("shift"); LowerOfLower("space");
    LowerOfLower("ctrl"); LowerOfLower("c");
    assert ToLower("Space") == "space";
    assert ["super", "shift"][..1] == ["super"];
    assert Glyphs(["super", "shift"]) == ["\U{2318}", "\U{21E7}"];
    assert Glyphs(["ctrl"]) == ["\U{2303}"];
    assert Join(["\U{2318}", "\U{21E7}"]) == "\U{2318}\U{21E7}";
  }

  /** The default shortcut parses to super+shift and Space; the default provider is OpenAI. */
  lemma DefaultsParse()
    ensures ModifiersOf(DefaultShortcut.modifiers) == {Super, Shift}
    ensures ParseKey(DefaultShortcut.key) == Some(Space)
    ensures DefaultSettings.transcription.provider == OpenAI
  {
    LowerOfLower("super"); LowerOfLower("shift");
    assert ToLower("Space") == "space";
    assert ["super", "shift"][..1] == ["super"];
  }

  /** `get_model_for_provider`. */
  function ModelFor(provider: Provider): string {
    match provider
    case OpenAI => "whisper-1"
    case Groq => "whisper-large-v3-turbo"
  }

  /** `get_endpoint_for_provider`. */
  function EndpointFor(provider: Provider): string {
    match provider
    case OpenAI => "https://api.openai.com/v1/audio/transcriptions"
    case Groq => "https://api.groq.com/openai/v1/audio/transcriptions"
  }

  /** The keychain account name of a provider, as `get_api_key_for_provider` spells it. */
  function ProviderKey(provider: Provider): string {
    match provider
    case OpenAI => "openai"
    case Groq => "groq"
  }

  /** `get_api_key_for_provider`, over an abstract keychain mapping account names to secrets. */
  function ApiKeyFor(provider: Provider, keychain: map<string, string>): (r: Option<string>)
    ensures r.Some? <==> ProviderKey(provider) in keychain
    ensures r.Some? ==> r.value == keychain[ProviderKey(provider)]
  {
    var k := ProviderKey(provider);
    if k in keychain then Some(keychain[k]) else None
  }

  /** The source's provider-table tests; the two providers differ in all three tables. */
  lemma ProviderTables()
    ensures ModelFor(OpenAI) == "whisper-1" && ModelFor(Groq) == "whisper-large-v3-turbo"
    ensures EndpointFor(OpenAI) == "https://api.openai.com/v1/audio/transcriptions"
    ensures EndpointFor(Groq) == "https://api.groq.com/openai/v1/audio/transcriptions"
    ensures forall p, q :: p != q ==> ModelFor(p) != ModelFor(q) && EndpointFor(p) != EndpointFor(q)
    ensures forall p, q :: p != q ==> ProviderKey(p) != ProviderKey(q)
  {
  }
}
