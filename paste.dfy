/**
 * Clipboard and focus handling (src-tauri/src/paste.rs). Pasting a transcript saves
 * the clipboard, puts the transcript on it, optionally brings the target application
 * to the front, sends Cmd+V through System Events, and puts the saved contents back.
 * Processes (pbpaste, pbcopy, osascript) are abstract: their outcomes are inputs and
 * each run is an entry in the host's log; the clipboard is the host's `clipboard`.
 */
module Paste {
  import opened Wrappers
  import opened Effects

  /**
   * How a `pbcopy` run went: spawning, writing its input, or waiting for it can fail.
   * Otherwise it ran to completion with an exit status, `exitOk`, that
   * `copy_to_clipboard` never looks at: only a successful pbcopy sets the clipboard.
   */
  datatype CopyOutcome =
    | CopySpawnFailed(e: string)
    | CopyWriteFailed(e: string)
    | CopyWaitFailed(e: string)
    | Copied(exitOk: bool)

  /** Whether a pbcopy run actually put its input on the clipboard. */
  predicate SetsClipboard(c: CopyOutcome) {
    c.Copied? && c.exitOk
  }

  /** The clipboard after a pbcopy of `text` with outcome `c`, from `clipboard`. */
  function AfterCopy(clipboard: string, text: string, c: CopyOutcome): string {
    if SetsClipboard(c) then text else clipboard
  }

  /** How an `osascript` run went: it could not be spawned, or it exited. */
  datatype ScriptOutcome = ScriptSpawnFailed(e: string) | Exited(success: bool, stderr: string)

  /** The outcomes of every process one paste may run, in the order they run. */
  datatype PasteWorld = PasteWorld(
    pbpasteRuns: bool,
    copy: CopyOutcome,
    activation: ScriptOutcome,
    keystroke: ScriptOutcome,
    restore: CopyOutcome)

  const TellApplication := "tell application "
  const KeystrokeScript := TellApplication + "\"System Events\"" + " to keystroke \"v\"" + " using command down"

  /** The AppleScript that brings the application with bundle id `id` to the front. */
  function ActivateScript(id: string): string {
    TellApplication + "id \"" + id + "\" to activate"
  }

  predicate IsBundleIdChar(c: char) {
    ('a' <= c <= 'z') || ('A' <= c <= 'Z') || ('0' <= c <= '9') || c == '.' || c == '-'
  }

  /**
   * The whitelist `activate_app_fast` applies to the bytes of a bundle id. A non-ASCII
   * character's UTF-8 bytes are all non-alphanumeric, so testing characters is the same.
   */
  predicate ValidBundleId(id: string) {
    forall i :: 0 <= i < |id| ==> IsBundleIdChar(id[i])
  }

  /**
   * A whitelisted id cannot break out of the quoted string: the script's only double
   * quotes are the two around the id, and there is no backslash in it.
   */
  lemma ActivateScriptQuotesOnlyTheId(id: string)
    requires ValidBundleId(id)
    ensures multiset(ActivateScript(id))['"'] == 2
    ensures multiset(ActivateScript(id))['\\'] == 0
  {
    var pre, post := TellApplication + "id ", " to activate";
    assert ActivateScript(id) == pre + "\"" + id + "\"" + post;
    assert '"' !in id && '\\' !in id;
    ScriptTextUnquoted();
    QuotedCounts(pre, id, post);
  }

  /** The fixed text around the id has no quote and no backslash. */
  lemma ScriptTextUnquoted()
    ensures '"' !in TellApplication + "id " && '\\' !in TellApplication + "id "
    ensures '"' !in " to activate" && '\\' !in " to activate"
  {
  }

  /** Quoting a string free of quotes and backslashes between two others adds exactly two quotes. */
  lemma QuotedCounts(pre: string, mid: string, post: string)
    requires '"' !in pre && '"' !in mid && '"' !in post
    requires '\\' !in pre && '\\' !in mid && '\\' !in post
    ensures multiset(pre + "\"" + mid + "\"" + post)['"'] == 2
    ensures multiset(pre + "\"" + mid + "\"" + post)['\\'] == 0
  {
    var q := "\"";
    assert multiset(pre + q + mid + q + post)
      == multiset(pre) + multiset(q) + multiset(mid) + multiset(q) + multiset(post);
    assert multiset(pre)['"'] == 0 && multiset(mid)['"'] == 0 && multiset(post)['"'] == 0;
  }

  /**
   * The result of `copy_to_clipboard`: it fails exactly when pbcopy could not be
   * spawned, fed or waited for, each with its own message. A pbcopy that exits with a
   * failure status still counts as a success.
   */
  function CopyResult(c: CopyOutcome): (r: Result<Unit>)
    ensures r.Ok? <==> c.Copied?
    ensures c.CopySpawnFailed? ==> r == Err("Failed to spawn pbcopy: " + c.e)
    ensures c.CopyWriteFailed? ==> r == Err("Failed to write to pbcopy: " + c.e)
    ensures c.CopyWaitFailed? ==> r == Err("pbcopy failed: " + c.e)
  {
    match c
    case CopySpawnFailed(e) => Err("Failed to spawn pbcopy: " + e)
    case CopyWriteFailed(e) => Err("Failed to write to pbcopy: " + e)
    case CopyWaitFailed(e) => Err("pbcopy failed: " + e)
    case Copied(_) => Ok(Unit)
  }

  /**
   * The result of running an AppleScript through `osascript`: a spawn failure is
   * reported behind `spawnPrefix`, a failure status with the script's stderr.
   */
  function ScriptResult(spawnPrefix: string, a: ScriptOutcome): (r: Result<Unit>)
    ensures r.Ok? <==> a.Exited? && a.success
    ensures a.ScriptSpawnFailed? ==> r == Err(spawnPrefix + a.e)
    ensures a.Exited? && !a.success ==> r == Err("AppleScript error: " + a.stderr)
  {
    match a
    case ScriptSpawnFailed(e) => Err(spawnPrefix + e)
    case Exited(success, stderr) => if success then Ok(Unit) else Err("AppleScript error: " + stderr)
  }

  /** The result of running the activation script. */
  function ActivationResult(a: ScriptOutcome): Result<Unit> {
    ScriptResult("Failed to activate app: ", a)
  }

  /** The result of running the keystroke script. */
  function KeystrokeResult(k: ScriptOutcome): Result<Unit> {
    ScriptResult("Failed to execute AppleScript: ", k)
  }

  /** What `activate_app_fast` and `activate_app` return for an id and an osascript outcome. */
  function ActivateOutcome(id: string, a: ScriptOutcome): (r: Result<Unit>)
    ensures !ValidBundleId(id) ==> r == Err("Invalid bundle identifier: " + id)
    ensures ValidBundleId(id) ==> r == ActivationResult(a)
  {
    if ValidBundleId(id) then ActivationResult(a) else Err("Invalid bundle identifier: " + id)
  }

  /** The effects, final clipboard and result of one paste. */
  datatype Outcome = Outcome(effects: seq<Effect>, clipboard: string, result: Result<Unit>)

  /**
   * Keystroke, then restore the saved contents unless the keystroke could not be
   * spawned; `current` is what the clipboard holds before the keystroke.
   */
  function KeystrokeAndRestore(effects: seq<Effect>, current: string, previous: string, w: PasteWorld): Outcome {
    var e := effects + [Ran(Osascript(KeystrokeScript))];
    if w.keystroke.ScriptSpawnFailed? then Outcome(e, current, KeystrokeResult(w.keystroke))
    else Outcome(e + [Ran(Pbcopy(previous))], AfterCopy(current, previous, w.restore), KeystrokeResult(w.keystroke))
  }

  /** `get_clipboard`: the clipboard's text, or empty when pbpaste cannot be run. */
  function Saved(clipboard: string, w: PasteWorld): string {
    if w.pbpasteRuns then clipboard else ""
  }

  /** What `set_clipboard_and_paste(text)` does, from a clipboard holding `clipboard`. */
  function SetClipboardAndPasteRun(text: string, clipboard: string, w: PasteWorld): Outcome {
    var effects := [Ran(Pbpaste), Ran(Pbcopy(text))];
    if !w.copy.Copied? then Outcome(effects, clipboard, CopyResult(w.copy))
    else KeystrokeAndRestore(effects, AfterCopy(clipboard, text, w.copy), Saved(clipboard, w), w)
  }

  /** What `paste_to_app(text, id)` does, from a clipboard holding `clipboard`. */
  function PasteToAppRun(text: string, id: string, clipboard: string, w: PasteWorld): Outcome {
    var effects := [Ran(Pbpaste), Ran(Pbcopy(text))];
    var copied := AfterCopy(clipboard, text, w.copy);
    if !w.copy.Copied? then Outcome(effects, clipboard, CopyResult(w.copy))
    else if !ValidBundleId(id) then Outcome(effects, copied, ActivateOutcome(id, w.activation))
    else
      var activated := effects + [Ran(Osascript(ActivateScript(id)))];
      if ActivationResult(w.activation).Err? then Outcome(activated, copied, ActivationResult(w.activation))
      else KeystrokeAndRestore(activated, copied, Saved(clipboard, w), w)
  }

  /** `get_clipboard`. */
  method GetClipboard(host: Host, runs: bool) returns (s: string)
    modifies host`log
    ensures s == (if runs then host.clipboard else "")
    ensures host.log == old(host.log) + [Ran(Pbpaste)]
  {
    host.Record(Ran(Pbpaste));
    s := if runs then host.clipboard else "";
  }

  /**
   * `copy_to_clipboard`: the clipboard holds `text` exactly when pbcopy succeeded,
   * while the result only says whether pbcopy ran to completion.
   */
  method CopyToClipboard(host: Host, text: string, outcome: CopyOutcome) returns (r: Result<Unit>)
    modifies host`log, host`clipboard
    ensures r == CopyResult(outcome)
    ensures host.clipboard == AfterCopy(old(host.clipboard), text, outcome)
    ensures host.log == old(host.log) + [Ran(Pbcopy(text))]
  {
    host.Record(Ran(Pbcopy(text)));
    if SetsClipboard(outcome) {
      host.clipboard := text;
    }
    r := CopyResult(outcome);
  }

  /** `activate_app_fast`: a rejected id runs nothing. */
  method ActivateAppFast(host: Host, id: string, outcome: ScriptOutcome) returns (r: Result<Unit>)
    modifies host`log
    ensures r == ActivateOutcome(id, outcome)
    ensures host.log == old(host.log) + (if ValidBundleId(id) then [Ran(Osascript(ActivateScript(id)))] else [])
  {
    if !ValidBundleId(id) {
      return Err("Invalid bundle identifier: " + id);
    }
    host.Record(Ran(Osascript(ActivateScript(id))));
    r := ActivationResult(outcome);
  }

  /** `activate_app`: `activate_app_fast` followed by a pause; its errors pass through unchanged. */
  method ActivateApp(host: Host, id: string, outcome: ScriptOutcome) returns (r: Result<Unit>)
    modifies host`log
    ensures r == ActivateOutcome(id, outcome)
    ensures host.log == old(host.log) + (if ValidBundleId(id) then [Ran(Osascript(ActivateScript(id)))] else [])
  {
    r := ActivateAppFast(host, id, outcome);
  }

  /** Send Cmd+V and, unless osascript could not be spawned, restore `previous`. */
  method KeystrokeThenRestore(host: Host, previous: string, w: PasteWorld) returns (r: Result<Unit>)
    modifies host`log, host`clipboard
    ensures var o := KeystrokeAndRestore(old(host.log), old(host.clipboard), previous, w);
      host.log == o.effects && host.clipboard == o.clipboard && r == o.result
  {
    host.Record(Ran(Osascript(KeystrokeScript)));
    match w.keystroke {
      case ScriptSpawnFailed(e) =>
        return Err("Failed to execute AppleScript: " + e);
      case Exited(success, stderr) =>
        var _ := CopyToClipboard(host, previous, w.restore);
        if !success {
          return Err("AppleScript error: " + stderr);
        }
        r := Ok(Unit);
    }
  }

  /** `set_clipboard_and_paste`. */
  method SetClipboardAndPaste(host: Host, text: string, w: PasteWorld) returns (r: Result<Unit>)
    modifies host`log, host`clipboard
    ensures var o := SetClipboardAndPasteRun(text, old(host.clipboard), w);
      host.log == old(host.log) + o.effects && host.clipboard == o.clipboard && r == o.result
  {
    ghost var log0 := host.log;
    var previous := GetClipboard(host, w.pbpasteRuns);
    var copied := CopyToClipboard(host, text, w.copy);
    if copied.Err? {
      return copied;
    }
    ghost var current := host.clipboard;
    r := KeystrokeThenRestore(host, previous, w);
    assert host.log == log0 + KeystrokeAndRestore([Ran(Pbpaste), Ran(Pbcopy(text))], current, previous, w).effects;
  }

  /** `paste_to_app`. */
  method PasteToApp(host: Host, text: string, id: string, w: PasteWorld) returns (r: Result<Unit>)
    modifies host`log, host`clipboard
    ensures var o := PasteToAppRun(text, id, old(host.clipboard), w);
      host.log == old(host.log) + o.effects && host.clipboard == o.clipboard && r == o.result
  {
    ghost var log0 := host.log;
    var previous := GetClipboard(host, w.pbpasteRuns);
    var copied := CopyToClipboard(host, text, w.copy);
    if copied.Err? {
      return copied;
    }
    var activated := ActivateApp(host, id, w.activation);
    if activated.Err? {
      return activated;
    }
    ghost var effects := [Ran(Pbpaste), Ran(Pbcopy(text)), Ran(Osascript(ActivateScript(id)))];
    assert host.log == log0 + effects;
    ghost var current := host.clipboard;
    r := KeystrokeThenRestore(host, previous, w);
    assert host.log == log0 + KeystrokeAndRestore(effects, current, previous, w).effects;
  }

  /** The last clipboard write of a paste, if any. */
  function LastCopy(effects: seq<Effect>): Option<string> {
    if effects == [] then None
    else if effects[|effects| - 1].Ran? && effects[|effects| - 1].command.Pbcopy? then
      Some(effects[|effects| - 1].command.input)
    else LastCopy(effects[..|effects| - 1])
  }

  /** No keystroke is sent by either paste. */
  predicate NoKeystroke(effects: seq<Effect>) {
    Ran(Osascript(KeystrokeScript)) !in effects
  }

  /**
   * When the transcript cannot be put on the clipboard, neither paste sends a keystroke
   * or activates anything, the clipboard is as it was, and the copy error is returned.
   */
  lemma CopyFailureSendsNothing(text: string, id: string, clipboard: string, w: PasteWorld)
    requires !w.copy.Copied?
    ensures var o := SetClipboardAndPasteRun(text, clipboard, w);
      o.clipboard == clipboard && o.result == CopyResult(w.copy) && o.result.Err?
      && o.effects == [Ran(Pbpaste), Ran(Pbcopy(text))]
    ensures var o := PasteToAppRun(text, id, clipboard, w);
      o.clipboard == clipboard && o.result == CopyResult(w.copy) && o.result.Err?
      && o.effects == [Ran(Pbpaste), Ran(Pbcopy(text))]
  {
  }

  /**
   * Once the keystroke script has run (successfully or not), the last clipboard write
   * puts back what was saved, so a working pbcopy restores the previous contents.
   */
  lemma RestoredAfterKeystroke(effects: seq<Effect>, current: string, previous: string, w: PasteWorld)
    requires w.keystroke.Exited?
    ensures var o := KeystrokeAndRestore(effects, current, previous, w);
      LastCopy(o.effects) == Some(previous)
      && o.clipboard == (if SetsClipboard(w.restore) then previous else current)
      && (o.result.Ok? <==> w.keystroke.success)
  {
  }

  /**
   * `set_clipboard_and_paste` once pbcopy ran: after the keystroke script ran (with
   * either status) a successful restore leaves the saved contents; otherwise the
   * clipboard holds whatever the copy left there, the transcript when pbcopy succeeded.
   */
  lemma SetClipboardAndPasteRestores(text: string, clipboard: string, w: PasteWorld)
    requires w.copy.Copied?
    ensures var o := SetClipboardAndPasteRun(text, clipboard, w);
      (w.keystroke.Exited? && SetsClipboard(w.restore) ==> o.clipboard == Saved(clipboard, w))
      && (w.keystroke.Exited? && !SetsClipboard(w.restore) ==> o.clipboard == AfterCopy(clipboard, text, w.copy))
      && (w.keystroke.ScriptSpawnFailed? ==> o.clipboard == AfterCopy(clipboard, text, w.copy) && o.result.Err?)
      && (o.result.Ok? <==> w.keystroke.Exited? && w.keystroke.success)
  {
  }

  /**
   * `paste_to_app` runs pbpaste, pbcopy, the activation, then the keystroke, in that
   * order; when activation fails, nothing more runs and the clipboard keeps what the
   * copy left there (the transcript, when pbcopy succeeded).
   */
  lemma PasteToAppOrder(text: string, id: string, clipboard: string, w: PasteWorld)
    requires w.copy.Copied?
    ensures var o := PasteToAppRun(text, id, clipboard, w);
      |o.effects| >= 2 && o.effects[..2] == [Ran(Pbpaste), Ran(Pbcopy(text))]
    ensures var o := PasteToAppRun(text, id, clipboard, w);
      ActivateOutcome(id, w.activation).Err? ==>
        o.clipboard == AfterCopy(clipboard, text, w.copy) && o.result == ActivateOutcome(id, w.activation)
        && NoKeystroke(o.effects)
    ensures var o := PasteToAppRun(text, id, clipboard, w);
      ActivateOutcome(id, w.activation).Ok? ==>
        |o.effects| >= 4
        && o.effects[..4] == [Ran(Pbpaste), Ran(Pbcopy(text)), Ran(Osascript(ActivateScript(id))), Ran(Osascript(KeystrokeScript))]
        && (w.keystroke.Exited? && SetsClipboard(w.restore) ==> o.clipboard == Saved(clipboard, w))
  {
    var o := PasteToAppRun(text, id, clipboard, w);
    if ActivateOutcome(id, w.activation).Err? {
      if ValidBundleId(id) {
        assert ActivateScript(id) != KeystrokeScript by {
          ActivateScriptIsNotKeystroke(id);
        }
      }
    }
  }

  /**
   * Both pastes only run commands, and read the clipboard exactly once, first: what
   * they do to the log is one paste attempt.
   */
  lemma PasteRunsOnlyRunCommands(text: string, id: string, clipboard: string, w: PasteWorld)
    ensures var o := SetClipboardAndPasteRun(text, clipboard, w);
      |o.effects| >= 2 && o.effects[0] == Ran(Pbpaste)
      && (forall i :: 0 <= i < |o.effects| ==> o.effects[i].Ran?)
      && (forall i :: 1 <= i < |o.effects| ==> o.effects[i].command != Pbpaste)
    ensures var o := PasteToAppRun(text, id, clipboard, w);
      |o.effects| >= 2 && o.effects[0] == Ran(Pbpaste)
      && (forall i :: 0 <= i < |o.effects| ==> o.effects[i].Ran?)
      && (forall i :: 1 <= i < |o.effects| ==> o.effects[i].command != Pbpaste)
  {
  }

  /**
   * The exit status of pbcopy is not checked: a pbcopy that fails after reading the
   * transcript lets `set_clipboard_and_paste` send Cmd+V and report success although
   * the transcript never reached the clipboard, so what gets pasted is the old contents.
   */
  lemma UncheckedCopyStatusReportsSuccess(text: string, clipboard: string, w: PasteWorld)
    requires w.copy == Copied(false) && w.keystroke.Exited? && w.keystroke.success
    ensures var o := SetClipboardAndPasteRun(text, clipboard, w);
      o.result.Ok?
      && Ran(Osascript(KeystrokeScript)) in o.effects
      && AfterCopy(clipboard, text, w.copy) == clipboard
  {
    var o := SetClipboardAndPasteRun(text, clipboard, w);
    assert o.effects[2] == Ran(Osascript(KeystrokeScript));
  }

  /** The activation script is never the keystroke script. */
  lemma ActivateScriptIsNotKeystroke(id: string)
    ensures ActivateScript(id) != KeystrokeScript
  {
    var a := ActivateScript(id);
    assert a[17] == 'i';
    assert KeystrokeScript[17] == '"';
  }

  /** An empty bundle id passes the whitelist; one with a quote, a space or a non-ASCII letter does not. */
  lemma BundleIdExamples()
    ensures ValidBundleId("") && ValidBundleId("com.apple.TextEdit")
    ensures !ValidBundleId("a\"b") && !ValidBundleId("com apple") && !ValidBundleId("caf\U{00E9}")
  {
    assert !IsBundleIdChar("a\"b"[1]);
    assert !IsBundleIdChar("com apple"[3]);
    assert !IsBundleIdChar("caf\U{00E9}"[3]);
  }
}
